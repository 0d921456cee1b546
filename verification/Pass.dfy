/** What one reconcile pass does to the cluster, as a function of the cluster and of which of its
    calls fail. Reconciler.Reconcile is proved to do exactly this; the theorems about runs are about it. */
module Pass {
  import opened Text
  import opened Utils
  import opened Api
  import opened Credentials
  import opened Generators
  import opened Cluster

  const MAX_RECENT_ERRORS := 5
  const RETRY_STEPS := 5

  /** One try of recordError: its read and write succeed, its write conflicts, or a call fails otherwise. */
  datatype Attempt = Lands | Conflicts | Breaks

  /** Which calls of a pass fail, which nodes grant a membership change, which claims cannot be deleted. */
  datatype Plan = Plan(getServerFails: bool, writeServerFails: bool,
                       ownServiceFails: bool, getServiceFails: bool, writeServiceFails: bool,
                       ownSetFails: bool, getSetFails: bool, writeSetFails: bool,
                       grants: set<Grant>, writeStatusFails: bool,
                       firstListFails: bool, secondListFails: bool, undeletable: set<ObjectKey>,
                       record: seq<Attempt>)

  datatype PassResult = Done | Requeue | RequeueAfter | Error

  /** A step's effect on the cluster and on the pass's own copy of the server. */
  datatype StepResult = StepResult(world: World, server: Server, ok: bool)

  // ---------------------------------------------------------------- the error log

  function Logged(errors: seq<ServerError>, e: ServerError): seq<ServerError> {
    (if |errors| >= MAX_RECENT_ERRORS then errors[1..] else errors) + [e]
  }

  /** A write lands when only conflicts come before it, and the retries suffice. */
  predicate RecordLands(record: seq<Attempt>, tries: nat) {
    tries > 0 && (record == [] || record[0] == Lands || (record[0] == Conflicts && RecordLands(record[1..], tries - 1)))
  }

  function Recorded(w: World, key: ObjectKey, e: ServerError, record: seq<Attempt>): World {
    if key in w.servers && RecordLands(record, RETRY_STEPS) then
      var s := w.servers[key];
      w.(servers := w.servers[key := s.(status := s.status.(errors := Logged(s.status.errors, e)))])
    else w
  }

  const SERVER_ERROR := "k8s-seata-server"
  const SERVICE_ERROR := "k8s-headless-service"
  const SET_ERROR := "k8s-statefulset"

  // ---------------------------------------------------------------- the three steps

  /** Why the Service step fails, if it does. */
  function ServiceFault(w: World, at: ObjectKey, p: Plan): Option<string> {
    if p.ownServiceFails then Some("Failed to set owner reference for Headless Service")
    else if p.getServiceFails then Some("Failed to get Headless Service")
    else if p.writeServiceFails then
      Some(if at in w.services then "Failed to update Headless Service" else "Failed to create Headless Service")
    else None
  }

  function ServiceStep(w: World, key: ObjectKey, s: Server, p: Plan): StepResult {
    var at := ObjectKey(key.namespace, s.spec.serviceName);
    var desired := ServiceFor(key, s.spec);
    match ServiceFault(w, at, p)
    case Some(message) => StepResult(Recorded(w, key, ServerError(SERVICE_ERROR, message), p.record), s, false)
    case None =>
      var written := if at in w.services then w.services[at].(ports := desired.ports) else desired;
      StepResult(w.(services := w.services[at := written]), s, true)
  }

  function Username(w: World, key: ObjectKey, s: Spec): string {
    Resolved(w.store, key.namespace, s.env, USERNAME)
  }

  function Password(w: World, key: ObjectKey, s: Spec): string {
    Resolved(w.store, key.namespace, s.env, PASSWORD)
  }

  /** The membership change goes to every node 0..replicas-1 and succeeds when all of them grant it. */
  function PushGranted(w: World, key: ObjectKey, s: Spec, p: Plan): bool {
    AllGrant(s.replicas, p.grants, Username(w, key, s), Password(w, key, s))
  }

  function Pushed(w: World, key: ObjectKey, s: Spec, p: Plan): World {
    w.(accepted := Accepting(w.accepted, key, s.replicas, MemberListOf(key, s), p.grants, Username(w, key, s), Password(w, key, s)))
  }

  function UpdatedSet(found: StoredSet, key: ObjectKey, s: Spec): StoredSet {
    found.(template := TemplateFor(key, s), replicas := s.replicas)
  }

  /** The status after the set was written: its counts, and whether the raft cluster is in step. */
  function ObservedStatus(found: StoredSet, s: Server, granted: bool): Status {
    var seen := s.status.(replicas := found.podReplicas, readyReplicas := found.readyReplicas);
    if found.readyReplicas != s.spec.replicas then seen.(synchronized := false)
    else if s.status.synchronized then seen
    else seen.(synchronized := granted)
  }

  predicate PushDue(found: StoredSet, s: Server) {
    found.readyReplicas == s.spec.replicas && !s.status.synchronized
  }

  function UpdateSetStep(w: World, key: ObjectKey, s: Server, p: Plan): StepResult
    requires key in w.sets && (key in w.servers || p.writeStatusFails)
  {
    var found := w.sets[key];
    if p.writeSetFails then StepResult(w, s, false)
    else
      var written := w.(sets := w.sets[key := UpdatedSet(found, key, s.spec)]);
      var pushed := if PushDue(found, s) then Pushed(written, key, s.spec, p) else written;
      var status := ObservedStatus(found, s, PushGranted(w, key, s.spec, p));
      if p.writeStatusFails then StepResult(pushed, s.(status := status), false)
      else
        var next := w.servers[key].(status := status);
        StepResult(pushed.(servers := w.servers[key := next]), next, true)
  }

  function SetStep(w: World, key: ObjectKey, s: Server, p: Plan): StepResult
    requires key in w.servers || p.writeStatusFails
  {
    if p.ownSetFails then StepResult(w, s, false)
    else if p.getSetFails then
      StepResult(Recorded(w, key, ServerError(SET_ERROR, "Failed to get StatefulSet"), p.record), s, false)
    else if key !in w.sets then
      if p.writeSetFails then
        StepResult(Recorded(w, key, ServerError(SET_ERROR, "Failed to create StatefulSet"), p.record), s, false)
      else StepResult(w.(sets := w.sets[key := SetFor(key, s.uid, s.spec)]), s, true)
    else
      var r := UpdateSetStep(w, key, s, p);
      if r.ok then r
      else r.(world := Recorded(r.world, key, ServerError(SET_ERROR, "Failed to update StatefulSet"), p.record))
  }

  /** The claims of a server, as the reconciler lists them. */
  function ClaimsOf(w: World, key: ObjectKey, s: Server): seq<Claim> {
    Selected(w.claims, key.namespace, key.name, s.uid)
  }

  function OrphanStep(w: World, key: ObjectKey, s: Server, p: Plan): StepResult {
    var list := ClaimsOf(w, key, s);
    if s.status.readyReplicas != s.spec.replicas then StepResult(w, s, true)
    else if p.firstListFails then StepResult(w, s, false)
    else if |list| <= s.spec.replicas then StepResult(w, s, true)
    else if p.secondListFails then StepResult(w, s, false)
    else StepResult(w.(claims := Without(w.claims, Doomed(list, Some(s.spec.replicas), p.undeletable))), s, true)
  }

  /** A successful write of the server; the answer carries the stored status. */
  function ServerWritten(w: World, key: ObjectKey, s: Server): StepResult
    requires key in w.servers
  {
    var next := s.(status := w.servers[key].status);
    StepResult(w.(servers := Stored(w.servers, key, next)), next, true)
  }

  const FINALIZER_FAILED := ServerError(SERVER_ERROR, "Failed to update resource SeataServer Finalizers")

  /** A live server gets the finalizer, then its orphaned claims go. */
  function MarkStep(w: World, key: ObjectKey, s: Server, p: Plan): StepResult
    requires key in w.servers || p.writeServerFails
  {
    if SEATA_FINALIZER in s.finalizers then OrphanStep(w, key, s, p)
    else
      var marked := s.(finalizers := s.finalizers + [SEATA_FINALIZER]);
      if p.writeServerFails then StepResult(Recorded(w, key, FINALIZER_FAILED, p.record), marked, false)
      else
        var r := ServerWritten(w, key, marked);
        OrphanStep(r.world, key, r.server, p)
  }

  /** A deleted server loses all its claims, then the finalizer. */
  function ReleaseStep(w: World, key: ObjectKey, s: Server, p: Plan): StepResult
    requires key in w.servers || p.writeServerFails
  {
    if SEATA_FINALIZER !in s.finalizers then StepResult(w, s, true)
    else if p.firstListFails then
      StepResult(Recorded(w, key, ServerError(SERVER_ERROR, "Failed to delete resource SeataServer PVCs"), p.record), s, false)
    else
      var cleaned := w.(claims := Without(w.claims, Doomed(ClaimsOf(w, key, s), None, p.undeletable)));
      var released := s.(finalizers := Removed(s.finalizers, SEATA_FINALIZER));
      if p.writeServerFails then StepResult(Recorded(cleaned, key, FINALIZER_FAILED, p.record), released, false)
      else ServerWritten(cleaned, key, released)
  }

  function FinalizerStep(w: World, key: ObjectKey, s: Server, p: Plan): StepResult
    requires key in w.servers || p.writeServerFails
  {
    if s.spec.persistence.volumeReclaimPolicy != DELETE then StepResult(w, s, true)
    else if s.deleting then ReleaseStep(w, key, s, p)
    else MarkStep(w, key, s, p)
  }

  // ---------------------------------------------------------------- the pass

  datatype Outcome = Outcome(world: World, result: PassResult)

  /** The pass's copy of the server after defaulting that reported nothing. */
  function Loaded(w: World, key: ObjectKey): Server
    requires key in w.servers
  {
    w.servers[key].(spec := Defaulted(w.servers[key].spec))
  }

  /** Service, StatefulSet, finalizers, in this order; the first failure ends the pass. */
  function ReconcileLoaded(w: World, key: ObjectKey, s: Server, p: Plan): Outcome
    requires key in w.servers
  {
    var service := ServiceStep(w, key, s, p);
    if !service.ok then Outcome(service.world, Error)
    else
      var second := SetStep(service.world, key, service.server, p);
      if !second.ok then Outcome(second.world, Error)
      else
        var final := FinalizerStep(second.world, key, second.server, p);
        if !final.ok then Outcome(final.world, Error)
        else Outcome(final.world, if final.server.status.synchronized then Done else RequeueAfter)
  }

  function Reconciled(w: World, key: ObjectKey, p: Plan): Outcome {
    if p.getServerFails then
      Outcome(Recorded(w, key, ServerError(SERVER_ERROR, "Failed to fetch SeataServer"), p.record), Error)
    else if key !in w.servers then Outcome(w, Done)
    else if DefaultsPending(w.servers[key].spec) then
      if p.writeServerFails then
        Outcome(Recorded(w, key, ServerError(SERVER_ERROR, "Failed to update SeataServer with defaults"), p.record), Error)
      else Outcome(ServerWritten(w, key, Loaded(w, key)).world, Requeue)
    else ReconcileLoaded(w, key, Loaded(w, key), p)
  }
}
