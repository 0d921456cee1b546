/** Which passes fail, and what they write into the error log. */
module PassLog {
  import opened Utils
  import opened Api
  import opened Cluster
  import opened Pass
  import opened Runs
  import opened Safety
  import opened Settling
  import opened FinalizerProtocol

  /** What goes wrong in a pass: nothing, something that is written into the log, or something that is not. */
  datatype Fault = NoFault | Silent | Entry(error: ServerError)

  const FINALIZER_UNWRITTEN := Entry(ServerError("k8s-seata-server", "Failed to update resource SeataServer Finalizers"))
  const CLAIMS_UNLISTED := Entry(ServerError("k8s-seata-server", "Failed to delete resource SeataServer PVCs"))

  /** A List of the orphan cleanup fails. */
  predicate OrphanListFails(w: World, key: ObjectKey, p: Plan)
    requires key in w.servers
  {
    var s := w.servers[key];
    && ReadySeen(w, key) == s.spec.replicas
    && (p.firstListFails || (|ClaimsOf(w, key, s)| > s.spec.replicas && p.secondListFails))
  }

  /** The fault of the first step. */
  function ServiceFaultOf(w: World, key: ObjectKey, p: Plan): Fault
    requires key in w.servers
  {
    if p.ownServiceFails then
      Entry(ServerError("k8s-headless-service", "Failed to set owner reference for Headless Service"))
    else if p.getServiceFails then Entry(ServerError("k8s-headless-service", "Failed to get Headless Service"))
    else if !p.writeServiceFails then NoFault
    else if ObjectKey(key.namespace, w.servers[key].spec.serviceName) in w.services then
      Entry(ServerError("k8s-headless-service", "Failed to update Headless Service"))
    else Entry(ServerError("k8s-headless-service", "Failed to create Headless Service"))
  }

  /** The fault of the second step: its owner reference alone is not logged. */
  function SetFault(w: World, key: ObjectKey, p: Plan): Fault {
    if p.ownSetFails then Silent
    else if p.getSetFails then Entry(ServerError("k8s-statefulset", "Failed to get StatefulSet"))
    else if key !in w.sets then
      if p.writeSetFails then Entry(ServerError("k8s-statefulset", "Failed to create StatefulSet")) else NoFault
    else if p.writeSetFails || p.writeStatusFails then Entry(ServerError("k8s-statefulset", "Failed to update StatefulSet"))
    else NoFault
  }

  /** The fault of the third step: the Lists of the orphan cleanup are not logged. */
  function FinalizerFault(w: World, key: ObjectKey, p: Plan): Fault
    requires key in w.servers
  {
    var s := w.servers[key];
    var marked := SEATA_FINALIZER in s.finalizers;
    if s.spec.persistence.volumeReclaimPolicy != DELETE then NoFault
    else if s.deleting then
      if !marked then NoFault
      else if p.firstListFails then CLAIMS_UNLISTED
      else if p.writeServerFails then FINALIZER_UNWRITTEN
      else NoFault
    else if !marked && p.writeServerFails then FINALIZER_UNWRITTEN
    else if OrphanListFails(w, key, p) then Silent
    else NoFault
  }

  /** The fault of the whole pass: the first there is. */
  function FaultOf(w: World, key: ObjectKey, p: Plan): Fault
    requires key in w.servers
  {
    if p.getServerFails then Entry(ServerError("k8s-seata-server", "Failed to fetch SeataServer"))
    else if DefaultsPending(w.servers[key].spec) then
      if p.writeServerFails then Entry(ServerError("k8s-seata-server", "Failed to update SeataServer with defaults")) else NoFault
    else if ServiceFaultOf(w, key, p) != NoFault then ServiceFaultOf(w, key, p)
    else if SetFault(w, key, p) != NoFault then SetFault(w, key, p)
    else FinalizerFault(w, key, p)
  }

  /** The log after a fault: one entry more if it is one that is written, and the write lands in five tries. */
  function ErrorsAfter(errors: seq<ServerError>, fault: Fault, p: Plan): seq<ServerError> {
    if fault.Entry? && RecordLands(p.record, 5) then Logged(errors, fault.error) else errors
  }

  /** The server, if it is still there, has this log. */
  predicate LogIs(w: World, key: ObjectKey, errors: seq<ServerError>) {
    key in w.servers ==> w.servers[key].status.errors == errors
  }

  lemma SetStepLog(v: World, key: ObjectKey, s: Server, p: Plan)
    requires key in v.servers && s.status == v.servers[key].status
    ensures var r := SetStep(v, key, s, p);
            && (r.ok <==> SetFault(v, key, p) == NoFault)
            && LogIs(r.world, key, ErrorsAfter(v.servers[key].status.errors, SetFault(v, key, p), p))
            && (r.ok ==> key in r.world.servers && r.server.status == r.world.servers[key].status)
  {
    if key in v.sets { UpdateSetStepFrame(v, key, s, p); }
  }

  lemma MarkStepLog(v: World, key: ObjectKey, t: Server, p: Plan)
    requires key in v.servers && t.status == v.servers[key].status
    ensures var r := MarkStep(v, key, t, p);
            var unwritten := SEATA_FINALIZER !in t.finalizers && p.writeServerFails;
            var list := ClaimsOf(v, key, t);
            && (r.ok <==> !unwritten && !(t.status.readyReplicas == t.spec.replicas
                                          && (p.firstListFails || (|list| > t.spec.replicas && p.secondListFails))))
            && LogIs(r.world, key, ErrorsAfter(t.status.errors, if unwritten then FINALIZER_UNWRITTEN else NoFault, p))
  {
  }

  lemma ReleaseStepLog(v: World, key: ObjectKey, t: Server, p: Plan)
    requires key in v.servers && t.status == v.servers[key].status
    ensures var r := ReleaseStep(v, key, t, p);
            var fault := if SEATA_FINALIZER !in t.finalizers then NoFault
                         else if p.firstListFails then CLAIMS_UNLISTED
                         else if p.writeServerFails then FINALIZER_UNWRITTEN else NoFault;
            (r.ok <==> fault == NoFault) && LogIs(r.world, key, ErrorsAfter(t.status.errors, fault, p))
  {
  }

  lemma FinalizerStepLog(w: World, v: World, key: ObjectKey, t: Server, p: Plan)
    requires key in w.servers && key in v.servers && v.claims == w.claims && t.status == v.servers[key].status
    requires var s := w.servers[key];
             && t.uid == s.uid && t.deleting == s.deleting && t.finalizers == s.finalizers
             && t.spec.replicas == s.spec.replicas && t.status.readyReplicas == ReadySeen(w, key)
             && (t.spec.persistence.volumeReclaimPolicy == DELETE <==> s.spec.persistence.volumeReclaimPolicy == DELETE)
    ensures var r := FinalizerStep(v, key, t, p);
            && (r.ok <==> FinalizerFault(w, key, p) == NoFault)
            && LogIs(r.world, key, ErrorsAfter(t.status.errors, FinalizerFault(w, key, p), p))
  {
    MarkStepLog(v, key, t, p);
    ReleaseStepLog(v, key, t, p);
  }

  /** The first two steps. */
  lemma StepsLog(w: World, key: ObjectKey, p: Plan)
    requires Settable(w, key) && !p.getServerFails && ServiceStep(w, key, Loaded(w, key), p).ok
    ensures var second := SetStep(ServiceStep(w, key, Loaded(w, key), p).world, key, Loaded(w, key), p);
            && (second.ok <==> SetFault(w, key, p) == NoFault)
            && LogIs(second.world, key, ErrorsAfter(w.servers[key].status.errors, SetFault(w, key, p), p))
            && (second.ok ==> key in second.world.servers && second.server.status == second.world.servers[key].status)
  {
    ServiceStepFrame(w, key, Loaded(w, key), p);
    SetStepLog(ServiceStep(w, key, Loaded(w, key), p).world, key, Loaded(w, key), p);
  }

  lemma PassingLogs(w: World, key: ObjectKey, p: Plan)
    requires PassesSet(w, key, p)
    ensures Reconciled(w, key, p).result == Error <==> FinalizerFault(w, key, p) != NoFault
    ensures LogIs(Reconciled(w, key, p).world, key, ErrorsAfter(w.servers[key].status.errors, FinalizerFault(w, key, p), p))
  {
    var s := Loaded(w, key);
    var service := ServiceStep(w, key, s, p);
    PassesSetExactly(w, key, p);
    ServiceStepFrame(w, key, s, p);
    StepsLog(w, key, p);
    var second := SetStep(service.world, key, s, p);
    SetStepFrame(service.world, key, s, p);
    SetStepReady(service.world, key, s, p);
    LoadedOutcome(w, key, p);
    FinalizerStepLog(w, second.world, key, second.server, p);
  }

  lemma SettledLogs(w: World, key: ObjectKey, p: Plan)
    requires Settable(w, key) && !p.getServerFails
    ensures Reconciled(w, key, p).result == Error <==> FaultOf(w, key, p) != NoFault
    ensures LogIs(Reconciled(w, key, p).world, key, ErrorsAfter(w.servers[key].status.errors, FaultOf(w, key, p), p))
  {
    if PassesSet(w, key, p) {
      PassingLogs(w, key, p);
    } else if ServiceStep(w, key, Loaded(w, key), p).ok {
      StepsLog(w, key, p);
    }
  }

  lemma FailedPassKeepsServer(w: World, key: ObjectKey, p: Plan)
    requires key in w.servers && Settable(w, key) && Reconciled(w, key, p).result == Error
    ensures key in Reconciled(w, key, p).world.servers
  {
    ServerGoesExactly(w, key, p);
    if LetsGo(w, key, p) { PassKeepsProtocol(w, key, p); }
  }

  /** Of a server that is there a pass ends with an error exactly if it has a fault; then the log gets one
      entry, naming the fault, exactly if the fault is not a silent one and the write lands; a pass without
      fault leaves the log alone. */
  lemma PassLogs(w: World, key: ObjectKey, p: Plan)
    requires key in w.servers
    ensures Reconciled(w, key, p).result == Error <==> FaultOf(w, key, p) != NoFault
    ensures Reconciled(w, key, p).result == Error ==> key in Reconciled(w, key, p).world.servers
    ensures LogIs(Reconciled(w, key, p).world, key, ErrorsAfter(w.servers[key].status.errors, FaultOf(w, key, p), p))
  {
    if !p.getServerFails && Settable(w, key) {
      SettledLogs(w, key, p);
      if Reconciled(w, key, p).result == Error {
        FailedPassKeepsServer(w, key, p);
      }
    }
  }

  /** The silent faults: the owner reference of the StatefulSet, and a List of the orphan cleanup. */
  lemma SilentExactly(w: World, key: ObjectKey, p: Plan)
    requires key in w.servers
    ensures FaultOf(w, key, p) == Silent <==>
            && Settable(w, key) && !p.getServerFails && !p.ownServiceFails && !p.getServiceFails && !p.writeServiceFails
            && (p.ownSetFails
                || (&& PassesSet(w, key, p) && !w.servers[key].deleting
                    && w.servers[key].spec.persistence.volumeReclaimPolicy == DELETE
                    && (SEATA_FINALIZER in w.servers[key].finalizers || !p.writeServerFails)
                    && OrphanListFails(w, key, p)))
  {
  }

  /** Silent failures: with the write of an entry sure to land, the pass fails and the log is as before. */
  lemma SilentFailures(w: World, key: ObjectKey, p: Plan, q: Plan)
    requires Settable(w, key) && !w.servers[key].deleting && key in w.sets
    requires Smooth(p.(ownSetFails := false)) && p.ownSetFails && Smooth(q.(firstListFails := false)) && q.firstListFails
    requires w.servers[key].spec.persistence.volumeReclaimPolicy == DELETE
    requires w.sets[key].readyReplicas == w.servers[key].spec.replicas
    ensures Reconciled(w, key, p).result == Error && Reconciled(w, key, q).result == Error
    ensures LogIs(Reconciled(w, key, p).world, key, w.servers[key].status.errors)
    ensures LogIs(Reconciled(w, key, q).world, key, w.servers[key].status.errors)
  {
    PassLogs(w, key, p);
    PassLogs(w, key, q);
  }
}
