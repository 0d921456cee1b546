/** Runs of the whole system: passes of the reconciler on any server, with any calls failing,
    interleaved with what users and the StatefulSet controller do. */
module Runs {
  import opened Text
  import opened Utils
  import opened Api
  import opened Generators
  import opened Cluster
  import opened Pass
  import opened Credentials

  datatype Event =
    | PassRuns(key: ObjectKey, plan: Plan)
    | ServerCreated(key: ObjectKey, uid: string, spec: Spec)
    | SpecEdited(key: ObjectKey, spec: Spec)
    | DeletionRequested(key: ObjectKey)
    | FinalizersEdited(key: ObjectKey, finalizers: seq<string>)      // by anybody else
    | ReadyMoved(key: ObjectKey, pods: int, ready: int)
    | ClaimCreated(claim: Claim)
    | ClaimDeleted(key: ObjectKey)
    | ServiceChanged(key: ObjectKey, to: Option<Service>)
    | SetDeleted(key: ObjectKey)
    | StoreChanged(store: Store)

  const FRESH := Status(false, 0, 0, [])

  /** The event is about a stored server. */
  predicate OfServer(e: Event) {
    e.ServerCreated? || e.SpecEdited? || e.DeletionRequested? || e.FinalizersEdited?
  }

  /** A server being deleted takes no new finalizers. */
  predicate Acceptable(s: Server, finalizers: seq<string>) {
    s.deleting ==> forall f :: f in finalizers ==> f in s.finalizers
  }

  /** Somebody else's edit of this server's finalizers is accepted. */
  predicate EditTaken(w: World, e: Event, key: ObjectKey) {
    e.FinalizersEdited? && e.key == key && key in w.servers && Acceptable(w.servers[key], e.finalizers)
  }

  /** The stored servers after an event about one of them. */
  function ServersAfter(servers: map<ObjectKey, Server>, e: Event): map<ObjectKey, Server>
    requires OfServer(e)
  {
    match e
    case ServerCreated(key, uid, spec) =>
      if key in servers then servers else servers[key := Server(uid, false, [], spec, FRESH)]
    case SpecEdited(key, spec) =>
      if key !in servers then servers else servers[key := servers[key].(spec := spec)]
    case DeletionRequested(key) =>
      if key !in servers then servers else Stored(servers, key, servers[key].(deleting := true))
    case FinalizersEdited(key, finalizers) =>
      if key !in servers || !Acceptable(servers[key], finalizers) then servers
      else Stored(servers, key, servers[key].(finalizers := finalizers))
  }

  /** The cluster after something other than a pass; an event about an object that is not there changes nothing. */
  function Environment(w: World, e: Event): World
    requires !e.PassRuns?
  {
    if OfServer(e) then w.(servers := ServersAfter(w.servers, e))
    else
      match e
      case ReadyMoved(key, pods, ready) =>
        if key !in w.sets then w else w.(sets := w.sets[key := w.sets[key].(podReplicas := pods, readyReplicas := ready)])
      case ClaimCreated(claim) =>
        if exists c :: c in w.claims && c.key == claim.key then w else w.(claims := w.claims + [claim])
      case ClaimDeleted(key) => w.(claims := Without(w.claims, {key}))
      case ServiceChanged(key, to) =>
        w.(services := match to case None => w.services - {key} case Some(service) => w.services[key := service])
      case SetDeleted(key) => w.(sets := w.sets - {key})
      case StoreChanged(store) => w.(store := store)
  }

  /** The cluster after one event. */
  function After(w: World, e: Event): World {
    if e.PassRuns? then Reconciled(w, e.key, e.plan).world else Environment(w, e)
  }

  function Run(w: World, events: seq<Event>): World {
    if events == [] then w else After(Run(w, events[..|events| - 1]), events[|events| - 1])
  }

  // ---------------------------------------------------------------- what the parts of a pass leave alone

  /** The maps agree except perhaps at one key. */
  predicate SameElsewhere<T(==)>(a: map<ObjectKey, T>, b: map<ObjectKey, T>, key: ObjectKey) {
    && (forall k :: k in a && k != key ==> k in b && a[k] == b[k])
    && (forall k :: k in b && k != key ==> k in a)
  }

  /** Only the nodes of one server may have taken a new membership list. */
  predicate OnlyNodesOf(a: map<Pod, string>, b: map<Pod, string>, key: ObjectKey) {
    && (forall q :: q in a ==> q in b && (q.server != key ==> b[q] == a[q]))
    && (forall q :: q in b && q.server != key ==> q in a)
  }

  /** The clusters differ at most in the error log of one server. */
  predicate LogOnly(w: World, w': World, key: ObjectKey) {
    && w' == w.(servers := w'.servers) && w'.servers.Keys == w.servers.Keys && SameElsewhere(w.servers, w'.servers, key)
    && (key in w.servers ==> w'.servers[key] == w.servers[key].(status :=
          w.servers[key].status.(errors := w'.servers[key].status.errors)))
  }

  lemma RecordedFrame(w: World, key: ObjectKey, e: ServerError, record: seq<Attempt>)
    ensures LogOnly(w, Recorded(w, key, e, record), key)
  {
  }

  lemma ServiceStepFrame(w: World, key: ObjectKey, s: Server, p: Plan)
    ensures var r := ServiceStep(w, key, s, p);
            && r.server == s
            && (r.ok ==> r.world == w.(services := r.world.services)
                         && ObjectKey(key.namespace, s.spec.serviceName) in r.world.services
                         && r.world.services[ObjectKey(key.namespace, s.spec.serviceName)].ports == ServiceFor(key, s.spec).ports)
            && (!r.ok ==> LogOnly(w, r.world, key))
  {
  }

  lemma UpdateSetStepFrame(w: World, key: ObjectKey, s: Server, p: Plan)
    requires key in w.servers && key in w.sets
    ensures var r := UpdateSetStep(w, key, s, p);
            && r.world == w.(sets := r.world.sets, accepted := r.world.accepted, servers := r.world.servers)
            && SameElsewhere(w.sets, r.world.sets, key) && OnlyNodesOf(w.accepted, r.world.accepted, key)
            && key in r.world.servers && SameElsewhere(w.servers, r.world.servers, key)
            && r.world.servers[key] == w.servers[key].(status := r.world.servers[key].status)
            && (!r.ok ==> r.world.servers == w.servers)
            && (r.ok ==> r.server == r.world.servers[key])
  {
  }

  /** The StatefulSet step touches one StatefulSet, the nodes of one server and that server's status. */
  lemma SetStepFrame(w: World, key: ObjectKey, s: Server, p: Plan)
    requires key in w.servers
    ensures var r := SetStep(w, key, s, p);
            && r.world == w.(sets := r.world.sets, accepted := r.world.accepted, servers := r.world.servers)
            && SameElsewhere(w.sets, r.world.sets, key) && OnlyNodesOf(w.accepted, r.world.accepted, key)
            && key in r.world.servers && SameElsewhere(w.servers, r.world.servers, key)
            && r.world.servers[key] == w.servers[key].(status := r.world.servers[key].status)
  {
    if key in w.sets {
      UpdateSetStepFrame(w, key, s, p);
      RecordedFrame(UpdateSetStep(w, key, s, p).world, key, ServerError(SET_ERROR, "Failed to update StatefulSet"), p.record);
    }
  }

  /** The deleting part of the finalizer step touches claims only. */
  lemma OrphanStepFrame(w: World, key: ObjectKey, s: Server, p: Plan)
    ensures var r := OrphanStep(w, key, s, p);
            r.world == w.(claims := r.world.claims) && r.server == s
  {
  }

  /** The clusters differ at most in claims and in one server, whose status stays but for its log and whose
      spec is the stored one or the one the pass holds. */
  predicate OneServerAndClaims(w: World, w': World, key: ObjectKey, s: Server) {
    && w' == w.(claims := w'.claims, servers := w'.servers) && SameElsewhere(w.servers, w'.servers, key)
    && (key in w'.servers ==>
          && key in w.servers
          && w'.servers[key].status == w.servers[key].status.(errors := w'.servers[key].status.errors)
          && (w'.servers[key].spec == w.servers[key].spec || w'.servers[key].spec == s.spec))
  }

  lemma MarkStepFrame(w: World, key: ObjectKey, s: Server, p: Plan)
    requires key in w.servers
    ensures OneServerAndClaims(w, MarkStep(w, key, s, p).world, key, s)
  {
    if SEATA_FINALIZER in s.finalizers {
      OrphanStepFrame(w, key, s, p);
    } else if p.writeServerFails {
      RecordedFrame(w, key, FINALIZER_FAILED, p.record);
    } else {
      var r := ServerWritten(w, key, s.(finalizers := s.finalizers + [SEATA_FINALIZER]));
      OrphanStepFrame(r.world, key, r.server, p);
    }
  }

  lemma ReleaseStepFrame(w: World, key: ObjectKey, s: Server, p: Plan)
    requires key in w.servers
    ensures OneServerAndClaims(w, ReleaseStep(w, key, s, p).world, key, s)
  {
    if SEATA_FINALIZER !in s.finalizers {
    } else if p.firstListFails {
      RecordedFrame(w, key, ServerError(SERVER_ERROR, "Failed to delete resource SeataServer PVCs"), p.record);
    } else {
      var cleaned := w.(claims := ReleaseStep(w, key, s, p).world.claims);
      RecordedFrame(cleaned, key, FINALIZER_FAILED, p.record);
    }
  }

  /** The finalizer step never touches a StatefulSet, a Service or a node. */
  lemma FinalizerStepFrame(w: World, key: ObjectKey, s: Server, p: Plan)
    requires key in w.servers
    ensures OneServerAndClaims(w, FinalizerStep(w, key, s, p).world, key, s)
  {
    MarkStepFrame(w, key, s, p);
    ReleaseStepFrame(w, key, s, p);
  }

  /** The server is past defaulting. */
  predicate Settable(w: World, key: ObjectKey) {
    key in w.servers && !DefaultsPending(w.servers[key].spec)
  }

  /** The pass gets as far as writing the StatefulSet. */
  predicate WritesSet(w: World, key: ObjectKey, p: Plan) {
    && Settable(w, key) && !p.getServerFails
    && !p.ownServiceFails && !p.getServiceFails && !p.writeServiceFails
    && !p.ownSetFails && !p.getSetFails && !p.writeSetFails
  }

  /** And through its second step: if it updates the StatefulSet, the status is written too. */
  predicate PassesSet(w: World, key: ObjectKey, p: Plan) {
    WritesSet(w, key, p) && (key in w.sets ==> !p.writeStatusFails)
  }

  lemma PassesSetExactly(w: World, key: ObjectKey, p: Plan)
    requires !p.getServerFails && Settable(w, key)
    ensures var service := ServiceStep(w, key, Loaded(w, key), p);
            && key in service.world.servers
            && (service.ok && SetStep(service.world, key, Loaded(w, key), p).ok <==> PassesSet(w, key, p))
  {
    ServiceStepFrame(w, key, Loaded(w, key), p);
  }

  /** A pass whose first two steps succeed ends as its finalizer step does. */
  lemma LoadedOutcome(w: World, key: ObjectKey, p: Plan)
    requires !p.getServerFails && Settable(w, key)
    requires ServiceStep(w, key, Loaded(w, key), p).ok
    requires SetStep(ServiceStep(w, key, Loaded(w, key), p).world, key, Loaded(w, key), p).ok
    ensures var second := SetStep(ServiceStep(w, key, Loaded(w, key), p).world, key, Loaded(w, key), p);
            var o := Reconciled(w, key, p);
            && key in second.world.servers
            && o.world == FinalizerStep(second.world, key, second.server, p).world
            && (o.result == Error <==> !FinalizerStep(second.world, key, second.server, p).ok)
  {
    var service := ServiceStep(w, key, Loaded(w, key), p);
    ServiceStepFrame(w, key, Loaded(w, key), p);
    SetStepFrame(service.world, key, Loaded(w, key), p);
  }

  /** Of servers, sets and nodes only those of one key differ, and the secrets not at all. */
  predicate Elsewhere(w: World, w': World, key: ObjectKey) {
    && SameElsewhere(w.servers, w'.servers, key) && SameElsewhere(w.sets, w'.sets, key)
    && OnlyNodesOf(w.accepted, w'.accepted, key) && w'.store == w.store
  }

  lemma ElsewhereTwice(a: World, b: World, c: World, key: ObjectKey)
    requires Elsewhere(a, b, key) && Elsewhere(b, c, key)
    ensures Elsewhere(a, c, key)
  {
  }

  /** The first two steps, one after the other. */
  lemma StepsElsewhere(w: World, key: ObjectKey, s: Server, p: Plan)
    requires key in w.servers && ServiceStep(w, key, s, p).ok
    ensures var v := SetStep(ServiceStep(w, key, s, p).world, key, s, p).world;
            Elsewhere(w, v, key) && key in v.servers
  {
    ServiceStepFrame(w, key, s, p);
    SetStepFrame(ServiceStep(w, key, s, p).world, key, s, p);
  }

  lemma RecordedElsewhere(w: World, key: ObjectKey, e: ServerError, record: seq<Attempt>)
    ensures Elsewhere(w, Recorded(w, key, e, record), key)
  {
    RecordedFrame(w, key, e, record);
  }

  lemma UnsettledElsewhere(w: World, key: ObjectKey, p: Plan)
    requires p.getServerFails || !Settable(w, key)
    ensures Elsewhere(w, Reconciled(w, key, p).world, key)
  {
    if p.getServerFails {
      RecordedElsewhere(w, key, ServerError(SERVER_ERROR, "Failed to fetch SeataServer"), p.record);
    } else if key in w.servers && p.writeServerFails {
      RecordedElsewhere(w, key, ServerError(SERVER_ERROR, "Failed to update SeataServer with defaults"), p.record);
    }
  }

  lemma SettledElsewhere(w: World, key: ObjectKey, p: Plan)
    requires !p.getServerFails && Settable(w, key)
    ensures Elsewhere(w, Reconciled(w, key, p).world, key)
  {
    var s := Loaded(w, key);
    var service := ServiceStep(w, key, s, p);
    ServiceStepFrame(w, key, s, p);
    if service.ok {
      var second := SetStep(service.world, key, s, p);
      StepsElsewhere(w, key, s, p);
      if second.ok {
        FinalizerStepFrame(second.world, key, second.server, p);
        ElsewhereTwice(w, second.world, FinalizerStep(second.world, key, second.server, p).world, key);
        LoadedOutcome(w, key, p);
      }
    }
  }

  /** A pass touches no other server, no other StatefulSet, no other server's nodes, and no secret. */
  lemma PassElsewhere(w: World, key: ObjectKey, p: Plan)
    ensures Elsewhere(w, Reconciled(w, key, p).world, key)
  {
    if p.getServerFails || !Settable(w, key) {
      UnsettledElsewhere(w, key, p);
    } else {
      SettledElsewhere(w, key, p);
    }
  }
}
