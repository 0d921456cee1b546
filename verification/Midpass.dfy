/** Why a pass may be taken as one step of a run: what somebody else does between two of its steps might as
    well have been done before or after it. A write of a server that was changed meanwhile conflicts. */
module Midpass {
  import opened Text
  import opened Utils
  import opened Api
  import opened Generators
  import opened Cluster
  import opened Pass
  import opened Runs

  /** The event changes the stored server, and with it its version. */
  predicate Touches(w: World, e: Event, key: ObjectKey)
    requires !e.PassRuns?
  {
    key in w.servers && !(key in Environment(w, e).servers && Environment(w, e).servers[key] == w.servers[key])
  }

  /** The pass's own writes of the server fail, all of them or those of the third step. */
  function Conflicting(p: Plan): Plan {
    p.(writeServerFails := true, writeStatusFails := true)
  }

  function ConflictingLate(p: Plan): Plan {
    p.(writeServerFails := true)
  }

  // ---------------------------------------------------------------- passes with an event in between

  function Finish(v: World, key: ObjectKey, t: Server, p: Plan): Outcome
    requires key in v.servers || p.writeServerFails
  {
    var final := FinalizerStep(v, key, t, p);
    Outcome(final.world, if !final.ok then Error else if final.server.status.synchronized then Done else RequeueAfter)
  }

  /** The second and third step. */
  function Rest(v: World, key: ObjectKey, s: Server, p: Plan): Outcome
    requires key in v.servers || (p.writeStatusFails && p.writeServerFails)
  {
    var second := SetStep(v, key, s, p);
    if !second.ok then Outcome(second.world, Error)
    else Finish(second.world, key, second.server, p)
  }

  /** The pass comes to its second step, finding this cluster. */
  predicate ReachesSet(w: World, key: ObjectKey, p: Plan, v: World) {
    && Settable(w, key) && !p.getServerFails
    && ServiceStep(w, key, Loaded(w, key), p) == StepResult(v, Loaded(w, key), true) && key in v.servers
  }

  /** The pass comes to its third step, with this in hand. */
  predicate ReachesFinalizers(w: World, key: ObjectKey, p: Plan, v: World, r: StepResult) {
    ReachesSet(w, key, p, v) && r.ok && r == SetStep(v, key, Loaded(w, key), p) && key in r.world.servers
  }

  /** How a pass goes on from its second step when the event has fallen between its first and its second. */
  function EventThenRest(v: World, key: ObjectKey, s: Server, p: Plan, e: Event): Outcome
    requires key in v.servers && !e.PassRuns?
  {
    Rest(Environment(v, e), key, s, if Touches(v, e, key) then Conflicting(p) else p)
  }

  /** How it goes on from its third step when the event has fallen between its second and its third. */
  function EventThenFinish(r: StepResult, key: ObjectKey, p: Plan, e: Event): Outcome
    requires key in r.world.servers && !e.PassRuns?
  {
    Finish(Environment(r.world, e), key, r.server, if Touches(r.world, e, key) then ConflictingLate(p) else p)
  }

  /** The event falling behind the pass. */
  function Then(o: Outcome, e: Event): Outcome
    requires !e.PassRuns?
  {
    Outcome(Environment(o.world, e), o.result)
  }

  lemma PassIsRest(w: World, key: ObjectKey, p: Plan, v: World)
    requires ReachesSet(w, key, p, v)
    ensures Reconciled(w, key, p) == Rest(v, key, Loaded(w, key), p)
  {
  }

  lemma PassIsFinish(w: World, key: ObjectKey, p: Plan, v: World, r: StepResult)
    requires ReachesFinalizers(w, key, p, v, r)
    ensures Reconciled(w, key, p) == Finish(r.world, key, r.server, p)
  {
    PassIsRest(w, key, p, v);
  }

  // ---------------------------------------------------------------- what the steps do not look at

  lemma RecordedLooksAt(v: World, v': World, key: ObjectKey, e: ServerError, record: seq<Attempt>)
    requires v'.servers == v.servers
    ensures Recorded(v', key, e, record) == v'.(servers := Recorded(v, key, e, record).servers)
  {
  }

  /** The step does the same to servers, StatefulSets and nodes, and leaves the rest of each cluster as it is. */
  predicate SameSetEffect(v: World, r: StepResult, v': World, r': StepResult) {
    && r'.ok == r.ok && r'.server == r.server
    && r.world == v.(servers := r.world.servers, sets := r.world.sets, accepted := r.world.accepted)
    && r'.world == v'.(servers := r.world.servers, sets := r.world.sets, accepted := r.world.accepted)
  }

  lemma UpdateSetStepLooksAt(v: World, v': World, key: ObjectKey, s: Server, p: Plan)
    requires v'.servers == v.servers && v'.sets == v.sets && v'.accepted == v.accepted && v'.store == v.store
    requires key in v.sets && (key in v.servers || p.writeStatusFails)
    ensures SameSetEffect(v, UpdateSetStep(v, key, s, p), v', UpdateSetStep(v', key, s, p))
  {
  }

  /** The second step looks at servers, StatefulSets, nodes and secrets only. */
  lemma SetStepLooksAt(v: World, v': World, key: ObjectKey, s: Server, p: Plan)
    requires v'.servers == v.servers && v'.sets == v.sets && v'.accepted == v.accepted && v'.store == v.store
    requires key in v.servers || p.writeStatusFails
    ensures SameSetEffect(v, SetStep(v, key, s, p), v', SetStep(v', key, s, p))
  {
    RecordedLooksAt(v, v', key, ServerError(SET_ERROR, "Failed to get StatefulSet"), p.record);
    RecordedLooksAt(v, v', key, ServerError(SET_ERROR, "Failed to create StatefulSet"), p.record);
    if key in v.sets {
      UpdateSetStepLooksAt(v, v', key, s, p);
      RecordedLooksAt(UpdateSetStep(v, key, s, p).world, UpdateSetStep(v', key, s, p).world, key,
                      ServerError(SET_ERROR, "Failed to update StatefulSet"), p.record);
    }
  }

  /** The step does the same to servers and claims, and leaves the rest of each cluster as it is. */
  predicate SameFinalEffect(v: World, r: StepResult, v': World, r': StepResult) {
    && r'.ok == r.ok && r'.server == r.server
    && r.world == v.(servers := r.world.servers, claims := r.world.claims)
    && r'.world == v'.(servers := r.world.servers, claims := r.world.claims)
  }

  lemma OrphanStepLooksAt(v: World, v': World, key: ObjectKey, t: Server, p: Plan)
    requires v'.claims == v.claims
    ensures var r := OrphanStep(v, key, t, p);
            r.world == v.(claims := r.world.claims) && OrphanStep(v', key, t, p) == r.(world := v'.(claims := r.world.claims))
  {
  }

  lemma ServerWrittenLooksAt(v: World, v': World, key: ObjectKey, t: Server)
    requires v'.servers == v.servers && key in v.servers
    ensures var r := ServerWritten(v, key, t);
            r.world == v.(servers := r.world.servers) && ServerWritten(v', key, t) == r.(world := v'.(servers := r.world.servers))
  {
  }

  lemma MarkStepLooksAt(v: World, v': World, key: ObjectKey, t: Server, p: Plan)
    requires v'.servers == v.servers && v'.claims == v.claims && (key in v.servers || p.writeServerFails)
    ensures SameFinalEffect(v, MarkStep(v, key, t, p), v', MarkStep(v', key, t, p))
  {
    if SEATA_FINALIZER in t.finalizers {
      OrphanStepLooksAt(v, v', key, t, p);
    } else if p.writeServerFails {
      RecordedLooksAt(v, v', key, FINALIZER_FAILED, p.record);
      RecordedLooksAt(v, v, key, FINALIZER_FAILED, p.record);
    } else {
      var marked := t.(finalizers := t.finalizers + [SEATA_FINALIZER]);
      ServerWrittenLooksAt(v, v', key, marked);
      var r, r' := ServerWritten(v, key, marked), ServerWritten(v', key, marked);
      OrphanStepLooksAt(r.world, r'.world, key, r.server, p);
    }
  }

  lemma ReleaseStepLooksAt(v: World, v': World, key: ObjectKey, t: Server, p: Plan)
    requires v'.servers == v.servers && v'.claims == v.claims && (key in v.servers || p.writeServerFails)
    ensures SameFinalEffect(v, ReleaseStep(v, key, t, p), v', ReleaseStep(v', key, t, p))
  {
    RecordedLooksAt(v, v', key, ServerError(SERVER_ERROR, "Failed to delete resource SeataServer PVCs"), p.record);
    var dead := Doomed(ClaimsOf(v, key, t), None, p.undeletable);
    RecordedLooksAt(v.(claims := Without(v.claims, dead)), v'.(claims := Without(v.claims, dead)), key, FINALIZER_FAILED, p.record);
  }

  /** The third step looks at servers and claims only. */
  lemma FinalizerStepLooksAt(v: World, v': World, key: ObjectKey, t: Server, p: Plan)
    requires v'.servers == v.servers && v'.claims == v.claims && (key in v.servers || p.writeServerFails)
    ensures SameFinalEffect(v, FinalizerStep(v, key, t, p), v', FinalizerStep(v', key, t, p))
  {
    MarkStepLooksAt(v, v', key, t, p);
    ReleaseStepLooksAt(v, v', key, t, p);
  }

  // ---------------------------------------------------------------- between the first and the second step

  lemma ServicesApart(w: World, e: Event, services: map<ObjectKey, Service>)
    requires !e.PassRuns? && !e.ServiceChanged?
    ensures Environment(w.(services := services), e) == Environment(w, e).(services := services)
    ensures Environment(w, e).services == w.services
  {
  }

  /** The first step after such an event is the event after the first step. */
  lemma FirstStepAfterEvent(w: World, key: ObjectKey, p: Plan, v: World, e: Event)
    requires ReachesSet(w, key, p, v) && !e.PassRuns? && !e.ServiceChanged? && !Touches(v, e, key)
    ensures ReachesSet(Environment(w, e), key, p, Environment(v, e)) && Loaded(Environment(w, e), key) == Loaded(w, key)
  {
    ServicesApart(w, e, v.services);
    assert v == w.(services := v.services);
  }

  /** An event that touches neither Services nor this server is moved ahead of the pass. */
  lemma EventAheadOfSet(w: World, key: ObjectKey, p: Plan, v: World, e: Event)
    requires ReachesSet(w, key, p, v) && !e.PassRuns? && !e.ServiceChanged? && !Touches(v, e, key)
    ensures EventThenRest(v, key, Loaded(w, key), p, e) == Reconciled(Environment(w, e), key, p)
  {
    FirstStepAfterEvent(w, key, p, v, e);
    PassIsRest(Environment(w, e), key, p, Environment(v, e));
  }

  /** A change of a Service is moved behind it. */
  lemma ServiceChangeBehindSet(w: World, key: ObjectKey, p: Plan, v: World, e: Event)
    requires ReachesSet(w, key, p, v) && e.ServiceChanged?
    ensures EventThenRest(v, key, Loaded(w, key), p, e) == Then(Reconciled(w, key, p), e)
  {
    PassIsRest(w, key, p, v);
    var v' := Environment(v, e);
    SetStepLooksAt(v, v', key, Loaded(w, key), p);
    var r, r' := SetStep(v, key, Loaded(w, key), p), SetStep(v', key, Loaded(w, key), p);
    if r.ok {
      FinalizerStepLooksAt(r.world, r'.world, key, r.server, p);
    }
  }

  // ---------------------------------------------------------------- this server changed meanwhile

  lemma EntryThenEvent(m: map<ObjectKey, Server>, e: Event, key: ObjectKey, errors: seq<ServerError>)
    requires OfServer(e) && e.key == key && key in m
    ensures var n := m[key := m[key].(status := m[key].status.(errors := errors))];
            ServersAfter(n, e) == if key !in ServersAfter(m, e) then ServersAfter(m, e)
                                  else var s := ServersAfter(m, e)[key];
                                       ServersAfter(m, e)[key := s.(status := s.status.(errors := errors))]
    ensures key in ServersAfter(m, e) ==> ServersAfter(m, e)[key].status == m[key].status
  {
  }

  /** An entry in the error log and a change of the server do not get in each other's way. */
  lemma RecordedThenEvent(v: World, e: Event, key: ObjectKey, error: ServerError, record: seq<Attempt>)
    requires OfServer(e) && e.key == key && key in v.servers
    ensures Recorded(Environment(v, e), key, error, record) == Environment(Recorded(v, key, error, record), e)
  {
    EntryThenEvent(v.servers, e, key, Logged(v.servers[key].status.errors, error));
  }

  lemma UpdateSetStepThenEvent(v: World, key: ObjectKey, s: Server, p: Plan, e: Event)
    requires key in v.servers && key in v.sets && p.writeStatusFails && OfServer(e)
    ensures var r := UpdateSetStep(v, key, s, p);
            r.world.servers == v.servers && UpdateSetStep(Environment(v, e), key, s, p) == r.(world := Environment(r.world, e))
  {
  }

  lemma SetStepThenEvent(v: World, key: ObjectKey, s: Server, p: Plan, e: Event)
    requires key in v.servers && p.writeStatusFails && OfServer(e) && e.key == key
    ensures var r := SetStep(v, key, s, p);
            SetStep(Environment(v, e), key, s, p) == r.(world := Environment(r.world, e))
  {
    if key in v.sets && !p.ownSetFails && !p.getSetFails {
      UpdateSetStepThenEvent(v, key, s, p, e);
      RecordedThenEvent(UpdateSetStep(v, key, s, p).world, e, key, ServerError(SET_ERROR, "Failed to update StatefulSet"), p.record);
    } else {
      RecordedThenEvent(v, e, key, ServerError(SET_ERROR, "Failed to get StatefulSet"), p.record);
      RecordedThenEvent(v, e, key, ServerError(SET_ERROR, "Failed to create StatefulSet"), p.record);
    }
  }

  lemma MarkStepThenEvent(v: World, key: ObjectKey, t: Server, p: Plan, e: Event)
    requires key in v.servers && p.writeServerFails && OfServer(e) && e.key == key
    ensures var r := MarkStep(v, key, t, p);
            MarkStep(Environment(v, e), key, t, p) == r.(world := Environment(r.world, e))
  {
    OrphanStepLooksAt(v, Environment(v, e), key, t, p);
    RecordedThenEvent(v, e, key, FINALIZER_FAILED, p.record);
  }

  lemma ReleaseStepThenEvent(v: World, key: ObjectKey, t: Server, p: Plan, e: Event)
    requires key in v.servers && p.writeServerFails && OfServer(e) && e.key == key
    ensures var r := ReleaseStep(v, key, t, p);
            ReleaseStep(Environment(v, e), key, t, p) == r.(world := Environment(r.world, e))
  {
    RecordedThenEvent(v, e, key, ServerError(SERVER_ERROR, "Failed to delete resource SeataServer PVCs"), p.record);
    var cleaned := v.(claims := Without(v.claims, Doomed(ClaimsOf(v, key, t), None, p.undeletable)));
    RecordedThenEvent(cleaned, e, key, FINALIZER_FAILED, p.record);
  }

  lemma FinalizerStepThenEvent(v: World, key: ObjectKey, t: Server, p: Plan, e: Event)
    requires key in v.servers && p.writeServerFails && OfServer(e) && e.key == key
    ensures var r := FinalizerStep(v, key, t, p);
            FinalizerStep(Environment(v, e), key, t, p) == r.(world := Environment(r.world, e))
  {
    if t.deleting {
      ReleaseStepThenEvent(v, key, t, p, e);
    } else {
      MarkStepThenEvent(v, key, t, p, e);
    }
  }

  lemma RestThenEvent(v: World, key: ObjectKey, s: Server, p: Plan, e: Event)
    requires key in v.servers && p.writeStatusFails && p.writeServerFails && OfServer(e) && e.key == key
    ensures Rest(Environment(v, e), key, s, p) == Then(Rest(v, key, s, p), e)
  {
    SetStepThenEvent(v, key, s, p, e);
    SetStepFrame(v, key, s, p);
    var second := SetStep(v, key, s, p);
    if second.ok {
      FinalizerStepThenEvent(second.world, key, second.server, p, e);
    }
  }

  lemma TouchingEvent(w: World, e: Event, key: ObjectKey)
    requires !e.PassRuns? && Touches(w, e, key)
    ensures OfServer(e) && e.key == key
  {
  }

  lemma ConflictsComeLater(w: World, key: ObjectKey, p: Plan, v: World)
    requires ReachesSet(w, key, p, v)
    ensures ReachesSet(w, key, Conflicting(p), v) && ReachesSet(w, key, ConflictingLate(p), v)
  {
  }

  /** A change of the server itself is moved behind the pass, whose later writes of the server fail. */
  lemma EditBehindSet(w: World, key: ObjectKey, p: Plan, v: World, e: Event)
    requires ReachesSet(w, key, p, v) && !e.PassRuns? && Touches(v, e, key)
    ensures EventThenRest(v, key, Loaded(w, key), p, e) == Then(Reconciled(w, key, Conflicting(p)), e)
  {
    ConflictsComeLater(w, key, p, v);
    PassIsRest(w, key, Conflicting(p), v);
    TouchingEvent(v, e, key);
    RestThenEvent(v, key, Loaded(w, key), Conflicting(p), e);
  }

  // ---------------------------------------------------------------- between the second and the third step

  /** The third step neither looks at nor touches what such an event changes. */
  lemma FinishThenEvent(v: World, key: ObjectKey, t: Server, p: Plan, e: Event)
    requires key in v.servers && (e.ReadyMoved? || e.SetDeleted? || e.StoreChanged? || e.ServiceChanged?)
    ensures Finish(Environment(v, e), key, t, p) == Then(Finish(v, key, t, p), e)
  {
    FinalizerStepLooksAt(v, Environment(v, e), key, t, p);
  }

  lemma NotTouching(w: World, e: Event, key: ObjectKey)
    requires !e.PassRuns? && !OfServer(e)
    ensures !Touches(w, e, key) && Environment(w, e).servers == w.servers
  {
  }

  /** An event on StatefulSets, secrets or Services is moved behind the pass. */
  lemma EventBehindFinalizers(w: World, key: ObjectKey, p: Plan, v: World, r: StepResult, e: Event)
    requires ReachesFinalizers(w, key, p, v, r) && (e.ReadyMoved? || e.SetDeleted? || e.StoreChanged? || e.ServiceChanged?)
    ensures EventThenFinish(r, key, p, e) == Then(Reconciled(w, key, p), e)
  {
    PassIsFinish(w, key, p, v, r);
    NotTouching(r.world, e, key);
    FinishThenEvent(r.world, key, r.server, p, e);
  }

  lemma LateConflictComesLater(v: World, key: ObjectKey, s: Server, p: Plan)
    requires key in v.servers
    ensures SetStep(v, key, s, ConflictingLate(p)) == SetStep(v, key, s, p)
  {
  }

  /** A change of the server itself likewise, the pass's last write of the server failing. */
  lemma EditBehindFinalizers(w: World, key: ObjectKey, p: Plan, v: World, r: StepResult, e: Event)
    requires ReachesFinalizers(w, key, p, v, r) && !e.PassRuns? && Touches(r.world, e, key)
    ensures EventThenFinish(r, key, p, e) == Then(Reconciled(w, key, ConflictingLate(p)), e)
  {
    ConflictsComeLater(w, key, p, v);
    LateConflictComesLater(v, key, Loaded(w, key), p);
    PassIsFinish(w, key, ConflictingLate(p), v, r);
    TouchingEvent(r.world, e, key);
    FinalizerStepThenEvent(r.world, key, r.server, ConflictingLate(p), e);
  }

  lemma UpdatesCommute(m: map<ObjectKey, Server>, a: ObjectKey, x: Server, b: ObjectKey, y: Server)
    requires a != b
    ensures m[a := x][b := y] == m[b := y][a := x]
    ensures m[a := x] - {b} == (m - {b})[a := x]
  {
  }

  /** An event on another server does not care what happens to this one. */
  lemma ServerEventElsewhere(m: map<ObjectKey, Server>, e: Event, key: ObjectKey, s: Server)
    requires OfServer(e) && key in m && e.key != key
    ensures key in ServersAfter(m, e) && ServersAfter(m, e)[key] == m[key]
    ensures ServersAfter(m[key := s], e) == ServersAfter(m, e)[key := s]
  {
    if e.key in m {
      var t := m[e.key];
      UpdatesCommute(m, key, s, e.key, match e
        case SpecEdited(_, spec) => t.(spec := spec)
        case DeletionRequested(_) => t.(deleting := true)
        case FinalizersEdited(_, finalizers) => t.(finalizers := finalizers)
        case _ => t);
    } else if e.ServerCreated? {
      UpdatesCommute(m, key, s, e.key, Server(e.uid, false, [], e.spec, FRESH));
    }
  }

  /** An event on this server that leaves it as it is does so whatever its status. */
  lemma IdleServerEvent(m: map<ObjectKey, Server>, e: Event, key: ObjectKey, status: Status)
    requires OfServer(e) && key in m && e.key == key
    requires var n := m[key := m[key].(status := status)]; key in ServersAfter(n, e) && ServersAfter(n, e)[key] == n[key]
    ensures var n := m[key := m[key].(status := status)]; ServersAfter(n, e) == n
    ensures ServersAfter(m, e) == m
  {
  }

  /** The second step writes this server's status at most. */
  lemma StatusAfterEvent(m: map<ObjectKey, Server>, e: Event, key: ObjectKey, status: Status)
    requires OfServer(e) && key in m
    requires var n := m[key := m[key].(status := status)]; key in ServersAfter(n, e) && ServersAfter(n, e)[key] == n[key]
    ensures key in ServersAfter(m, e) && ServersAfter(m, e)[key] == m[key]
    ensures var n := m[key := m[key].(status := status)];
            ServersAfter(n, e) == ServersAfter(m, e)[key := ServersAfter(m, e)[key].(status := status)]
  {
    if e.key == key {
      IdleServerEvent(m, e, key, status);
    } else {
      ServerEventElsewhere(m, e, key, m[key].(status := status));
    }
  }

  lemma UpdateSetAfterEvent(v: World, key: ObjectKey, s: Server, p: Plan, e: Event)
    requires key in v.servers && key in v.sets && UpdateSetStep(v, key, s, p).ok && OfServer(e)
    requires !Touches(UpdateSetStep(v, key, s, p).world, e, key)
    ensures var r := UpdateSetStep(v, key, s, p);
            !Touches(v, e, key) && key in Environment(v, e).servers
            && UpdateSetStep(Environment(v, e), key, s, p) == r.(world := Environment(r.world, e))
  {
    StatusAfterEvent(v.servers, e, key, UpdateSetStep(v, key, s, p).server.status);
  }

  lemma CreatedSetAfterEvent(v: World, key: ObjectKey, s: Server, p: Plan, e: Event)
    requires key in v.servers && key !in v.sets && SetStep(v, key, s, p).ok && OfServer(e) && !Touches(v, e, key)
    ensures var r := SetStep(v, key, s, p);
            key in Environment(v, e).servers && SetStep(Environment(v, e), key, s, p) == r.(world := Environment(r.world, e))
  {
  }

  lemma SetAfterServerEvent(v: World, key: ObjectKey, s: Server, p: Plan, e: Event)
    requires key in v.servers && SetStep(v, key, s, p).ok && OfServer(e) && !Touches(SetStep(v, key, s, p).world, e, key)
    ensures var r := SetStep(v, key, s, p);
            !Touches(v, e, key) && key in Environment(v, e).servers
            && SetStep(Environment(v, e), key, s, p) == r.(world := Environment(r.world, e))
  {
    if key in v.sets {
      UpdateSetAfterEvent(v, key, s, p, e);
    } else {
      CreatedSetAfterEvent(v, key, s, p, e);
    }
  }

  lemma SetAfterClaimEvent(v: World, key: ObjectKey, s: Server, p: Plan, e: Event)
    requires key in v.servers && (e.ClaimCreated? || e.ClaimDeleted?)
    ensures var r := SetStep(v, key, s, p);
            SetStep(Environment(v, e), key, s, p) == r.(world := Environment(r.world, e))
  {
    SetStepLooksAt(v, Environment(v, e), key, s, p);
  }

  /** An event on claims, or on servers but not touching this one, is moved ahead of the pass. */
  lemma EventAheadOfFinalizers(w: World, key: ObjectKey, p: Plan, v: World, r: StepResult, e: Event)
    requires ReachesFinalizers(w, key, p, v, r) && (e.ClaimCreated? || e.ClaimDeleted? || OfServer(e)) && !Touches(r.world, e, key)
    ensures EventThenFinish(r, key, p, e) == Reconciled(Environment(w, e), key, p)
  {
    if OfServer(e) {
      SetAfterServerEvent(v, key, Loaded(w, key), p, e);
    } else {
      SetAfterClaimEvent(v, key, Loaded(w, key), p, e);
    }
    FirstStepAfterEvent(w, key, p, v, e);
    PassIsFinish(Environment(w, e), key, p, Environment(v, e), r.(world := Environment(r.world, e)));
  }

  // ---------------------------------------------------------------- either way it is a run

  /** The pass and the event as the two events of a run, one way round or the other. */
  function EitherWay(key: ObjectKey, q: Plan, e: Event, ahead: bool): seq<Event> {
    if ahead then [e, PassRuns(key, q)] else [PassRuns(key, q), e]
  }

  lemma RunEitherWay(w: World, key: ObjectKey, q: Plan, e: Event, ahead: bool)
    requires !e.PassRuns?
    ensures Run(w, EitherWay(key, q, e, ahead)) ==
            if ahead then Reconciled(Environment(w, e), key, q).world else Environment(Reconciled(w, key, q).world, e)
  {
    var two := EitherWay(key, q, e, ahead);
    assert two[..1] == [two[0]] && two[..1][..0] == [];
    assert Run(w, two[..1]) == After(Run(w, []), two[0]);
  }

  /** Whatever happens between the first and the second step of a pass, the cluster ends as after a run in
      which it happened before or after the pass, of whose later writes of the server some may have failed. */
  lemma EventBeforeSetIsARun(w: World, key: ObjectKey, p: Plan, v: World, e: Event) returns (q: Plan, ahead: bool)
    requires ReachesSet(w, key, p, v) && !e.PassRuns?
    ensures EventThenRest(v, key, Loaded(w, key), p, e).world == Run(w, EitherWay(key, q, e, ahead))
    ensures q == p || (q == Conflicting(p) && !ahead && OfServer(e) && e.key == key)
  {
    q, ahead := p, false;
    if e.ServiceChanged? {
      ServiceChangeBehindSet(w, key, p, v, e);
    } else if Touches(v, e, key) {
      q := Conflicting(p);
      TouchingEvent(v, e, key);
      EditBehindSet(w, key, p, v, e);
    } else {
      ahead := true;
      EventAheadOfSet(w, key, p, v, e);
    }
    RunEitherWay(w, key, q, e, ahead);
  }

  /** Likewise between the second and the third step. */
  lemma EventBeforeFinalizersIsARun(w: World, key: ObjectKey, p: Plan, v: World, r: StepResult, e: Event) returns (q: Plan, ahead: bool)
    requires ReachesFinalizers(w, key, p, v, r) && !e.PassRuns?
    ensures EventThenFinish(r, key, p, e).world == Run(w, EitherWay(key, q, e, ahead))
    ensures q == p || (q == ConflictingLate(p) && !ahead && OfServer(e) && e.key == key)
  {
    q, ahead := p, false;
    if e.ReadyMoved? || e.SetDeleted? || e.StoreChanged? || e.ServiceChanged? {
      EventBehindFinalizers(w, key, p, v, r, e);
    } else if Touches(r.world, e, key) {
      q := ConflictingLate(p);
      TouchingEvent(r.world, e, key);
      EditBehindFinalizers(w, key, p, v, r, e);
    } else {
      ahead := true;
      EventAheadOfFinalizers(w, key, p, v, r, e);
    }
    RunEitherWay(w, key, q, e, ahead);
  }
}
