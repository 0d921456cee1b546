/** Whether status.synchronized tells the truth about the raft cluster, over runs. */
module Truth {
  import opened Text
  import opened Utils
  import opened Api
  import opened Generators
  import opened Cluster
  import opened Pass
  import opened Runs
  import opened Settling
  import opened FinalizerProtocol

  /** Nodes 0..n-1 of the server all hold this membership list. */
  predicate NodesHold(accepted: map<Pod, string>, key: ObjectKey, n: int, list: string) {
    forall i :: 0 <= i < n ==> Pod(key, i) in accepted && accepted[Pod(key, i)] == list
  }

  /** The list the raft nodes should hold while the StatefulSet has n replicas. */
  function ListOf(key: ObjectKey, s: Spec, n: int): string {
    MemberList(key.name, n, Defaulted(s).serviceName, Defaulted(s).ports.raftPort)
  }

  /** If the stored flag says synchronized, then the StatefulSet is there with all its replicas ready, and
      every node of it last accepted exactly the membership list of that size. */
  predicate Truthful(w: World, key: ObjectKey) {
    key in w.servers && w.servers[key].status.synchronized ==>
      && key in w.sets && w.sets[key].readyReplicas == w.sets[key].replicas
      && NodesHold(w.accepted, key, w.sets[key].replicas, ListOf(key, w.servers[key].spec, w.sets[key].replicas))
  }

  /** The hypotheses, as conditions on each event: a pass that wrote the StatefulSet gets its status
      written; service name and raft port stay; the ready count never leaves the replica count once it
      is reached; nobody else deletes the StatefulSet. */
  predicate Orderly(w: World, e: Event, key: ObjectKey) {
    match e
    case PassRuns(k, p) => k == key && p.writeStatusFails ==> p.writeSetFails
    case SpecEdited(k, spec) =>
      k == key && key in w.servers ==>
        && Defaulted(spec).serviceName == Defaulted(w.servers[key].spec).serviceName
        && Defaulted(spec).ports.raftPort == Defaulted(w.servers[key].spec).ports.raftPort
    case ReadyMoved(k, pods, ready) =>
      k == key && key in w.sets && w.sets[key].readyReplicas == w.sets[key].replicas ==> ready == w.sets[key].replicas
    case SetDeleted(k) => k != key
    case _ => true
  }

  // ---------------------------------------------------------------- what a pass does to what the flag speaks about

  /** What the flag is about: itself, the StatefulSet and the lists the nodes hold. */
  datatype Matter = Matter(synchronized: bool, stored: Option<StoredSet>, accepted: map<Pod, string>)

  function MatterOf(w: World, key: ObjectKey): Matter
    requires key in w.servers
  {
    Matter(w.servers[key].status.synchronized, if key in w.sets then Some(w.sets[key]) else None, w.accepted)
  }

  /** The second step: nothing if it does not come to the write; a new StatefulSet and the old flag; or the
      updated StatefulSet, the push if due, and the new flag if the status write succeeds. */
  function SetMatter(w: World, key: ObjectKey, s: Server, p: Plan): Matter
    requires key in w.servers
  {
    var flag := w.servers[key].status.synchronized;
    if p.ownSetFails || p.getSetFails || p.writeSetFails then MatterOf(w, key)
    else if key !in w.sets then Matter(flag, Some(SetFor(key, s.uid, s.spec)), w.accepted)
    else
      Matter(if p.writeStatusFails then flag else ObservedStatus(w.sets[key], s, PushGranted(w, key, s.spec, p)).synchronized,
             Some(UpdatedSet(w.sets[key], key, s.spec)),
             if PushDue(w.sets[key], s) then Pushed(w, key, s.spec, p).accepted else w.accepted)
  }

  function MatterAfter(w: World, key: ObjectKey, p: Plan): Matter
    requires key in w.servers
  {
    if WritesSet(w, key, p) then SetMatter(w, key, Loaded(w, key), p) else MatterOf(w, key)
  }

  lemma RecordedMatter(v: World, key: ObjectKey, e: ServerError, record: seq<Attempt>)
    requires key in v.servers
    ensures var r := Recorded(v, key, e, record);
            key in r.servers && MatterOf(r, key) == MatterOf(v, key) && r.servers[key].spec == v.servers[key].spec
  {
  }

  lemma UpdateSetStepMatter(w: World, key: ObjectKey, s: Server, p: Plan)
    requires key in w.servers && key in w.sets && !p.ownSetFails && !p.getSetFails
    ensures var r := UpdateSetStep(w, key, s, p).world;
            key in r.servers && MatterOf(r, key) == SetMatter(w, key, s, p) && r.servers[key].spec == w.servers[key].spec
  {
  }

  lemma SetStepMatter(w: World, key: ObjectKey, s: Server, p: Plan)
    requires key in w.servers
    ensures var r := SetStep(w, key, s, p).world;
            key in r.servers && MatterOf(r, key) == SetMatter(w, key, s, p) && r.servers[key].spec == w.servers[key].spec
  {
    if key in w.sets && !p.ownSetFails && !p.getSetFails {
      UpdateSetStepMatter(w, key, s, p);
      RecordedMatter(UpdateSetStep(w, key, s, p).world, key, ServerError(SET_ERROR, "Failed to update StatefulSet"), p.record);
    } else {
      RecordedMatter(w, key, ServerError(SET_ERROR, "Failed to get StatefulSet"), p.record);
      RecordedMatter(w, key, ServerError(SET_ERROR, "Failed to create StatefulSet"), p.record);
    }
  }

  /** What the second step hands on. */
  lemma SetStepDelivers(w: World, key: ObjectKey, p: Plan)
    requires key in w.servers && SetStep(w, key, Loaded(w, key), p).ok
    ensures var r := SetStep(w, key, Loaded(w, key), p);
            && key in r.world.servers && r.server.status == r.world.servers[key].status
            && r.world.servers[key].spec == w.servers[key].spec && r.server.deleting == w.servers[key].deleting
            && (r.server.spec == w.servers[key].spec || r.server.spec == Defaulted(w.servers[key].spec))
    ensures !p.ownSetFails && !p.getSetFails && !p.writeSetFails && (key in w.sets ==> !p.writeStatusFails)
  {
  }

  /** What the membership list is printed from, once defaulted, is the same. */
  predicate SameAddresses(a: Spec, b: Spec) {
    a.replicas == b.replicas && Defaulted(a).serviceName == Defaulted(b).serviceName && Defaulted(a).ports == Defaulted(b).ports
  }

  lemma FinalizerStepMatter(w: World, key: ObjectKey, t: Server, p: Plan)
    requires key in w.servers && key in FinalizerStep(w, key, t, p).world.servers
    requires t.spec == w.servers[key].spec || t.spec == Defaulted(w.servers[key].spec)
    ensures var r := FinalizerStep(w, key, t, p).world;
            MatterOf(r, key) == MatterOf(w, key) && SameAddresses(r.servers[key].spec, w.servers[key].spec)
  {
    FinalizerStepFrame(w, key, t, p);
    DefaultedIsFixedPoint(w.servers[key].spec);
  }

  lemma UnsettledMatter(w: World, key: ObjectKey, p: Plan)
    requires key in w.servers && (p.getServerFails || !Settable(w, key)) && key in Reconciled(w, key, p).world.servers
    ensures var w' := Reconciled(w, key, p).world;
            MatterOf(w', key) == MatterOf(w, key) && SameAddresses(w'.servers[key].spec, w.servers[key].spec)
  {
    RecordedFrame(w, key, ServerError(SERVER_ERROR, "Failed to fetch SeataServer"), p.record);
    RecordedFrame(w, key, ServerError(SERVER_ERROR, "Failed to update SeataServer with defaults"), p.record);
    DefaultedIsFixedPoint(w.servers[key].spec);
  }

  lemma PassingMatter(w: World, key: ObjectKey, p: Plan)
    requires PassesSet(w, key, p) && key in Reconciled(w, key, p).world.servers
    ensures var w' := Reconciled(w, key, p).world;
            MatterOf(w', key) == MatterAfter(w, key, p) && SameAddresses(w'.servers[key].spec, w.servers[key].spec)
  {
    var s := Loaded(w, key);
    var v := ServiceStep(w, key, s, p).world;
    PassesSetExactly(w, key, p);
    ServiceStepFrame(w, key, s, p);
    var second := SetStep(v, key, s, p);
    SetStepMatter(v, key, s, p);
    SetStepDelivers(v, key, p);
    LoadedOutcome(w, key, p);
    FinalizerStepMatter(second.world, key, second.server, p);
  }

  lemma StoppedMatter(w: World, key: ObjectKey, p: Plan)
    requires !p.getServerFails && Settable(w, key) && !PassesSet(w, key, p) && key in Reconciled(w, key, p).world.servers
    ensures var w' := Reconciled(w, key, p).world;
            MatterOf(w', key) == MatterAfter(w, key, p) && SameAddresses(w'.servers[key].spec, w.servers[key].spec)
  {
    var s := Loaded(w, key);
    PassesSetExactly(w, key, p);
    ServiceStepFrame(w, key, s, p);
    SetStepMatter(ServiceStep(w, key, s, p).world, key, s, p);
  }

  /** Whatever fails, a pass does to flag, StatefulSet and nodes exactly this. */
  lemma PassMatter(w: World, key: ObjectKey, p: Plan)
    requires key in w.servers && key in Reconciled(w, key, p).world.servers
    ensures var w' := Reconciled(w, key, p).world;
            MatterOf(w', key) == MatterAfter(w, key, p) && SameAddresses(w'.servers[key].spec, w.servers[key].spec)
  {
    if p.getServerFails || !Settable(w, key) {
      UnsettledMatter(w, key, p);
    } else if PassesSet(w, key, p) {
      PassingMatter(w, key, p);
    } else {
      StoppedMatter(w, key, p);
    }
  }

  lemma LiveServerStays(w: World, key: ObjectKey, p: Plan)
    requires key in w.servers && !w.servers[key].deleting
    ensures key in Reconciled(w, key, p).world.servers && !Reconciled(w, key, p).world.servers[key].deleting
  {
    PassKeepsProtocol(w, key, p);
  }

  lemma FinalizerStepStatus(w: World, key: ObjectKey, s: Server, p: Plan)
    requires key in w.servers && w.servers[key].status == s.status
    ensures FinalizerStep(w, key, s, p).server.status == s.status
  {
  }

  /** What the end of a pass tells: without error and past defaulting the StatefulSet was written, and
      with it the status if it was there before; and no further pass is asked for exactly if the flag is set. */
  lemma ResultTells(w: World, key: ObjectKey, p: Plan)
    requires key in w.servers && Reconciled(w, key, p).result in {Done, RequeueAfter}
    ensures PassesSet(w, key, p)
    ensures Reconciled(w, key, p).result == Done <==> MatterAfter(w, key, p).synchronized
  {
    var s := Loaded(w, key);
    var service := ServiceStep(w, key, s, p);
    ServiceStepFrame(w, key, s, p);
    var second := SetStep(service.world, key, s, p);
    SetStepDelivers(service.world, key, p);
    SetStepMatter(service.world, key, s, p);
    FinalizerStepStatus(second.world, key, second.server, p);
  }

  // ---------------------------------------------------------------- exactly when a pass leaves the flag truthful

  /** If the pass does not come to write the StatefulSet, the flag must have been truthful. If it creates
      the StatefulSet, the flag must not be set, unless no replica is asked for. If it updates it, a flag that is
      already set must be right about the new size: the nodes must hold its list where the ready count
      equals it, and where the status write fails the ready count must equal it. */
  predicate StaysTruthful(w: World, key: ObjectKey, p: Plan)
    requires key in w.servers
  {
    var spec := Defaulted(w.servers[key].spec);
    var flag := w.servers[key].status.synchronized;
    if !WritesSet(w, key, p) then Truthful(w, key)
    else if key !in w.sets then flag ==> spec.replicas == 0
    else
      && (flag && p.writeStatusFails ==> w.sets[key].readyReplicas == spec.replicas)
      && (flag && w.sets[key].readyReplicas == spec.replicas ==> NodesHold(w.accepted, key, spec.replicas, MemberListOf(key, spec)))
  }

  /** The nodes that granted the change now hold the list it asked for. */
  lemma PushHolds(w: World, key: ObjectKey, s: Spec, p: Plan)
    requires PushGranted(w, key, s, p)
    ensures NodesHold(Pushed(w, key, s, p).accepted, key, s.replicas, MemberListOf(key, s))
  {
  }

  lemma KeptServerTruthful(w: World, key: ObjectKey, p: Plan)
    requires key in w.servers && key in Reconciled(w, key, p).world.servers
    ensures Truthful(Reconciled(w, key, p).world, key) <==> StaysTruthful(w, key, p)
  {
    PassMatter(w, key, p);
    var s := Loaded(w, key);
    if key in w.sets && PushGranted(w, key, s.spec, p) {
      PushHolds(w, key, s.spec, p);
    }
  }

  /** Whatever fails in it, a pass leaves the flag truthful exactly under that condition, or by letting the
      server go. */
  lemma TruthfulAfterPassExactly(w: World, key: ObjectKey, p: Plan)
    ensures Truthful(Reconciled(w, key, p).world, key) <==>
            (key in w.servers && !LetsGo(w, key, p) ==> StaysTruthful(w, key, p))
  {
    if key in w.servers {
      ServerGoesExactly(w, key, p);
      if !LetsGo(w, key, p) {
        KeptServerTruthful(w, key, p);
      }
    }
  }

  /** So with StatefulSet and status written together, a pass keeps a truthful flag truthful. */
  lemma PassTruthful(w: World, key: ObjectKey, p: Plan)
    requires Truthful(w, key) && (p.writeStatusFails ==> p.writeSetFails)
    ensures Truthful(Reconciled(w, key, p).world, key)
  {
    TruthfulAfterPassExactly(w, key, p);
  }

  // ---------------------------------------------------------------- runs

  lemma OtherPassTruthful(w: World, other: ObjectKey, p: Plan, key: ObjectKey)
    requires Truthful(w, key) && other != key
    ensures Truthful(Reconciled(w, other, p).world, key)
  {
    PassElsewhere(w, other, p);
  }

  lemma ServerEventTruthful(w: World, e: Event, key: ObjectKey)
    requires OfServer(e) && Truthful(w, key) && Orderly(w, e, key)
    ensures Truthful(Environment(w, e), key)
  {
  }

  lemma EnvironmentTruthful(w: World, e: Event, key: ObjectKey)
    requires !e.PassRuns? && !OfServer(e) && Truthful(w, key) && Orderly(w, e, key)
    ensures Truthful(Environment(w, e), key)
  {
  }

  lemma EventTruthful(w: World, e: Event, key: ObjectKey)
    requires Truthful(w, key) && Orderly(w, e, key)
    ensures Truthful(After(w, e), key)
  {
    if e.PassRuns? {
      if e.key == key {
        PassTruthful(w, key, e.plan);
      } else {
        OtherPassTruthful(w, e.key, e.plan, key);
      }
    } else if OfServer(e) {
      ServerEventTruthful(w, e, key);
    } else {
      EnvironmentTruthful(w, e, key);
    }
  }

  /** Synchronized tells the truth over every orderly run: passes of all servers with any other calls
      failing, scaling edits, partial pushes, claims and credentials coming and going. */
  lemma {:induction false} TruthfulOverRuns(w: World, events: seq<Event>, key: ObjectKey)
    requires Truthful(w, key)
    requires forall n :: 0 <= n < |events| ==> Orderly(Run(w, events[..n]), events[n], key)
    ensures Truthful(Run(w, events), key)
  {
    if events != [] {
      var n := |events| - 1;
      forall m | 0 <= m < n ensures Orderly(Run(w, events[..n][..m]), events[..n][m], key) {
        assert events[..n][..m] == events[..m];
      }
      TruthfulOverRuns(w, events[..n], key);
      EventTruthful(Run(w, events[..n]), events[n], key);
    }
  }

  // ---------------------------------------------------------------- each hypothesis is needed

  /** A settled cluster: live, defaulted, synchronized and truthful, with unambiguous names. */
  predicate InStep(w: World, key: ObjectKey) {
    && Settable(w, key) && !w.servers[key].deleting && key in w.sets
    && w.servers[key].status.synchronized && Truthful(w, key)
    && w.sets[key].replicas == w.servers[key].spec.replicas >= 1
    && Free(key.name, ',') && Free(w.servers[key].spec.serviceName, ',') && Free(w.servers[key].spec.serviceName, '.')
    && IsInt32(w.servers[key].spec.ports.raftPort)
  }

  lemma SmoothPassResult(w: World, key: ObjectKey, p: Plan)
    requires Smooth(p) && Settable(w, key) && !w.servers[key].deleting
    ensures Reconciled(w, key, p).result == if MatterAfter(w, key, p).synchronized then Done else RequeueAfter
  {
    SmoothPass(w, key, p);
    var b := BeforeFinalizers(w, key, p);
    FinalizerStepSmooth(b.world, key, b.server, p);
    ResultTells(w, key, p);
  }

  /** With the flag set and the ready count already right, a smooth pass is content whatever the nodes hold. */
  lemma StaleListLies(w: World, key: ObjectKey, p: Plan)
    requires Smooth(p) && Settable(w, key) && !w.servers[key].deleting && key in w.sets
    requires w.servers[key].status.synchronized && w.sets[key].readyReplicas == w.servers[key].spec.replicas >= 1
    requires Pod(key, 0) in w.accepted && w.accepted[Pod(key, 0)] != MemberListOf(key, Defaulted(w.servers[key].spec))
    ensures Reconciled(w, key, p).result == Done && !Truthful(Reconciled(w, key, p).world, key)
  {
    SmoothPassResult(w, key, p);
    LiveServerStays(w, key, p);
    TruthfulAfterPassExactly(w, key, p);
  }

  /** Scaling to m while m of n pods happen to be ready: the operator takes it for done and never tells
      the nodes (the ready count left the replica count). */
  lemma UnreadyScaleDownLies(w: World, key: ObjectKey, m: int, pods: int, p: Plan)
    requires InStep(w, key) && 1 <= m < w.servers[key].spec.replicas && Smooth(p)
    ensures var unready := After(w, ReadyMoved(key, pods, m));
            var edited := After(unready, SpecEdited(key, w.servers[key].spec.(replicas := m)));
            Reconciled(edited, key, p).result == Done && !Truthful(Reconciled(edited, key, p).world, key)
  {
    var s := w.servers[key].spec;
    var unready := After(w, ReadyMoved(key, pods, m));
    var edited := After(unready, SpecEdited(key, s.(replicas := m)));
    SizesDiffer(key, Defaulted(s), m);
    StaleListLies(edited, key, p);
  }

  /** Changing the raft port alone: no pass pushes the new addresses. */
  lemma RaftPortEditLies(w: World, key: ObjectKey, port: int, p: Plan)
    requires InStep(w, key) && Smooth(p)
    requires IsInt32(port) && port != w.servers[key].spec.ports.raftPort
    requires w.servers[key].spec.ports.(raftPort := port) != NO_PORTS
    ensures var s := w.servers[key].spec;
            var edited := After(w, SpecEdited(key, s.(ports := s.ports.(raftPort := port))));
            Reconciled(edited, key, p).result == Done && !Truthful(Reconciled(edited, key, p).world, key)
  {
    var s := w.servers[key].spec;
    var edited := After(w, SpecEdited(key, s.(ports := s.ports.(raftPort := port))));
    if MemberListOf(key, s) == MemberListOf(key, s.(ports := s.ports.(raftPort := port))) {
      MemberListDetermines(key.name, s.replicas, s.serviceName, s.ports.raftPort, key.name, s.replicas, s.serviceName, port);
    }
    StaleListLies(edited, key, p);
  }

  /** Changing the service name alone: likewise. */
  lemma ServiceEditLies(w: World, key: ObjectKey, service: string, p: Plan)
    requires InStep(w, key) && Smooth(p)
    requires service != "" && service != w.servers[key].spec.serviceName && Free(service, ',') && Free(service, '.')
    ensures var edited := After(w, SpecEdited(key, w.servers[key].spec.(serviceName := service)));
            Reconciled(edited, key, p).result == Done && !Truthful(Reconciled(edited, key, p).world, key)
  {
    var s := w.servers[key].spec;
    var edited := After(w, SpecEdited(key, s.(serviceName := service)));
    if MemberListOf(key, s) == MemberListOf(key, s.(serviceName := service)) {
      MemberListDetermines(key.name, s.replicas, s.serviceName, s.ports.raftPort, key.name, s.replicas, service, s.ports.raftPort);
    }
    StaleListLies(edited, key, p);
  }

  /** Somebody deletes the StatefulSet: the next pass creates it anew, and is done with no pod ready. */
  lemma DeletedSetLies(w: World, key: ObjectKey, p: Plan)
    requires InStep(w, key) && Smooth(p)
    ensures var gone := After(w, SetDeleted(key));
            Reconciled(gone, key, p).result == Done && !Truthful(Reconciled(gone, key, p).world, key)
  {
    var gone := After(w, SetDeleted(key));
    SmoothPassResult(gone, key, p);
    LiveServerStays(gone, key, p);
    TruthfulAfterPassExactly(gone, key, p);
  }

  /** A pass whose status write alone fails: the StatefulSet has the new size, the stored flag its old value. */
  lemma LostStatusWrite(w: World, key: ObjectKey, p: Plan)
    requires Smooth(p.(writeStatusFails := false)) && p.writeStatusFails
    requires Settable(w, key) && key in w.sets && w.sets[key].readyReplicas != w.servers[key].spec.replicas
    ensures var w' := Reconciled(w, key, p).world;
            && key in w'.servers && w'.servers[key].spec == w.servers[key].spec && w'.servers[key].deleting == w.servers[key].deleting
            && w'.servers[key].status.synchronized == w.servers[key].status.synchronized
            && key in w'.sets && w'.sets[key] == UpdatedSet(w.sets[key], key, Defaulted(w.servers[key].spec))
            && w'.accepted == w.accepted
  {
    var s := Loaded(w, key);
    ServiceStepFrame(w, key, s, p);
    var u := UpdateSetStep(ServiceStep(w, key, s, p).world, key, s, p);
    RecordedFrame(u.world, key, ServerError(SET_ERROR, "Failed to update StatefulSet"), p.record);
  }

  /** Scaling to m, the status write lost once, and the pods ready before the retry: done, and untold. */
  lemma LostStatusWriteLies(w: World, key: ObjectKey, m: int, pods: int, p: Plan, q: Plan)
    requires InStep(w, key) && 1 <= m != w.servers[key].spec.replicas
    requires Smooth(p.(writeStatusFails := false)) && p.writeStatusFails && Smooth(q)
    ensures var edited := After(w, SpecEdited(key, w.servers[key].spec.(replicas := m)));
            var lost := After(edited, PassRuns(key, p));
            var ready := After(lost, ReadyMoved(key, pods, m));
            Reconciled(ready, key, q).result == Done && !Truthful(Reconciled(ready, key, q).world, key)
  {
    var s := w.servers[key].spec;
    var edited := After(w, SpecEdited(key, s.(replicas := m)));
    LostStatusWrite(edited, key, p);
    var lost := Reconciled(edited, key, p).world;
    var ready := After(lost, ReadyMoved(key, pods, m));
    SizesDiffer(key, Defaulted(s), m);
    StaleListLies(ready, key, q);
  }
}
