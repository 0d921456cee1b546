/** The finalizer protocol: when the reconciler's finalizer comes and goes, over one pass and over runs. */
module FinalizerProtocol {
  import opened Text
  import opened Utils
  import opened Api
  import opened Generators
  import opened Cluster
  import opened Pass
  import opened Runs
  import opened Safety
  import opened Settling

  /** What happened to a server's finalizers in a pass. */
  datatype Change = Kept | Added | Released

  /** The stored server is the same one with these finalizers; the reclaim policy did not turn to or from Delete. */
  predicate StoredWith(w': World, key: ObjectKey, s: Server, finalizers: seq<string>) {
    && key in w'.servers && w'.servers[key].finalizers == finalizers
    && w'.servers[key].uid == s.uid && w'.servers[key].deleting == s.deleting
    && (w'.servers[key].spec.persistence.volumeReclaimPolicy == DELETE <==> s.spec.persistence.volumeReclaimPolicy == DELETE)
  }

  predicate Changed(s: Server, w': World, key: ObjectKey, change: Change) {
    match change
    case Kept => StoredWith(w', key, s, s.finalizers)
    case Added => StoredWith(w', key, s, s.finalizers + ["cleanUpSeataPVC"])
    case Released =>
      var rest := Removed(s.finalizers, SEATA_FINALIZER);
      if rest == [] then key !in w'.servers else StoredWith(w', key, s, rest)
  }

  /** What a pass does to the finalizers: to a live server lacking ours it adds it once both objects are
      written; from a server being deleted it takes it off once the claims were listed and deleted too; in
      either case if the policy is Delete and the server is written. */
  function ChangeOf(w: World, key: ObjectKey, p: Plan): Change
    requires key in w.servers
  {
    var s := w.servers[key];
    if FinalCleanup(w, key, p) && !p.writeServerFails then Released
    else if PassesSet(w, key, p) && !s.deleting && s.spec.persistence.volumeReclaimPolicy == DELETE
            && SEATA_FINALIZER !in s.finalizers && !p.writeServerFails then Added
    else Kept
  }

  /** Service and StatefulSet are as the pass writes them. */
  predicate BothWritten(w: World, key: ObjectKey, w': World)
    requires key in w.servers
  {
    var s := Defaulted(w.servers[key].spec);
    var at := ObjectKey(key.namespace, s.serviceName);
    && at in w'.services && w'.services[at].ports == ServiceFor(key, s).ports
    && key in w'.sets && w'.sets[key].template == TemplateFor(key, s) && w'.sets[key].replicas == s.replicas
  }

  // ---------------------------------------------------------------- one pass

  lemma MarkStepFinalizers(v: World, key: ObjectKey, t: Server, p: Plan)
    requires StoredWith(v, key, t, t.finalizers) && !t.deleting
    ensures Changed(t, MarkStep(v, key, t, p).world, key, if SEATA_FINALIZER !in t.finalizers && !p.writeServerFails then Added else Kept)
  {
  }

  lemma ReleaseStepFinalizers(v: World, key: ObjectKey, t: Server, p: Plan)
    requires StoredWith(v, key, t, t.finalizers) && t.deleting
    ensures Changed(t, ReleaseStep(v, key, t, p).world, key,
                    if SEATA_FINALIZER in t.finalizers && !p.firstListFails && !p.writeServerFails then Released else Kept)
    ensures !p.firstListFails && !p.writeServerFails ==> ReleaseStep(v, key, t, p).ok
  {
  }

  /** What reaches the third step is the stored server, its finalizers untouched. */
  lemma BeforeFinalStep(w: World, key: ObjectKey, p: Plan)
    requires PassesSet(w, key, p)
    ensures var s := w.servers[key];
            var second := SetStep(ServiceStep(w, key, Loaded(w, key), p).world, key, Loaded(w, key), p);
            && second.ok && second.server.finalizers == s.finalizers && second.server.deleting == s.deleting
            && StoredWith(second.world, key, s, s.finalizers) && StoredWith(second.world, key, second.server, s.finalizers)
            && (second.server.spec.persistence.volumeReclaimPolicy == DELETE <==> s.spec.persistence.volumeReclaimPolicy == DELETE)
            && BothWritten(w, key, second.world)
  {
    var s := Loaded(w, key);
    var service := ServiceStep(w, key, s, p);
    PassesSetExactly(w, key, p);
    ServiceStepFrame(w, key, s, p);
    SetStepFrame(service.world, key, s, p);
    SetStepReady(service.world, key, s, p);
  }

  /** The same change, seen from a server alike in what it is about. */
  lemma ChangedAlike(s: Server, t: Server, w': World, key: ObjectKey, change: Change)
    requires Changed(t, w', key, change)
    requires s.finalizers == t.finalizers && s.uid == t.uid && s.deleting == t.deleting
    requires t.spec.persistence.volumeReclaimPolicy == DELETE <==> s.spec.persistence.volumeReclaimPolicy == DELETE
    ensures Changed(s, w', key, change)
  {
  }

  lemma PassingFinalizers(w: World, key: ObjectKey, p: Plan)
    requires PassesSet(w, key, p)
    ensures Changed(w.servers[key], Reconciled(w, key, p).world, key, ChangeOf(w, key, p))
    ensures ChangeOf(w, key, p) == Released ==> Reconciled(w, key, p).result != Error
    ensures BothWritten(w, key, Reconciled(w, key, p).world)
  {
    var second := SetStep(ServiceStep(w, key, Loaded(w, key), p).world, key, Loaded(w, key), p);
    BeforeFinalStep(w, key, p);
    PassesSetExactly(w, key, p);
    LoadedOutcome(w, key, p);
    FinalizerStepFrame(second.world, key, second.server, p);
    var w' := Reconciled(w, key, p).world;
    if second.server.spec.persistence.volumeReclaimPolicy == DELETE {
      if second.server.deleting {
        ReleaseStepFinalizers(second.world, key, second.server, p);
      } else {
        MarkStepFinalizers(second.world, key, second.server, p);
      }
      ChangedAlike(w.servers[key], second.server, w', key, ChangeOf(w, key, p));
    }
  }

  lemma StoppedFinalizers(w: World, key: ObjectKey, p: Plan)
    requires !p.getServerFails && Settable(w, key) && !PassesSet(w, key, p)
    ensures Changed(w.servers[key], Reconciled(w, key, p).world, key, Kept)
  {
    var s := Loaded(w, key);
    var service := ServiceStep(w, key, s, p);
    ServiceStepFrame(w, key, s, p);
    PassesSetExactly(w, key, p);
    SetStepFrame(service.world, key, s, p);
  }

  /** The protocol: the finalizers change as said, and a release comes with both objects written, the
      listed claims deleted unless their deletion failed, and no error. */
  predicate ProtocolKept(w: World, key: ObjectKey, p: Plan, o: Outcome)
    requires key in w.servers
  {
    && Changed(w.servers[key], o.world, key, ChangeOf(w, key, p))
    && (ChangeOf(w, key, p) != Kept ==> BothWritten(w, key, o.world))
    && (ChangeOf(w, key, p) == Released ==> o.result != Error && o.world.claims == ClaimsAfter(w, key, p))
  }

  /** In any pass, whatever fails, the protocol is kept. */
  lemma PassKeepsProtocol(w: World, key: ObjectKey, p: Plan)
    requires key in w.servers && (w.servers[key].deleting ==> w.servers[key].finalizers != [])
    ensures ProtocolKept(w, key, p, Reconciled(w, key, p))
  {
    if p.getServerFails {
      RecordedFrame(w, key, ServerError(SERVER_ERROR, "Failed to fetch SeataServer"), p.record);
    } else if !Settable(w, key) {
      RecordedFrame(w, key, ServerError(SERVER_ERROR, "Failed to update SeataServer with defaults"), p.record);
    } else if PassesSet(w, key, p) {
      PassingFinalizers(w, key, p);
      PassClaims(w, key, p);
    } else {
      StoppedFinalizers(w, key, p);
    }
  }

  /** The pass lets the server go: it takes off the last finalizer, or stores the defaults of a server being
      deleted that has none. */
  predicate LetsGo(w: World, key: ObjectKey, p: Plan)
    requires key in w.servers
  {
    var s := w.servers[key];
    if s.deleting && s.finalizers == [] then !Settable(w, key) && !p.getServerFails && !p.writeServerFails
    else ChangeOf(w, key, p) == Released && Removed(s.finalizers, SEATA_FINALIZER) == []
  }

  /** A server is gone after a pass exactly if the pass lets it go. */
  lemma ServerGoesExactly(w: World, key: ObjectKey, p: Plan)
    requires key in w.servers
    ensures key !in Reconciled(w, key, p).world.servers <==> LetsGo(w, key, p)
  {
    if w.servers[key].deleting && w.servers[key].finalizers == [] {
      if !p.getServerFails && Settable(w, key) {
        if PassesSet(w, key, p) {
          PassingFinalizers(w, key, p);
        } else {
          StoppedFinalizers(w, key, p);
        }
      }
    } else {
      PassKeepsProtocol(w, key, p);
    }
  }

  /** While the policy is Delete, a pass over a deleted server in which no call fails releases it. */
  lemma SmoothPassReleases(w: World, key: ObjectKey, p: Plan)
    requires Smooth(p) && Settable(w, key) && w.servers[key].deleting
    requires w.servers[key].spec.persistence.volumeReclaimPolicy == DELETE && SEATA_FINALIZER in w.servers[key].finalizers
    ensures Changed(w.servers[key], Reconciled(w, key, p).world, key, Released)
    ensures w.servers[key].finalizers == [SEATA_FINALIZER] ==> key !in Reconciled(w, key, p).world.servers
  {
    PassKeepsProtocol(w, key, p);
    if w.servers[key].finalizers == [SEATA_FINALIZER] {
      assert [SEATA_FINALIZER] == [] + [SEATA_FINALIZER];
      RemoveUndoesAppend([], SEATA_FINALIZER);
    }
  }

  /** Of the claims of a server being deleted a pass, whatever fails in it, deletes exactly the deletable ones
      if it comes to the cleanup, and none otherwise. */
  lemma ReleasedVolumesExactly(w: World, key: ObjectKey, p: Plan, c: Claim)
    requires key in w.servers && w.servers[key].deleting
    requires KeyedOnce(w.claims) && c in ClaimsOf(w, key, w.servers[key])
    ensures c !in Reconciled(w, key, p).world.claims <==> FinalCleanup(w, key, p) && c.key !in p.undeletable
  {
    PassClaims(w, key, p);
    ListedGoes(w.claims, ClaimsOf(w, key, w.servers[key]), c, None, p.undeletable);
  }

  // ---------------------------------------------------------------- runs

  /** The API server keeps no deleted server without finalizers. */
  predicate WellStored(w: World) {
    forall k :: k in w.servers && w.servers[k].deleting ==> w.servers[k].finalizers != []
  }

  lemma WellStoredElsewhere(w: World, w': World, key: ObjectKey)
    requires WellStored(w) && SameElsewhere(w.servers, w'.servers, key)
    requires key in w'.servers && w'.servers[key].deleting ==> w'.servers[key].finalizers != []
    ensures WellStored(w')
  {
  }

  lemma PassWellStored(w: World, key: ObjectKey, p: Plan)
    requires WellStored(w)
    ensures WellStored(Reconciled(w, key, p).world)
  {
    var o := Reconciled(w, key, p);
    PassElsewhere(w, key, p);
    if key in w.servers {
      PassKeepsProtocol(w, key, p);
      WellStoredElsewhere(w, o.world, key);
    }
  }

  lemma WellStoredKept(w: World, e: Event)
    requires WellStored(w)
    ensures WellStored(After(w, e))
  {
    if e.PassRuns? {
      PassWellStored(w, e.key, e.plan);
    }
  }

  function Others(finalizers: seq<string>): seq<string> {
    Removed(finalizers, SEATA_FINALIZER)
  }

  /** What becomes of our finalizer on a server from one moment to a later one. */
  predicate OursKept(a: Server, b: Server) {
    && (multiset(a.finalizers)[SEATA_FINALIZER] <= 1 ==> multiset(b.finalizers)[SEATA_FINALIZER] <= 1)
    && (a.deleting && SEATA_FINALIZER !in a.finalizers ==> SEATA_FINALIZER !in b.finalizers)
    && (a.deleting ==> b.deleting)
  }

  predicate FinalizersKept(a: Server, b: Server) {
    Others(b.finalizers) == Others(a.finalizers) && OursKept(a, b)
  }

  lemma RemovedAgain(a: seq<string>)
    ensures Others(Others(a)) == Others(a)
    ensures SEATA_FINALIZER !in a ==> multiset(a + [SEATA_FINALIZER])[SEATA_FINALIZER] == 1
  {
    RemovedAbsent(Others(a), SEATA_FINALIZER);
  }

  lemma ChangeKeeps(a: Server, w': World, key: ObjectKey, change: Change)
    requires Changed(a, w', key, change) && key in w'.servers
    requires change == Added ==> !a.deleting && SEATA_FINALIZER !in a.finalizers
    ensures FinalizersKept(a, w'.servers[key])
  {
    var f := a.finalizers;
    RemovedAgain(f);
    assert (f + [SEATA_FINALIZER])[..|f|] == f;
  }

  lemma PassKeepsFinalizers(w: World, key: ObjectKey, p: Plan)
    requires WellStored(w) && key in w.servers && key in Reconciled(w, key, p).world.servers
    ensures FinalizersKept(w.servers[key], Reconciled(w, key, p).world.servers[key])
  {
    var a, o := w.servers[key], Reconciled(w, key, p);
    PassKeepsProtocol(w, key, p);
    ChangeKeeps(a, o.world, key, ChangeOf(w, key, p));
  }

  /** Somebody else's edit leaves our finalizer alone. */
  predicate LeavesOurs(w: World, e: Event, key: ObjectKey) {
    EditTaken(w, e, key) ==> multiset(e.finalizers)[SEATA_FINALIZER] == multiset(w.servers[key].finalizers)[SEATA_FINALIZER]
  }

  /** What one event keeps of a server that is still there after it. */
  lemma EventKeepsFinalizers(w: World, e: Event, key: ObjectKey)
    requires WellStored(w) && key in w.servers && key in After(w, e).servers
    ensures var b := After(w, e).servers[key];
            && Others(b.finalizers) == (if EditTaken(w, e, key) then Others(e.finalizers) else Others(w.servers[key].finalizers))
            && (LeavesOurs(w, e, key) ==> OursKept(w.servers[key], b))
  {
    if e.PassRuns? {
      PassElsewhere(w, e.key, e.plan);
      if e.key == key { PassKeepsFinalizers(w, key, e.plan); }
    }
  }

  /** The finalizers others last gave the server. */
  function OthersLast(w: World, events: seq<Event>, key: ObjectKey): seq<string>
    requires key in w.servers
  {
    if events == [] then Others(w.servers[key].finalizers)
    else
      var front, e := events[..|events| - 1], events[|events| - 1];
      if EditTaken(Run(w, front), e, key) then Others(e.finalizers) else OthersLast(w, front, key)
  }

  lemma {:induction false} WellStoredOverRuns(w: World, events: seq<Event>)
    requires WellStored(w)
    ensures WellStored(Run(w, events))
  {
    if events != [] {
      WellStoredOverRuns(w, events[..|events| - 1]);
      WellStoredKept(Run(w, events[..|events| - 1]), events[|events| - 1]);
    }
  }

  /** The server is there at every moment of the run. */
  predicate StaysThere(w: World, events: seq<Event>, key: ObjectKey) {
    forall n :: 0 <= n <= |events| ==> key in Run(w, events[..n]).servers
  }

  lemma StaysThereBefore(w: World, events: seq<Event>, key: ObjectKey)
    requires StaysThere(w, events, key)
    ensures key in w.servers && key in Run(w, events).servers
    ensures events != [] ==> StaysThere(w, events[..|events| - 1], key)
  {
    assert events[..|events|] == events && events[..0] == [];
    if events != [] {
      var n := |events| - 1;
      forall m | 0 <= m <= n ensures key in Run(w, events[..n][..m]).servers {
        assert events[..n][..m] == events[..m];
      }
    }
  }

  /** Over every run, as long as the server exists, everybody else's finalizers are what others last made
      them, in their order. */
  lemma {:induction false} OthersOverRuns(w: World, events: seq<Event>, key: ObjectKey)
    requires WellStored(w) && StaysThere(w, events, key)
    ensures key in w.servers && key in Run(w, events).servers
    ensures Others(Run(w, events).servers[key].finalizers) == OthersLast(w, events, key)
  {
    StaysThereBefore(w, events, key);
    if events != [] {
      var n := |events| - 1;
      OthersOverRuns(w, events[..n], key);
      WellStoredOverRuns(w, events[..n]);
      EventKeepsFinalizers(Run(w, events[..n]), events[n], key);
    }
  }

  /** And if others leave ours alone, it occurs at most once if it did so at first, and is never put on a
      server being deleted. */
  lemma {:induction false} OursOverRuns(w: World, events: seq<Event>, key: ObjectKey)
    requires WellStored(w) && StaysThere(w, events, key)
    requires forall n :: 0 <= n < |events| ==> LeavesOurs(Run(w, events[..n]), events[n], key)
    ensures key in w.servers && key in Run(w, events).servers && OursKept(w.servers[key], Run(w, events).servers[key])
  {
    StaysThereBefore(w, events, key);
    if events != [] {
      var n := |events| - 1;
      forall m | 0 <= m < n ensures events[..n][..m] == events[..m] {
      }
      OursOverRuns(w, events[..n], key);
      WellStoredOverRuns(w, events[..n]);
      EventKeepsFinalizers(Run(w, events[..n]), events[n], key);
    }
  }

  /** What passes do to finalizers, at any point of any run, whoever else edits them. */
  lemma EveryPassKeepsProtocol(w: World, events: seq<Event>, key: ObjectKey, p: Plan)
    requires WellStored(w)
    ensures var v := Run(w, events); key in v.servers ==> ProtocolKept(v, key, p, Reconciled(v, key, p))
  {
    WellStoredOverRuns(w, events);
    if key in Run(w, events).servers {
      PassKeepsProtocol(Run(w, events), key, p);
    }
  }

  /** A server whose policy is not Delete keeps our finalizer through its passes and whatever leaves it alone. */
  lemma RetainedThrough(w: World, e: Event, key: ObjectKey)
    requires WellStored(w) && key in w.servers && SEATA_FINALIZER in w.servers[key].finalizers
    requires w.servers[key].spec.persistence.volumeReclaimPolicy != DELETE && LeavesOurs(w, e, key)
    ensures key in After(w, e).servers && SEATA_FINALIZER in After(w, e).servers[key].finalizers
  {
    if e.PassRuns? {
      PassElsewhere(w, e.key, e.plan);
      if e.key == key { PassKeepsProtocol(w, key, e.plan); }
    }
  }

  /** The early return on the policy matters: a server that carries the finalizer and whose policy is not
      Delete at any moment is never let go once its deletion was requested, however long the run, unless
      somebody else takes the finalizer off. */
  lemma {:induction false} RetainBlocksDeletion(w: World, events: seq<Event>, key: ObjectKey)
    requires WellStored(w) && key in w.servers && SEATA_FINALIZER in w.servers[key].finalizers
    requires forall n :: 0 <= n < |events| ==>
               && (key in Run(w, events[..n]).servers ==>
                     Run(w, events[..n]).servers[key].spec.persistence.volumeReclaimPolicy != DELETE)
               && LeavesOurs(Run(w, events[..n]), events[n], key)
    ensures key in Run(w, events).servers && SEATA_FINALIZER in Run(w, events).servers[key].finalizers
  {
    if events != [] {
      var n := |events| - 1;
      forall m | 0 <= m < n ensures events[..n][..m] == events[..m] {
      }
      RetainBlocksDeletion(w, events[..n], key);
      WellStoredOverRuns(w, events[..n]);
      RetainedThrough(Run(w, events[..n]), events[n], key);
    }
  }
}
