/** Passes in which no API call fails: what they delete, what they leave behind when they ask for no
    further pass, and when there is nothing left for them to do. */
module Settling {
  import opened Text
  import opened Utils
  import opened Api
  import opened Generators
  import opened Cluster
  import opened Pass
  import opened Runs
  import opened Safety
  import opened OrphanCount

  /** No API call of the pass fails; nodes may refuse the membership, claims may resist deletion. */
  predicate Smooth(p: Plan) {
    && !p.getServerFails && !p.writeServerFails
    && !p.ownServiceFails && !p.getServiceFails && !p.writeServiceFails
    && !p.ownSetFails && !p.getSetFails && !p.writeSetFails
    && !p.writeStatusFails && !p.firstListFails && !p.secondListFails
  }

  /** The cluster and the pass's copy of the server when the finalizer step begins. */
  function BeforeFinalizers(w: World, key: ObjectKey, p: Plan): StepResult
    requires key in w.servers
  {
    SetStep(ServiceStep(w, key, Loaded(w, key), p).world, key, Loaded(w, key), p)
  }

  lemma SmoothPass(w: World, key: ObjectKey, p: Plan)
    requires Smooth(p) && Settable(w, key)
    ensures var b := BeforeFinalizers(w, key, p);
            && b.ok && key in b.world.servers
            && b.world.claims == w.claims
            && b.world.servers[key].status == b.server.status
            && b.world.servers[key] == w.servers[key].(status := b.server.status)
            && b.server.uid == w.servers[key].uid && b.server.deleting == w.servers[key].deleting
            && b.server.finalizers == w.servers[key].finalizers
            && (b.server.spec == Defaulted(w.servers[key].spec) || b.server.spec == w.servers[key].spec)
            && b.server.status.readyReplicas == ReadySeen(w, key)
            && Reconciled(w, key, p).world == FinalizerStep(b.world, key, b.server, p).world
            && Reconciled(w, key, p).result ==
               (if !FinalizerStep(b.world, key, b.server, p).ok then Error
                else if FinalizerStep(b.world, key, b.server, p).server.status.synchronized then Done else RequeueAfter)
  {
    var s := Loaded(w, key);
    var service := ServiceStep(w, key, s, p);
    ServiceStepFrame(w, key, s, p);
    SetStepFrame(service.world, key, s, p);
    SetStepReady(service.world, key, s, p);
  }

  lemma FinalizerStepSmooth(w: World, key: ObjectKey, s: Server, p: Plan)
    requires Smooth(p) && key in w.servers && w.servers[key].status == s.status
    ensures var r := FinalizerStep(w, key, s, p);
            && r.ok && r.server.status == s.status
            && (!s.deleting ==> && key in r.world.servers
                                && (r.world.servers[key] == w.servers[key]
                                    || r.world.servers[key] == s.(finalizers := s.finalizers + [SEATA_FINALIZER]))
                                && (s.spec.persistence.volumeReclaimPolicy == DELETE && w.servers[key].finalizers == s.finalizers
                                    ==> SEATA_FINALIZER in r.world.servers[key].finalizers))
  {
  }

  // ---------------------------------------------------------------- exact deletions

  /** Which volumes a pass over a live server deletes, whatever fails in it: if it comes to the cleanup,
      those with an ordinal at or above the replica count that can be deleted. It comes to it when the ready
      count it saw is the replica count and more claims than replicas are listed; how many pods still exist
      is not asked. */
  lemma DeletedExactly(w: World, key: ObjectKey, p: Plan, k: nat, c: Claim)
    requires key in w.servers && !w.servers[key].deleting
    requires k < INT32_LIMIT && KeyedOnce(w.claims) && c in w.claims && VolumeOf(c, key, w.servers[key].uid, k)
    ensures c !in Reconciled(w, key, p).world.claims <==>
            LiveCleanup(w, key, p) && k >= w.servers[key].spec.replicas && c.key !in p.undeletable
  {
    var s := w.servers[key];
    PassClaims(w, key, p);
    ListedGoes(w.claims, ClaimsOf(w, key, s), c, Some(s.spec.replicas), p.undeletable);
    assert Targeted(c, Some(s.spec.replicas)) <==> k >= s.spec.replicas by {
      OrphanExactly(key.name, k, s.spec.replicas);
    }
  }

  /** So a volume goes while its pod is still there: scale to m while m of the pods happen to be ready, and
      the next smooth pass deletes the volume of any pod k from m on, before a single pod has gone. */
  lemma VolumeOfExistingPodGoes(w: World, key: ObjectKey, m: nat, pods: int, p: Plan, k: nat, c: Claim)
    requires Smooth(p) && Settable(w, key) && !w.servers[key].deleting && key in w.sets
    requires w.servers[key].spec.persistence.volumeReclaimPolicy == DELETE
    requires m <= k < pods && k < INT32_LIMIT && m < |ClaimsOf(w, key, w.servers[key])|
    requires KeyedOnce(w.claims) && c in w.claims && VolumeOf(c, key, w.servers[key].uid, k) && c.key !in p.undeletable
    ensures var unready := After(w, ReadyMoved(key, pods, m));
            var edited := After(unready, SpecEdited(key, w.servers[key].spec.(replicas := m)));
            edited.sets[key].podReplicas > k && c in edited.claims && c !in Reconciled(edited, key, p).world.claims
  {
    var unready := After(w, ReadyMoved(key, pods, m));
    var edited := After(unready, SpecEdited(key, w.servers[key].spec.(replicas := m)));
    assert edited.claims == w.claims && ClaimsOf(edited, key, edited.servers[key]) == ClaimsOf(w, key, w.servers[key]);
    assert ReadySeen(edited, key) == m == edited.servers[key].spec.replicas;
    DeletedExactly(edited, key, p, k, c);
  }

  // ---------------------------------------------------------------- quiescence

  /** What an operator may rely on when a pass asks for no further one. The Service's selector and the
      StatefulSet's governing Service are not part of it: no pass repairs these (SharedService). */
  predicate Agreed(w: World, key: ObjectKey) {
    && key in w.servers && key in w.sets
    && var s := w.servers[key];
       var at := ObjectKey(key.namespace, s.spec.serviceName);
       && s.status.synchronized && s.status.readyReplicas == s.spec.replicas
       && s.status.replicas == w.sets[key].podReplicas
       && w.sets[key].template == TemplateFor(key, s.spec)
       && w.sets[key].replicas == s.spec.replicas == w.sets[key].readyReplicas
       && at in w.services && w.services[at].ports == ServiceFor(key, s.spec).ports
       && (s.spec.persistence.volumeReclaimPolicy == DELETE ==> SEATA_FINALIZER in s.finalizers)
  }

  lemma DonePassWasSmooth(w: World, key: ObjectKey, p: Plan)
    requires key in w.servers && Reconciled(w, key, p).result == Done
    ensures Settable(w, key)
    ensures var s := Loaded(w, key);
            var service := ServiceStep(w, key, s, p);
            var second := SetStep(service.world, key, s, p);
            var final := FinalizerStep(second.world, key, second.server, p);
            && service.ok && second.ok && final.ok && final.server.status.synchronized
            && Reconciled(w, key, p).world == final.world
  {
    ServiceStepFrame(w, key, Loaded(w, key), p);
  }

  lemma MarkStepKeeps(w: World, key: ObjectKey, s: Server, p: Plan)
    requires key in w.servers && w.servers[key].status == s.status && w.servers[key].finalizers == s.finalizers
    requires MarkStep(w, key, s, p).ok && !s.deleting
    ensures var r := MarkStep(w, key, s, p);
            && key in r.world.servers && r.world.servers[key].status == s.status
            && (r.world.servers[key].spec == s.spec || r.world.servers[key].spec == w.servers[key].spec)
            && SEATA_FINALIZER in r.world.servers[key].finalizers
            && r.server.status == s.status
            && r.world.sets == w.sets && r.world.services == w.services
  {
    if SEATA_FINALIZER in s.finalizers {
      OrphanStepFrame(w, key, s, p);
    } else {
      var r := ServerWritten(w, key, s.(finalizers := s.finalizers + [SEATA_FINALIZER]));
      OrphanStepFrame(r.world, key, r.server, p);
    }
  }

  /** Quiescence implies agreement: a pass over a live server whose StatefulSet exists, ending with no
      error and no requeue, leaves Service, StatefulSet, nodes' count and status agreeing with the spec.
      One replica count is behind all of it, the cell the three objects share. */
  lemma QuiescenceIsAgreement(w: World, key: ObjectKey, p: Plan)
    requires key in w.servers && !w.servers[key].deleting && key in w.sets
    requires Reconciled(w, key, p).result == Done
    ensures Agreed(Reconciled(w, key, p).world, key)
  {
    DonePassWasSmooth(w, key, p);
    var s := Loaded(w, key);
    var service := ServiceStep(w, key, s, p);
    ServiceStepFrame(w, key, s, p);
    var second := SetStep(service.world, key, s, p);
    UpdateSetStepFrame(service.world, key, s, p);
    assert second.server == second.world.servers[key] && second.server.spec == w.servers[key].spec;
    assert TemplateFor(key, s.spec) == TemplateFor(key, second.server.spec);
    if second.server.spec.persistence.volumeReclaimPolicy == DELETE {
      MarkStepKeeps(second.world, key, second.server, p);
    }
  }

  // ---------------------------------------------------------------- no orphan left

  lemma MarkStepClaims(w: World, key: ObjectKey, s: Server, p: Plan)
    requires key in w.servers && w.servers[key].status == s.status && MarkStep(w, key, s, p).ok
    requires s.status.readyReplicas == s.spec.replicas
    ensures MarkStep(w, key, s, p).world.claims ==
            if |ClaimsOf(w, key, s)| > s.spec.replicas
            then Without(w.claims, Doomed(ClaimsOf(w, key, s), Some(s.spec.replicas), p.undeletable)) else w.claims
  {
  }

  lemma QuiescentClaims(w: World, key: ObjectKey, p: Plan)
    requires key in w.servers && !w.servers[key].deleting && key in w.sets
    requires w.servers[key].spec.persistence.volumeReclaimPolicy == DELETE
    requires Reconciled(w, key, p).result == Done
    ensures var list := ClaimsOf(w, key, w.servers[key]);
            Reconciled(w, key, p).world.claims ==
            if |list| > w.servers[key].spec.replicas
            then Without(w.claims, Doomed(list, Some(w.servers[key].spec.replicas), p.undeletable)) else w.claims
  {
    DonePassWasSmooth(w, key, p);
    var s := Loaded(w, key);
    var service := ServiceStep(w, key, s, p);
    ServiceStepFrame(w, key, s, p);
    UpdateSetStepFrame(service.world, key, s, p);
    var second := SetStep(service.world, key, s, p);
    MarkStepClaims(second.world, key, second.server, p);
  }

  /** No listed claim of the server is an orphan. */
  predicate OrphanFree(w: World, key: ObjectKey) {
    key in w.servers && !SomeListedOrphan(ClaimsOf(w, key, w.servers[key]), w.servers[key].spec.replicas)
  }

  lemma DoomedOrphan(list: seq<Claim>, c: Claim, r: int)
    requires c in list
    ensures c.key in Doomed(list, Some(r), {}) <==> IsPVCOrphan(c.key.name, r)
  {
  }

  /** The guarded cleanup, when deletes go through: it leaves an orphan exactly if there are orphans, but
      no more than volumes missing below r; and if it runs at all it leaves exactly the volumes below r. */
  lemma CleanupLeavesExactly(claims: seq<Claim>, key: ObjectKey, uid: string, ks: seq<nat>, r: nat)
    requires var list := Selected(claims, key.namespace, key.name, uid);
             Printed(list, key, ks) && NoTwice(list)
    ensures var list := Selected(claims, key.namespace, key.name, uid);
            var left := if |list| > r then Without(claims, Doomed(list, Some(r), {})) else claims;
            && (SomeListedOrphan(Selected(left, key.namespace, key.name, uid), r) <==> 0 < Orphans(list, r) <= |Missing(ks, r)|)
            && (forall i :: 0 <= i < |ks| ==> (list[i] in left <==> ks[i] < r || |list| <= r))
  {
    var list := Selected(claims, key.namespace, key.name, uid);
    var left := if |list| > r then Without(claims, Doomed(list, Some(r), {})) else claims;
    GuardExactly(list, key, ks, r);
    if |list| > r {
      forall c | c in list ensures c in left <==> !IsPVCOrphan(c.key.name, r) {
        DoomedOrphan(list, c, r);
      }
    }
    forall i | 0 <= i < |ks| ensures list[i] in left <==> ks[i] < r || |list| <= r {
      assert list[i] in list;
      OrphanExactly(key.name, ks[i], r);
    }
  }

  /** The third step on a live server as stored leaves it there, live, with uid and spec. */
  lemma LiveServerKept(v: World, key: ObjectKey, p: Plan)
    requires key in v.servers && !v.servers[key].deleting
    ensures var servers := FinalizerStep(v, key, v.servers[key], p).world.servers;
            && key in servers && !servers[key].deleting
            && servers[key].uid == v.servers[key].uid && servers[key].spec == v.servers[key].spec
  {
  }

  lemma UidKept(w: World, key: ObjectKey, p: Plan)
    requires key in w.servers && !w.servers[key].deleting
    requires Reconciled(w, key, p).result == Done && key in w.sets
    ensures var w' := Reconciled(w, key, p).world;
            && key in w'.servers && w'.servers[key].uid == w.servers[key].uid
            && w'.servers[key].spec == w.servers[key].spec && !w'.servers[key].deleting
  {
    DonePassWasSmooth(w, key, p);
    var s := Loaded(w, key);
    var service := ServiceStep(w, key, s, p);
    ServiceStepFrame(w, key, s, p);
    UpdateSetStepFrame(service.world, key, s, p);
    LiveServerKept(SetStep(service.world, key, s, p).world, key, p);
  }

  /** A quiescent pass whose deletes go through leaves no orphan, unless there are orphans but no more
      than volumes missing below the replica count; with the volumes 0..Replicas-1 all there it leaves
      exactly these. */
  lemma QuiescenceLeavesExactly(w: World, key: ObjectKey, p: Plan, ks: seq<nat>)
    requires key in w.servers && !w.servers[key].deleting && key in w.sets
    requires w.servers[key].spec.persistence.volumeReclaimPolicy == DELETE && w.servers[key].spec.replicas >= 0
    requires Reconciled(w, key, p).result == Done && p.undeletable == {}
    requires var list := ClaimsOf(w, key, w.servers[key]); Printed(list, key, ks) && NoTwice(list)
    ensures var list := ClaimsOf(w, key, w.servers[key]);
            var r := w.servers[key].spec.replicas;
            var w' := Reconciled(w, key, p).world;
            && (OrphanFree(w', key) <==> !(0 < Orphans(list, r) <= |Missing(ks, r)|))
            && (Covers(ks, r) ==> OrphanFree(w', key) && forall i :: 0 <= i < |ks| ==> (list[i] in w'.claims <==> ks[i] < r))
  {
    var list := ClaimsOf(w, key, w.servers[key]);
    var r := w.servers[key].spec.replicas;
    QuiescentClaims(w, key, p);
    UidKept(w, key, p);
    CleanupLeavesExactly(w.claims, key, w.servers[key].uid, ks, r);
    MissingNone(ks, r);
    if Covers(ks, r) {
      GuardAgreesWhenCovered(list, key, ks, r);
      forall i | 0 <= i < |ks| && |list| <= r ensures ks[i] < r {
        assert list[i] in list;
        OrphanExactly(key.name, ks[i], r);
      }
    }
  }

  /** Once no orphan is listed, no further pass deletes anything until the server is edited or deleted. */
  lemma OrphanFreeIsStable(w: World, key: ObjectKey, p: Plan)
    requires OrphanFree(w, key) && !w.servers[key].deleting
    ensures Reconciled(w, key, p).world.claims == w.claims
  {
    PassClaims(w, key, p);
    assert Doomed(ClaimsOf(w, key, w.servers[key]), Some(w.servers[key].spec.replicas), p.undeletable) == {};
    WithoutNothing(w.claims, {});
  }

  // ---------------------------------------------------------------- nothing left to do

  /** The orphan cleanup, should it run, finds nothing it can delete. */
  predicate CleanupIdle(w: World, key: ObjectKey, p: Plan)
    requires key in w.servers
  {
    var s := w.servers[key];
    s.spec.persistence.volumeReclaimPolicy == DELETE && |ClaimsOf(w, key, s)| > s.spec.replicas ==>
      Doomed(ClaimsOf(w, key, s), Some(s.spec.replicas), p.undeletable) == {}
  }

  lemma AgreedServiceIdle(w: World, key: ObjectKey, p: Plan)
    requires Smooth(p) && Settable(w, key) && Agreed(w, key)
    ensures ServiceStep(w, key, Loaded(w, key), p) == StepResult(w, Loaded(w, key), true)
  {
    var at := ObjectKey(key.namespace, w.servers[key].spec.serviceName);
    assert w.services == w.services[at := w.services[at]];
  }

  lemma AgreedSetIdle(w: World, key: ObjectKey, p: Plan)
    requires Smooth(p) && Settable(w, key) && Agreed(w, key)
    ensures SetStep(w, key, Loaded(w, key), p) == StepResult(w, w.servers[key], true)
  {
    assert UpdatedSet(w.sets[key], key, Loaded(w, key).spec) == w.sets[key];
    assert w.sets == w.sets[key := w.sets[key]];
    assert w.servers == w.servers[key := w.servers[key]];
  }

  lemma AgreedFinalizersIdle(w: World, key: ObjectKey, p: Plan)
    requires Smooth(p) && Agreed(w, key) && !w.servers[key].deleting && CleanupIdle(w, key, p)
    ensures FinalizerStep(w, key, w.servers[key], p) == StepResult(w, w.servers[key], true)
  {
    WithoutNothing(w.claims, {});
  }

  lemma NothingGone(claims: seq<Claim>, list: seq<Claim>, orphansOf: Option<int>, undeletable: set<ObjectKey>)
    requires Without(claims, Doomed(list, orphansOf, undeletable)) == claims && forall c :: c in list ==> c in claims
    ensures Doomed(list, orphansOf, undeletable) == {}
  {
    forall c | c in list ensures c.key !in Doomed(list, orphansOf, undeletable) {
      assert c in Without(claims, Doomed(list, orphansOf, undeletable));
    }
  }

  lemma SmoothPassHasSet(w: World, key: ObjectKey, p: Plan)
    requires Smooth(p) && Settable(w, key)
    ensures key in Reconciled(w, key, p).world.sets
  {
    SmoothPass(w, key, p);
    var b := BeforeFinalizers(w, key, p);
    FinalizerStepFrame(b.world, key, b.server, p);
    ServiceStepFrame(w, key, Loaded(w, key), p);
  }

  /** The fixed points: a smooth pass over a live server asks for no other and changes nothing at all
      exactly if the server is past defaulting, the cluster agrees, and the cleanup finds nothing. */
  lemma FixedPointExactly(w: World, key: ObjectKey, p: Plan)
    requires Smooth(p) && key in w.servers && !w.servers[key].deleting
    ensures Reconciled(w, key, p) == Outcome(w, Done) <==> Settable(w, key) && Agreed(w, key) && CleanupIdle(w, key, p)
  {
    if Reconciled(w, key, p) == Outcome(w, Done) {
      DonePassWasSmooth(w, key, p);
      SmoothPassHasSet(w, key, p);
      QuiescenceIsAgreement(w, key, p);
      if !CleanupIdle(w, key, p) {
        QuiescentClaims(w, key, p);
        NothingGone(w.claims, ClaimsOf(w, key, w.servers[key]), Some(w.servers[key].spec.replicas), p.undeletable);
      }
    }
    if Settable(w, key) && Agreed(w, key) && CleanupIdle(w, key, p) {
      AgreedServiceIdle(w, key, p);
      AgreedSetIdle(w, key, p);
      AgreedFinalizersIdle(w, key, p);
    }
  }

  /** So after a pass that asks for no other, a smooth one is idle unless there are orphans left to delete. */
  lemma SecondPassIsIdle(w: World, key: ObjectKey, p: Plan, q: Plan)
    requires key in w.servers && !w.servers[key].deleting && key in w.sets
    requires Reconciled(w, key, p).result == Done && Smooth(q)
    ensures var w' := Reconciled(w, key, p).world;
            key in w'.servers && (Reconciled(w', key, q) == Outcome(w', Done) <==> CleanupIdle(w', key, q))
  {
    DonePassWasSmooth(w, key, p);
    QuiescenceIsAgreement(w, key, p);
    UidKept(w, key, p);
    FixedPointExactly(Reconciled(w, key, p).world, key, q);
  }
}
