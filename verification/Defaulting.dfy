/** Defaulting in the reconcile loop: it cannot keep the loop busy, and what it guarantees of volumes. */
module Defaulting {
  import opened Api
  import opened Generators
  import opened Cluster
  import opened Pass
  import opened Runs

  /** A pass that asks to be requeued at once has just stored the defaults, and nothing else has changed. */
  lemma RequeueStoresDefaults(w: World, key: ObjectKey, p: Plan)
    requires Reconciled(w, key, p).result == Requeue
    ensures key in w.servers && DefaultsPending(w.servers[key].spec)
    ensures Reconciled(w, key, p).world == w.(servers := Stored(w.servers, key, Loaded(w, key)))
    ensures key in Reconciled(w, key, p).world.servers ==> Settable(Reconciled(w, key, p).world, key)
  {
    if Settable(w, key) && !p.getServerFails {
      ServiceStepFrame(w, key, Loaded(w, key), p);
    } else if key in w.servers {
      DefaultedIsFixedPoint(w.servers[key].spec);
    }
  }

  lemma SetStepSpec(w: World, key: ObjectKey, s: Server, p: Plan)
    requires key in w.servers && SetStep(w, key, s, p).ok
    ensures SetStep(w, key, s, p).server.spec == s.spec || SetStep(w, key, s, p).server.spec == w.servers[key].spec
  {
    if key in w.sets { UpdateSetStepFrame(w, key, s, p); }
  }

  lemma PassKeepsSettable(w: World, key: ObjectKey, p: Plan)
    requires Settable(w, key)
    ensures key in Reconciled(w, key, p).world.servers ==> Settable(Reconciled(w, key, p).world, key)
  {
    if !p.getServerFails {
      var s := Loaded(w, key);
      var service := ServiceStep(w, key, s, p);
      ServiceStepFrame(w, key, s, p);
      if service.ok {
        var second := SetStep(service.world, key, s, p);
        SetStepFrame(service.world, key, s, p);
        if second.ok {
          SetStepSpec(service.world, key, s, p);
          FinalizerStepFrame(second.world, key, second.server, p);
          LoadedOutcome(w, key, p);
          DefaultedIsFixedPoint(w.servers[key].spec);
        }
      }
    }
  }

  /** Nobody edits this server's spec or creates it anew. */
  predicate Unedited(e: Event, key: ObjectKey) {
    (e.SpecEdited? ==> e.key != key) && (e.ServerCreated? ==> e.key != key)
  }

  lemma EventKeepsSettable(w: World, e: Event, key: ObjectKey)
    requires (key in w.servers ==> Settable(w, key)) && Unedited(e, key)
    ensures key in After(w, e).servers ==> Settable(After(w, e), key)
  {
    if e.PassRuns? {
      PassElsewhere(w, e.key, e.plan);
      if e.key == key && key in w.servers { PassKeepsSettable(w, key, e.plan); }
    }
  }

  /** Once past defaulting a server stays so over every run without edits: no later pass takes the
      defaulting exit, so at most one written pass does. */
  lemma {:induction false} DefaultingHappensOnce(w: World, events: seq<Event>, key: ObjectKey, p: Plan)
    requires key in w.servers ==> Settable(w, key)
    requires forall n :: 0 <= n < |events| ==> Unedited(events[n], key)
    ensures key in Run(w, events).servers ==> Settable(Run(w, events), key)
    ensures Reconciled(Run(w, events), key, p).result != Requeue
  {
    if events != [] {
      var n := |events| - 1;
      var v := Run(w, events[..n]);
      DefaultingHappensOnce(w, events[..n], key, p);
      EventKeepsSettable(v, events[n], key);
    }
    if Reconciled(Run(w, events), key, p).result == Requeue {
      RequeueStoresDefaults(Run(w, events), key, p);
      assert false;
    }
  }

  /** Whatever was stored, a StatefulSet a pass creates asks for ReadWriteOnce volumes of non-zero size,
      labelled with the server's name and uid. */
  lemma CreatedClaimTemplate(w: World, key: ObjectKey, p: Plan)
    requires key !in w.sets && key in Reconciled(w, key, p).world.sets
    ensures key in w.servers
    ensures var t := Reconciled(w, key, p).world.sets[key];
            && t.claim.accessModes == [READ_WRITE_ONCE]
            && STORAGE in t.claim.requests && t.claim.requests[STORAGE] != 0
            && t.claimLabels == ClaimLabels(key.name, w.servers[key].uid)
  {
    if !p.getServerFails && Settable(w, key) {
      var s := Loaded(w, key);
      var service := ServiceStep(w, key, s, p);
      ServiceStepFrame(w, key, s, p);
      if service.ok {
        var second := SetStep(service.world, key, s, p);
        if second.ok {
          FinalizerStepFrame(second.world, key, second.server, p);
          LoadedOutcome(w, key, p);
        }
      }
    }
  }
}
