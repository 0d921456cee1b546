/** What a pass answers, in every case: done, again at once, again later, or an error. */
module Results {
  import opened Api
  import opened Cluster
  import opened Pass
  import opened Runs
  import opened Defaulting
  import opened FinalizerProtocol
  import opened PassLog
  import opened Truth

  /** For a server that is not there: an error exactly if the Get fails, otherwise done; nothing changes. */
  lemma AbsentServer(w: World, key: ObjectKey, p: Plan)
    requires key !in w.servers
    ensures Reconciled(w, key, p).world == w
    ensures Reconciled(w, key, p).result == if p.getServerFails then Error else Done
  {
  }

  /** The result of every pass: an error exactly for a fault; again at once exactly when the defaults were stored;
      again later exactly when the flag is not set at the end; and otherwise done. */
  lemma ResultExactly(w: World, key: ObjectKey, p: Plan)
    ensures Reconciled(w, key, p).result == Error <==>
            if key in w.servers then FaultOf(w, key, p) != NoFault else p.getServerFails
    ensures Reconciled(w, key, p).result == Requeue <==>
            key in w.servers && DefaultsPending(w.servers[key].spec) && FaultOf(w, key, p) == NoFault
    ensures Reconciled(w, key, p).result == RequeueAfter <==>
            && key in w.servers && !DefaultsPending(w.servers[key].spec) && FaultOf(w, key, p) == NoFault
            && !MatterAfter(w, key, p).synchronized
  {
    if key in w.servers {
      PassLogs(w, key, p);
      if Reconciled(w, key, p).result in {Done, RequeueAfter} {
        ResultTells(w, key, p);
      } else if Reconciled(w, key, p).result == Requeue {
        RequeueStoresDefaults(w, key, p);
      }
    } else {
      AbsentServer(w, key, p);
    }
  }

  /** A pass asks to be run again only for a server that is there. */
  lemma AgainNeedsServer(w: World, key: ObjectKey, p: Plan)
    ensures Reconciled(w, key, p).result in {Requeue, RequeueAfter} ==> key in w.servers
  {
    ResultExactly(w, key, p);
  }

  /** Nobody creates a server under this key. */
  predicate NotCreated(events: seq<Event>, key: ObjectKey) {
    forall n :: 0 <= n < |events| ==> !(events[n].ServerCreated? && events[n].key == key)
  }

  lemma AbsentStays(w: World, e: Event, key: ObjectKey)
    requires key !in w.servers && !(e.ServerCreated? && e.key == key)
    ensures key !in After(w, e).servers
  {
    if e.PassRuns? {
      PassElsewhere(w, e.key, e.plan);
      if e.key == key { AbsentServer(w, key, e.plan); }
    }
  }

  /** Over every run: a server that is gone stays gone until it is created anew, and every pass for it whose Get
      succeeds is done and changes nothing. */
  lemma {:induction false} GoneForGood(w: World, events: seq<Event>, key: ObjectKey, p: Plan)
    requires key !in w.servers && NotCreated(events, key)
    ensures key !in Run(w, events).servers
    ensures !p.getServerFails ==> Reconciled(Run(w, events), key, p) == Outcome(Run(w, events), Done)
  {
    if events != [] {
      var n := |events| - 1;
      GoneForGood(w, events[..n], key, p);
      AbsentStays(Run(w, events[..n]), events[n], key);
    }
    AbsentServer(Run(w, events), key, p);
  }

  /** So the pass that lets a server go is the last that does anything for it. */
  lemma ReleaseEndsIt(w: World, key: ObjectKey, p: Plan, events: seq<Event>, q: Plan)
    requires key in w.servers && LetsGo(w, key, p) && NotCreated(events, key) && !q.getServerFails
    ensures var v := Run(Reconciled(w, key, p).world, events); Reconciled(v, key, q) == Outcome(v, Done)
  {
    ServerGoesExactly(w, key, p);
    GoneForGood(Reconciled(w, key, p).world, events, key, q);
  }
}
