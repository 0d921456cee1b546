/** Whose pods a headless Service selects, and which Service governs a StatefulSet: what was so when a pass
    created them, whoever uses or edits what later. */
module SharedService {
  import opened Api
  import opened Generators
  import opened Cluster
  import opened Pass
  import opened Runs
  import opened Settling

  function ServiceKey(key: ObjectKey, s: Spec): ObjectKey {
    ObjectKey(key.namespace, s.serviceName)
  }

  /** The server's Service is there and selects the pods of the server's own StatefulSet. */
  predicate SelectsOwnPods(w: World, key: ObjectKey) {
    && key in w.servers && key in w.sets
    && var at := ServiceKey(key, w.servers[key].spec);
       at in w.services && w.services[at].crName == w.sets[key].template.crName
  }

  // ---------------------------------------------------------------- one pass

  /** A pass leaves every Service it finds with its selector; one it creates selects its server's pods. */
  lemma PassKeepsSelectors(w: World, key: ObjectKey, p: Plan, at: ObjectKey)
    ensures var services := Reconciled(w, key, p).world.services;
            && (at in w.services ==> at in services && services[at].crName == w.services[at].crName)
            && (at !in w.services && at in services ==> services[at].crName == key.name)
  {
    if !p.getServerFails && Settable(w, key) {
      var s := Loaded(w, key);
      var service := ServiceStep(w, key, s, p);
      ServiceStepFrame(w, key, s, p);
      if service.ok {
        var second := SetStep(service.world, key, s, p);
        SetStepFrame(service.world, key, s, p);
        if second.ok {
          LoadedOutcome(w, key, p);
          FinalizerStepFrame(second.world, key, second.server, p);
        }
      }
    }
  }

  /** The server's StatefulSet exists, and a pass over it asks for no other. */
  predicate Quiescent(w: World, key: ObjectKey, p: Plan) {
    key in w.servers && !w.servers[key].deleting && key in w.sets && Reconciled(w, key, p).result == Done
  }

  /** After a quiescent pass the Service selects the server's own pods exactly if the pass created it, or it
      already did. Agreement does not include it. */
  lemma QuiescentServiceSelectsExactly(w: World, key: ObjectKey, p: Plan)
    requires Quiescent(w, key, p)
    ensures Agreed(Reconciled(w, key, p).world, key)
    ensures var at := ServiceKey(key, w.servers[key].spec);
            SelectsOwnPods(Reconciled(w, key, p).world, key) <==> at !in w.services || w.services[at].crName == key.name
  {
    QuiescenceIsAgreement(w, key, p);
    UidKept(w, key, p);
    PassKeepsSelectors(w, key, p, ServiceKey(key, w.servers[key].spec));
  }

  // ---------------------------------------------------------------- runs

  /** Nobody but the reconciler touches the Service. */
  predicate Untouched(events: seq<Event>, at: ObjectKey) {
    forall n :: 0 <= n < |events| ==> !(events[n].ServiceChanged? && events[n].key == at)
  }

  /** No run changes what a Service selects, unless somebody else touches the Service. */
  lemma {:induction false} SelectorStays(w: World, events: seq<Event>, at: ObjectKey)
    requires at in w.services && Untouched(events, at)
    ensures at in Run(w, events).services && Run(w, events).services[at].crName == w.services[at].crName
  {
    if events != [] {
      var n := |events| - 1;
      SelectorStays(w, events[..n], at);
      if events[n].PassRuns? {
        PassKeepsSelectors(Run(w, events[..n]), events[n].key, events[n].plan, at);
      }
    }
  }

  /** A Service that a pass of the first server creates selects that server's pods for good. */
  lemma CreatorIsServed(w: World, first: ObjectKey, p: Plan, events: seq<Event>, at: ObjectKey)
    requires at !in w.services && at in Reconciled(w, first, p).world.services && Untouched(events, at)
    ensures var v := Run(Reconciled(w, first, p).world, events); at in v.services && v.services[at].crName == first.name
  {
    PassKeepsSelectors(w, first, p, at);
    SelectorStays(Reconciled(w, first, p).world, events, at);
  }

  /** Two servers of one namespace with the same service name, as by default: once a pass of the first has
      created the Service, no quiescent pass of the second ever finds its own pods selected. */
  lemma SecondServerUnserved(w: World, first: ObjectKey, p: Plan, events: seq<Event>, v: World, second: ObjectKey, q: Plan)
    requires first != second && first.namespace == second.namespace
    requires v == Run(Reconciled(w, first, p).world, events) && Quiescent(v, second, q)
    requires var at := ServiceKey(second, v.servers[second].spec);
             at !in w.services && at in Reconciled(w, first, p).world.services && Untouched(events, at)
    ensures Agreed(Reconciled(v, second, q).world, second) && !SelectsOwnPods(Reconciled(v, second, q).world, second)
  {
    CreatorIsServed(w, first, p, events, ServiceKey(second, v.servers[second].spec));
    QuiescentServiceSelectsExactly(v, second, q);
  }

  // ---------------------------------------------------------------- the governing Service of a StatefulSet

  /** The parts of a StatefulSet that merging does not reach. */
  predicate SameIdentity(a: StoredSet, b: StoredSet) {
    a.serviceName == b.serviceName && a.claimLabels == b.claimLabels && a.claim == b.claim
  }

  /** The StatefulSets found are there with what they were, and a new one is this server's, as asked for. */
  predicate IdentityKept(w: World, key: ObjectKey, s: Server, sets: map<ObjectKey, StoredSet>, at: ObjectKey) {
    && (at in w.sets ==> at in sets && SameIdentity(w.sets[at], sets[at]))
    && (at !in w.sets && at in sets ==> at == key && SameIdentity(sets[at], SetFor(key, s.uid, s.spec)))
  }

  /** The StatefulSets after the second step. */
  lemma SetStepSets(w: World, key: ObjectKey, s: Server, p: Plan)
    requires key in w.servers
    ensures SetStep(w, key, s, p).world.sets ==
            if p.ownSetFails || p.getSetFails || p.writeSetFails then w.sets
            else w.sets[key := if key in w.sets then UpdatedSet(w.sets[key], key, s.spec) else SetFor(key, s.uid, s.spec)]
  {
  }

  lemma SetStepKeepsIdentity(w: World, key: ObjectKey, s: Server, p: Plan, at: ObjectKey)
    requires key in w.servers
    ensures IdentityKept(w, key, s, SetStep(w, key, s, p).world.sets, at)
  {
    SetStepSets(w, key, s, p);
  }

  lemma SettledKeepsIdentity(w: World, key: ObjectKey, p: Plan, at: ObjectKey)
    requires Settable(w, key) && !p.getServerFails
    ensures IdentityKept(w, key, Loaded(w, key), Reconciled(w, key, p).world.sets, at)
  {
    var s := Loaded(w, key);
    var service := ServiceStep(w, key, s, p);
    ServiceStepFrame(w, key, s, p);
    if service.ok {
      var second := SetStep(service.world, key, s, p);
      SetStepFrame(service.world, key, s, p);
      SetStepKeepsIdentity(service.world, key, s, p, at);
      if second.ok {
        LoadedOutcome(w, key, p);
        FinalizerStepFrame(second.world, key, second.server, p);
      }
    }
  }

  /** A pass leaves every StatefulSet it finds with its governing Service and claim template; one it creates
      has those of the spec. */
  lemma PassKeepsIdentity(w: World, key: ObjectKey, p: Plan, at: ObjectKey)
    ensures if key in w.servers then IdentityKept(w, key, Loaded(w, key), Reconciled(w, key, p).world.sets, at)
            else Reconciled(w, key, p).world.sets == w.sets
  {
    if !p.getServerFails && Settable(w, key) {
      SettledKeepsIdentity(w, key, p, at);
    }
  }

  /** No run changes them, unless somebody deletes the StatefulSet. */
  lemma {:induction false} IdentityStays(w: World, events: seq<Event>, at: ObjectKey)
    requires at in w.sets
    requires forall n :: 0 <= n < |events| ==> !(events[n].SetDeleted? && events[n].key == at)
    ensures at in Run(w, events).sets && SameIdentity(w.sets[at], Run(w, events).sets[at])
  {
    if events != [] {
      var n := |events| - 1;
      IdentityStays(w, events[..n], at);
      if events[n].PassRuns? {
        PassKeepsIdentity(Run(w, events[..n]), events[n].key, events[n].plan, at);
      }
    }
  }

  /** So after a quiescent pass the Service that governs the StatefulSet is the one in the spec exactly if it
      already was. Agreement does not include it. */
  lemma QuiescentSetGovernedExactly(w: World, key: ObjectKey, p: Plan)
    requires Quiescent(w, key, p)
    ensures var w' := Reconciled(w, key, p).world;
            && Agreed(w', key)
            && (w'.sets[key].serviceName == w'.servers[key].spec.serviceName <==>
                w.sets[key].serviceName == w.servers[key].spec.serviceName)
  {
    QuiescenceIsAgreement(w, key, p);
    UidKept(w, key, p);
    PassKeepsIdentity(w, key, p, key);
  }

  /** An edit of the service name: the cluster settles with pods that go by the new Service in a StatefulSet
      that is governed by another. */
  lemma ServiceEditSplits(w: World, key: ObjectKey, service: string, p: Plan)
    requires key in w.servers && key in w.sets && w.sets[key].serviceName != service
    requires Quiescent(After(w, SpecEdited(key, w.servers[key].spec.(serviceName := service))), key, p)
    ensures var edited := After(w, SpecEdited(key, w.servers[key].spec.(serviceName := service)));
            var w' := Reconciled(edited, key, p).world;
            Agreed(w', key) && w'.sets[key].template.seataIp.suffix == "." + service && w'.sets[key].serviceName != service
  {
    var edited := After(w, SpecEdited(key, w.servers[key].spec.(serviceName := service)));
    QuiescentSetGovernedExactly(edited, key, p);
    UidKept(edited, key, p);
  }
}
