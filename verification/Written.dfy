/** What a pass that comes to write both objects puts into them, field by field, and what it tells the nodes. */
module Written {
  import opened Text
  import opened Utils
  import opened Api
  import opened Credentials
  import opened Generators
  import opened Cluster
  import opened Pass
  import opened Runs
  import opened Settling
  import opened Truth
  import opened SharedService

  // ---------------------------------------------------------------- the pass as a whole

  lemma StatusLostWrites(w: World, key: ObjectKey, p: Plan)
    requires WritesSet(w, key, p) && !PassesSet(w, key, p)
    ensures var v, w' := ServiceStep(w, key, Loaded(w, key), p).world, Reconciled(w, key, p).world;
            var second := SetStep(v, key, Loaded(w, key), p).world;
            key in v.servers && w'.services == v.services && w'.sets == second.sets && w'.accepted == second.accepted
  {
    ServiceStepFrame(w, key, Loaded(w, key), p);
    SetStepFrame(ServiceStep(w, key, Loaded(w, key), p).world, key, Loaded(w, key), p);
  }

  /** Services are as the first step left them, StatefulSets and nodes as the second did. */
  lemma StepsShow(w: World, key: ObjectKey, p: Plan)
    requires WritesSet(w, key, p)
    ensures var v, w' := ServiceStep(w, key, Loaded(w, key), p).world, Reconciled(w, key, p).world;
            var second := SetStep(v, key, Loaded(w, key), p).world;
            key in v.servers && w'.services == v.services && w'.sets == second.sets && w'.accepted == second.accepted
  {
    if PassesSet(w, key, p) {
      var s := Loaded(w, key);
      var v := ServiceStep(w, key, s, p).world;
      PassesSetExactly(w, key, p);
      ServiceStepFrame(w, key, s, p);
      SetStepFrame(v, key, s, p);
      LoadedOutcome(w, key, p);
      FinalizerStepFrame(SetStep(v, key, s, p).world, key, SetStep(v, key, s, p).server, p);
    } else {
      StatusLostWrites(w, key, p);
    }
  }

  // ---------------------------------------------------------------- ports

  /** Exactly these three named ports. */
  predicate Serves(ports: seq<NamedPort>, p: Ports) {
    && |ports| == 3
    && NamedPort("service-port", p.servicePort) in ports
    && NamedPort("console-port", p.consolePort) in ports
    && NamedPort("raft-port", p.raftPort) in ports
  }

  /** The Service of the spec's name has exactly the spec's ports; a new one selects the server's pods. */
  lemma WrittenService(w: World, key: ObjectKey, p: Plan)
    requires WritesSet(w, key, p)
    ensures var s := Defaulted(w.servers[key].spec);
            var at := ObjectKey(key.namespace, s.serviceName);
            var services := Reconciled(w, key, p).world.services;
            && at in services && Serves(services[at].ports, s.ports)
            && (at !in w.services ==> services[at].crName == key.name)
            && (forall k :: k != at ==> (k in services <==> k in w.services) && (k in services ==> services[k] == w.services[k]))
  {
    StepsShow(w, key, p);
    var s := Defaulted(w.servers[key].spec);
    assert ServiceFor(key, s).ports[0] == NamedPort("service-port", s.ports.servicePort);
    assert ServiceFor(key, s).ports[1] == NamedPort("console-port", s.ports.consolePort);
    assert ServiceFor(key, s).ports[2] == NamedPort("raft-port", s.ports.raftPort);
  }

  // ---------------------------------------------------------------- the StatefulSet

  lemma WrittenSetIs(w: World, key: ObjectKey, p: Plan)
    requires WritesSet(w, key, p)
    ensures var s := Defaulted(w.servers[key].spec);
            var sets := Reconciled(w, key, p).world.sets;
            && key in sets
            && sets[key] == if key in w.sets then UpdatedSet(w.sets[key], key, s) else SetFor(key, w.servers[key].uid, s)
  {
    StepsShow(w, key, p);
    ServiceStepFrame(w, key, Loaded(w, key), p);
    SetStepSets(ServiceStep(w, key, Loaded(w, key), p).world, key, Loaded(w, key), p);
  }

  /** Every field of the stored StatefulSet after the pass: container, image, resources, ports, address
      expression and replicas from the spec; the counts as found; and of a new one the rest too. */
  lemma WrittenSet(w: World, key: ObjectKey, p: Plan)
    requires WritesSet(w, key, p)
    ensures key in Reconciled(w, key, p).world.sets
    ensures var s := Defaulted(w.servers[key].spec);
            var t := Reconciled(w, key, p).world.sets[key];
            && t.template.crName == key.name
            && t.template.containerName == s.containerName && t.template.image == s.image
            && t.template.resources == s.resources && Serves(t.template.ports, s.ports)
            && t.template.seataIp == HostExpression("HOST_NAME", "." + s.serviceName)
            && t.replicas == s.replicas
    ensures var s := Defaulted(w.servers[key].spec);
            var t := Reconciled(w, key, p).world.sets[key];
            if key in w.sets then t == w.sets[key].(template := t.template, replicas := t.replicas)
            else t.serviceName == s.serviceName && t.claim == s.persistence.claim && t.podReplicas == 0 && t.readyReplicas == 0
                 && t.claimLabels == map["app" := key.name, "uid" := w.servers[key].uid]
  {
    WrittenSetIs(w, key, p);
    var s := Defaulted(w.servers[key].spec);
    assert ServiceFor(key, s).ports[0] == NamedPort("service-port", s.ports.servicePort);
    assert ServiceFor(key, s).ports[1] == NamedPort("console-port", s.ports.consolePort);
    assert ServiceFor(key, s).ports[2] == NamedPort("raft-port", s.ports.raftPort);
  }

  /** The pod sees this value under this name exactly if the user has no entry of the name, or the last one
      has the value too. */
  predicate SeesUnlessSpoilt(store: Store, key: ObjectKey, s: Spec, env: seq<EnvVar>, pod: string, name: string, value: string) {
    PodVariable(store, key.namespace, env, name, pod) == Some(value) <==> Unspoilt(store, key, s, name, pod, value)
  }

  lemma SeesOwn(store: Store, key: ObjectKey, s: Spec, pod: string, i: nat, value: string)
    requires i < 5 && PodValue(store, key.namespace, OwnEnv(key, s)[i], pod) == Some(value)
    ensures SeesUnlessSpoilt(store, key, s, BuildEnvVars(key, s), pod, OwnEnv(key, s)[i].name, value)
  {
    LastOfOwn(key, s, i);
  }

  const OWN_NAMES := {"HOST_NAME", "store.mode", "server.port", "server.servicePort", "server.raft.serverAddr"}

  /** The five own entries as the pod sees them, unless spoilt. */
  predicate OwnEntriesSeen(store: Store, key: ObjectKey, s: Spec, env: seq<EnvVar>, pod: string) {
    && SeesUnlessSpoilt(store, key, s, env, pod, "HOST_NAME", pod)
    && SeesUnlessSpoilt(store, key, s, env, pod, "store.mode", "raft")
    && SeesUnlessSpoilt(store, key, s, env, pod, "server.port", DecInt(s.ports.consolePort))
    && SeesUnlessSpoilt(store, key, s, env, pod, "server.servicePort", DecInt(s.ports.servicePort))
    && SeesUnlessSpoilt(store, key, s, env, pod, "server.raft.serverAddr",
                        MemberList(key.name, s.replicas, s.serviceName, s.ports.raftPort))
  }

  lemma BuiltOwnSeen(store: Store, key: ObjectKey, s: Spec, pod: string)
    ensures OwnEntriesSeen(store, key, s, BuildEnvVars(key, s), pod)
  {
    SeesOwn(store, key, s, pod, 0, pod);
    SeesOwn(store, key, s, pod, 1, "raft");
    SeesOwn(store, key, s, pod, 2, DecInt(s.ports.consolePort));
    SeesOwn(store, key, s, pod, 3, DecInt(s.ports.servicePort));
    SeesOwn(store, key, s, pod, 4, MemberListOf(key, s));
  }

  lemma BuiltOthersSeen(key: ObjectKey, s: Spec, name: string)
    requires name !in OWN_NAMES
    ensures LastNamed(BuildEnvVars(key, s), name) == LastNamed(s.env, name)
  {
    LastNamedAppended(OwnEnv(key, s), s.env, name);
  }

  /** What every pod of the stored StatefulSet sees in its environment: the five own entries unless spoilt, and
      under any other name the user's last entry. */
  lemma WrittenEnvironment(w: World, key: ObjectKey, p: Plan, store: Store, pod: string, name: string)
    requires WritesSet(w, key, p)
    ensures key in Reconciled(w, key, p).world.sets
    ensures var env := Reconciled(w, key, p).world.sets[key].template.env;
            && OwnEntriesSeen(store, key, Defaulted(w.servers[key].spec), env, pod)
            && (name !in OWN_NAMES ==> LastNamed(env, name) == LastNamed(w.servers[key].spec.env, name))
  {
    WrittenSetIs(w, key, p);
    BuiltOwnSeen(store, key, Defaulted(w.servers[key].spec), pod);
    if name !in OWN_NAMES {
      BuiltOthersSeen(key, Defaulted(w.servers[key].spec), name);
    }
  }

  // ---------------------------------------------------------------- the push

  /** The value of the last entry of this name, or "seata" if there is none. */
  predicate CredentialIs(store: Store, namespace: string, env: seq<EnvVar>, name: string, value: string) {
    match LastNamed(env, name)
    case None => value == "seata"
    case Some(e) => value == FetchEnvVar(store, namespace, e).value
  }

  /** The credentials the operator has for the server's nodes. */
  predicate LogsInAs(w: World, key: ObjectKey, user: string, password: string) {
    && key in w.servers
    && CredentialIs(w.store, key.namespace, w.servers[key].spec.env, "console.user.username", user)
    && CredentialIs(w.store, key.namespace, w.servers[key].spec.env, "console.user.password", password)
  }

  predicate Told(w: World, key: ObjectKey, p: Plan, user: string, password: string, node: Pod)
    requires key in w.servers && key in w.sets
  {
    && !w.servers[key].status.synchronized && w.sets[key].readyReplicas == w.servers[key].spec.replicas
    && node.server == key && 0 <= node.ordinal < w.servers[key].spec.replicas
    && Grant(node.ordinal, user, password) in p.grants
  }

  lemma WrittenNodes(w: World, key: ObjectKey, p: Plan)
    requires WritesSet(w, key, p)
    ensures Reconciled(w, key, p).world.accepted == SetMatter(w, key, Loaded(w, key), p).accepted
  {
    StepsShow(w, key, p);
    ServiceStepFrame(w, key, Loaded(w, key), p);
    SetStepMatter(ServiceStep(w, key, Loaded(w, key), p).world, key, Loaded(w, key), p);
  }

  /** Which nodes hold the new membership list after a pass that updates the StatefulSet: with the flag not set and
      all replicas ready, those of 0..Replicas-1 that grant it to these credentials. All others keep theirs. */
  lemma PushReaches(w: World, key: ObjectKey, p: Plan, user: string, password: string, node: Pod)
    requires WritesSet(w, key, p) && key in w.sets && LogsInAs(w, key, user, password)
    ensures var s := Defaulted(w.servers[key].spec);
            var accepted := Reconciled(w, key, p).world.accepted;
            if Told(w, key, p, user, password, node) then
              node in accepted && accepted[node] == MemberList(key.name, s.replicas, s.serviceName, s.ports.raftPort)
            else (node in accepted <==> node in w.accepted) && (node in accepted ==> accepted[node] == w.accepted[node])
  {
    WrittenNodes(w, key, p);
  }

  lemma StoppedTellsNobody(w: World, key: ObjectKey, p: Plan)
    requires Settable(w, key) && !p.getServerFails && !WritesSet(w, key, p)
    ensures Reconciled(w, key, p).world.accepted == w.accepted
  {
    ServiceStepFrame(w, key, Loaded(w, key), p);
  }

  /** A pass that does not come to update the StatefulSet tells no node anything. */
  lemma NobodyTold(w: World, key: ObjectKey, p: Plan)
    requires !(WritesSet(w, key, p) && key in w.sets)
    ensures Reconciled(w, key, p).world.accepted == w.accepted
  {
    if WritesSet(w, key, p) {
      WrittenNodes(w, key, p);
    } else if Settable(w, key) && !p.getServerFails {
      StoppedTellsNobody(w, key, p);
    }
  }

  lemma GrantsDecide(w: World, key: ObjectKey, p: Plan, user: string, password: string)
    requires LogsInAs(w, key, user, password)
    ensures PushGranted(w, key, Loaded(w, key).spec, p) <==>
            forall i :: 0 <= i < w.servers[key].spec.replicas ==> Grant(i, user, password) in p.grants
  {
  }

  /** The status after a pass that writes it: the counts as the StatefulSet reports them, ready or not; and the
      flag, cleared while the ready count is not the replica count, else set if it was or every node granted. */
  lemma WrittenStatus(w: World, key: ObjectKey, p: Plan, user: string, password: string)
    requires PassesSet(w, key, p) && key in w.sets && key in Reconciled(w, key, p).world.servers
    requires LogsInAs(w, key, user, password)
    ensures var status, found := Reconciled(w, key, p).world.servers[key].status, w.sets[key];
            var n := w.servers[key].spec.replicas;
            && status.replicas == found.podReplicas && status.readyReplicas == found.readyReplicas
            && (status.synchronized <==>
                  && found.readyReplicas == n
                  && (w.servers[key].status.synchronized || forall i :: 0 <= i < n ==> Grant(i, user, password) in p.grants))
  {
    var s := Loaded(w, key);
    var v := ServiceStep(w, key, s, p).world;
    PassesSetExactly(w, key, p);
    ServiceStepFrame(w, key, s, p);
    UpdateSetStepFrame(v, key, s, p);
    LoadedOutcome(w, key, p);
    var second := SetStep(v, key, s, p);
    FinalizerStepFrame(second.world, key, second.server, p);
    GrantsDecide(w, key, p, user, password);
  }

  /** When a pass without API failures over an existing StatefulSet asks for no other: exactly when all replicas are
      ready and the flag is set or every node grants the list to these credentials. */
  lemma SmoothPassDoneBy(w: World, key: ObjectKey, p: Plan, user: string, password: string)
    requires Smooth(p) && Settable(w, key) && !w.servers[key].deleting && key in w.sets && LogsInAs(w, key, user, password)
    ensures Reconciled(w, key, p).result == Done <==>
            && w.sets[key].readyReplicas == w.servers[key].spec.replicas
            && (w.servers[key].status.synchronized
                || forall i :: 0 <= i < w.servers[key].spec.replicas ==> Grant(i, user, password) in p.grants)
  {
    SmoothPassResult(w, key, p);
    GrantsDecide(w, key, p, user, password);
  }
}
