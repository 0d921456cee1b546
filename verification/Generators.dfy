/** pkg/seata/generators.go: the Service and the StatefulSet a SeataServer asks for. */
module Generators {
  import opened Text
  import opened Utils
  import opened Api
  import opened Credentials

  const HOST_NAME := "HOST_NAME"
  const SERVER_ADDR := "server.raft.serverAddr"
  const POD_NAME_FIELD := "metadata.name"

  datatype NamedPort = NamedPort(name: string, port: int)

  /** The headless Service: the pods it selects by cr_name, and its ports. */
  datatype Service = Service(crName: string, ports: seq<NamedPort>)

  /** A host written as $(variable) followed by fixed text, as the entrypoint script exports it. */
  datatype HostExpression = HostExpression(variable: string, suffix: string)

  datatype Template = Template(crName: string, containerName: string, image: string, seataIp: HostExpression,
                               ports: seq<NamedPort>, resources: Resources, env: seq<EnvVar>)

  /** A StatefulSet as stored: what the operator wrote, and the status the controller reports. */
  datatype StoredSet = StoredSet(template: Template, replicas: int, serviceName: string,
                                 claimLabels: map<string, string>, claim: ClaimSpec,
                                 podReplicas: int, readyReplicas: int)

  /** A StatefulSet in memory; replicas is a pointer, and is shared with whatever it was copied from. */
  class StatefulSet {
    const key: ObjectKey
    const serviceName: string
    const claimLabels: map<string, string>
    const claim: ClaimSpec
    var template: Template
    var replicas: ReplicaCell
    var podReplicas: int
    var readyReplicas: int

    constructor (key: ObjectKey, template: Template, replicas: ReplicaCell, serviceName: string,
                 claimLabels: map<string, string>, claim: ClaimSpec, podReplicas: int, readyReplicas: int)
      ensures this.key == key && this.replicas == replicas
      ensures Value() == StoredSet(template, replicas.value, serviceName, claimLabels, claim, podReplicas, readyReplicas)
    {
      this.key := key;
      this.template := template;
      this.replicas := replicas;
      this.serviceName := serviceName;
      this.claimLabels := claimLabels;
      this.claim := claim;
      this.podReplicas := podReplicas;
      this.readyReplicas := readyReplicas;
    }

    function Value(): StoredSet
      reads this, replicas
    {
      StoredSet(template, replicas.value, serviceName, claimLabels, claim, podReplicas, readyReplicas)
    }
  }

  function ServiceFor(key: ObjectKey, s: Spec): Service {
    Service(key.name, [NamedPort("service-port", s.ports.servicePort),
                       NamedPort("console-port", s.ports.consolePort),
                       NamedPort("raft-port", s.ports.raftPort)])
  }

  function MemberListOf(key: ObjectKey, s: Spec): string {
    MemberList(key.name, s.replicas, s.serviceName, s.ports.raftPort)
  }

  /** The entries the operator always sets. */
  function OwnEnv(key: ObjectKey, s: Spec): (own: seq<EnvVar>)
    ensures |own| == 5
    ensures own[0] == EnvVar(HOST_NAME, "", Some(EnvSource(None, None, Some(POD_NAME_FIELD))))
    ensures own[4] == EnvVar(SERVER_ADDR, MemberListOf(key, s), None)
    ensures |own[0].name| == 9 && |own[1].name| == 10 && |own[2].name| == 11 && |own[3].name| == 18 && |own[4].name| == 22
    ensures |USERNAME| == |PASSWORD| == 21
  {
    [ EnvVar(HOST_NAME, "", Some(EnvSource(None, None, Some(POD_NAME_FIELD)))),
      EnvVar("store.mode", "raft", None),
      EnvVar("server.port", DecInt(s.ports.consolePort), None),
      EnvVar("server.servicePort", DecInt(s.ports.servicePort), None),
      EnvVar(SERVER_ADDR, MemberListOf(key, s), None) ]
  }

  function BuildEnvVars(key: ObjectKey, s: Spec): seq<EnvVar> {
    OwnEnv(key, s) + s.env
  }

  function TemplateFor(key: ObjectKey, s: Spec): Template {
    Template(key.name, s.containerName, s.image, HostExpression(HOST_NAME, "." + s.serviceName),
             ServiceFor(key, s).ports, s.resources, BuildEnvVars(key, s))
  }

  function ClaimLabels(name: string, uid: string): map<string, string> {
    map["app" := name, "uid" := uid]
  }

  function SetFor(key: ObjectKey, uid: string, s: Spec): StoredSet {
    StoredSet(TemplateFor(key, s), s.replicas, s.serviceName, ClaimLabels(key.name, uid), s.persistence.claim, 0, 0)
  }

  /** The desired StatefulSet points at the server's own replica cell. */
  method MakeStatefulSet(s: SeataServer) returns (sts: StatefulSet)
    ensures fresh(sts) && sts.key == s.key && sts.replicas == s.replicas
    ensures sts.Value() == SetFor(s.key, s.uid, s.SpecValue())
  {
    var spec := s.SpecValue();
    sts := new StatefulSet(s.key, TemplateFor(s.key, spec), s.replicas, s.serviceName,
                           ClaimLabels(s.key.name, s.uid), s.persistence.claim, 0, 0);
  }

  // ---------------------------------------------------------------- what the pods see

  /** The value of an environment entry inside the named pod: a literal, the pod's name, or what a
      reference holds. Other fields of the pod, and references that hold nothing, have none here. */
  function PodValue(store: Store, namespace: string, e: EnvVar, podName: string): Option<string> {
    match e.valueFrom
    case None => Some(e.value)
    case Some(source) =>
      if source.fieldPath.Some? then
        if source.fieldPath.value == POD_NAME_FIELD then Some(podName) else None
      else if source.configMapKeyRef.Some? then Referenced(store.configMaps, namespace, source.configMapKeyRef.value)
      else if source.secretKeyRef.Some? then Referenced(store.secrets, namespace, source.secretKeyRef.value)
      else None
  }

  function PodVariable(store: Store, namespace: string, env: seq<EnvVar>, name: string, podName: string): Option<string> {
    match LastNamed(env, name)
    case None => None
    case Some(e) => PodValue(store, namespace, e, podName)
  }

  /** The address a pod announces as its own: SEATA_IP expanded in that pod, and the raft port. */
  function SelfAddress(store: Store, key: ObjectKey, s: Spec, podName: string): Option<string> {
    var t := TemplateFor(key, s);
    match PodVariable(store, key.namespace, t.env, t.seataIp.variable, podName)
    case None => None
    case Some(host) => Some(host + t.seataIp.suffix + ":" + DecInt(s.ports.raftPort))
  }

  /** The membership list a pod is given. */
  function GivenList(store: Store, key: ObjectKey, s: Spec, podName: string): Option<string> {
    PodVariable(store, key.namespace, TemplateFor(key, s).env, SERVER_ADDR, podName)
  }

  function PodName(name: string, i: nat): string {
    name + "-" + Dec(i)
  }

  /** The user has no entry of this name, or the last one has this value in the pod. */
  predicate Unspoilt(store: Store, key: ObjectKey, s: Spec, name: string, podName: string, value: string) {
    match LastNamed(s.env, name)
    case None => true
    case Some(e) => PodValue(store, key.namespace, e, podName) == Some(value)
  }

  /** Of an own entry and a user's of the same name the pod sees the user's; the own names are all different. */
  lemma LastOfOwn(key: ObjectKey, s: Spec, i: nat)
    requires i < 5
    ensures var own := OwnEnv(key, s)[i];
            LastNamed(BuildEnvVars(key, s), own.name) ==
            if LastNamed(s.env, own.name).Some? then LastNamed(s.env, own.name) else Some(own)
  {
    var own := OwnEnv(key, s);
    forall j | i < j < 5 ensures own[j].name != own[i].name {
      assert |own[j].name| != |own[i].name|;
    }
    LastNamedAt(own, i, own[i].name);
    LastNamedAppended(own, s.env, own[i].name);
  }

  lemma LastInPod(key: ObjectKey, s: Spec)
    ensures LastNamed(BuildEnvVars(key, s), HOST_NAME) ==
            if LastNamed(s.env, HOST_NAME).Some? then LastNamed(s.env, HOST_NAME) else Some(OwnEnv(key, s)[0])
    ensures LastNamed(BuildEnvVars(key, s), SERVER_ADDR) ==
            if LastNamed(s.env, SERVER_ADDR).Some? then LastNamed(s.env, SERVER_ADDR) else Some(OwnEnv(key, s)[4])
  {
    LastOfOwn(key, s, 0);
    LastOfOwn(key, s, 4);
  }

  /** Two hosts under one suffix and port make one address only if they are the same. */
  lemma HostsTell(a: string, b: string, suffix: string, port: string)
    ensures a + suffix + ":" + port == b + suffix + ":" + port <==> a == b
  {
    var s, t := a + suffix + ":" + port, b + suffix + ":" + port;
    assert s[..|a|] == a && t[..|b|] == b;
  }

  lemma AddressOfPod(name: string, i: nat, service: string, port: int)
    ensures Address(name, i, service, port) == PodName(name, i) + ("." + service) + ":" + DecInt(port)
  {
  }

  /** What a pod announces is decided by its HOST_NAME. */
  lemma SelfAddressTells(store: Store, key: ObjectKey, s: Spec, podName: string, host: string)
    ensures SelfAddress(store, key, s, podName) == Some(host + ("." + s.serviceName) + ":" + DecInt(s.ports.raftPort))
            <==> PodVariable(store, key.namespace, BuildEnvVars(key, s), HOST_NAME, podName) == Some(host)
  {
    var own := PodVariable(store, key.namespace, BuildEnvVars(key, s), HOST_NAME, podName);
    if own.Some? {
      HostsTell(own.value, host, "." + s.serviceName, DecInt(s.ports.raftPort));
    }
  }

  /** A pod announces the address its peers know it by exactly if the user has no HOST_NAME entry, or one
      that has the pod's own name as its value. */
  lemma SelfAddressExactly(store: Store, key: ObjectKey, s: Spec, i: nat)
    ensures SelfAddress(store, key, s, PodName(key.name, i)) == Some(Address(key.name, i, s.serviceName, s.ports.raftPort))
            <==> Unspoilt(store, key, s, HOST_NAME, PodName(key.name, i), PodName(key.name, i))
  {
    LastInPod(key, s);
    AddressOfPod(key.name, i, s.serviceName, s.ports.raftPort);
    SelfAddressTells(store, key, s, PodName(key.name, i), PodName(key.name, i));
  }

  /** A pod is given the operator's membership list exactly if the user has no entry of that name, or one
      that has the list as its value. */
  lemma GivenListExactly(store: Store, key: ObjectKey, s: Spec, podName: string)
    ensures GivenList(store, key, s, podName) == Some(MemberListOf(key, s))
            <==> Unspoilt(store, key, s, SERVER_ADDR, podName, MemberListOf(key, s))
  {
    LastInPod(key, s);
  }

  /** Then every pod finds its own address, and it alone, at its own place in the list it is given. */
  lemma SelfAddressIsMember(store: Store, key: ObjectKey, s: Spec, i: nat)
    requires i < s.replicas && Free(key.name, ',') && Free(s.serviceName, ',')
    requires var pod := PodName(key.name, i);
             Unspoilt(store, key, s, HOST_NAME, pod, pod) && Unspoilt(store, key, s, SERVER_ADDR, pod, MemberListOf(key, s))
    ensures var pod := PodName(key.name, i);
            var list := GivenList(store, key, s, pod);
            && list.Some? && |Split(list.value, ',')| == s.replicas
            && forall j :: 0 <= j < s.replicas ==> (SelfAddress(store, key, s, pod) == Some(Split(list.value, ',')[j]) <==> j == i)
  {
    SelfAddressExactly(store, key, s, i);
    GivenListExactly(store, key, s, PodName(key.name, i));
    MemberListSplits(key.name, s.replicas, s.serviceName, s.ports.raftPort);
  }

  /** The entry has the same value in every pod. */
  predicate Shared(e: EnvVar) {
    e.valueFrom.Some? ==> e.valueFrom.value.fieldPath != Some(POD_NAME_FIELD)
  }

  /** A literal of the user's that is not the pod's name, or not the list, breaks the one or the other. */
  lemma LiteralOverridesBreak(store: Store, key: ObjectKey, s: Spec, i: nat, other: string)
    ensures s.env == [EnvVar(HOST_NAME, other, None)] && other != PodName(key.name, i) ==>
              && SelfAddress(store, key, s, PodName(key.name, i)).Some?
              && SelfAddress(store, key, s, PodName(key.name, i)) != Some(Address(key.name, i, s.serviceName, s.ports.raftPort))
    ensures s.env == [EnvVar(SERVER_ADDR, other, None)] && other != MemberListOf(key, s) ==>
              GivenList(store, key, s, PodName(key.name, i)) == Some(other) != Some(MemberListOf(key, s))
  {
    SelfAddressExactly(store, key, s, i);
    LastInPod(key, s);
    if |s.env| == 1 {
      LastNamedAt(s.env, 0, s.env[0].name);
    }
  }

  /** So a HOST_NAME of the user's that is not the pod's name field is wrong in all pods but at most one. */
  lemma SharedHostNameFitsOnePod(store: Store, key: ObjectKey, s: Spec, i: nat, j: nat)
    requires LastNamed(s.env, HOST_NAME).Some? && Shared(LastNamed(s.env, HOST_NAME).value) && i != j
    ensures SelfAddress(store, key, s, PodName(key.name, i)) != Some(Address(key.name, i, s.serviceName, s.ports.raftPort))
         || SelfAddress(store, key, s, PodName(key.name, j)) != Some(Address(key.name, j, s.serviceName, s.ports.raftPort))
  {
    SelfAddressExactly(store, key, s, i);
    SelfAddressExactly(store, key, s, j);
    if PodName(key.name, i) == PodName(key.name, j) {
      assert PodName(key.name, i)[|key.name| + 1..] == Dec(i) && PodName(key.name, j)[|key.name| + 1..] == Dec(j);
      DecReadsBack(i);
      DecReadsBack(j);
    }
  }

  lemma SizesDiffer(key: ObjectKey, s: Spec, m: int)
    requires Free(key.name, ',') && Free(s.serviceName, ',') && Free(s.serviceName, '.') && IsInt32(s.ports.raftPort)
    requires s.replicas >= 1 && m != s.replicas
    ensures MemberListOf(key, s) != MemberListOf(key, s.(replicas := m))
  {
    if MemberListOf(key, s) == MemberListOf(key, s.(replicas := m)) {
      MemberListDetermines(key.name, s.replicas, s.serviceName, s.ports.raftPort, key.name, m, s.serviceName, s.ports.raftPort);
    }
  }

  /** And a membership list of the user's is right for at most one replica count, so scaling makes it wrong. */
  lemma SharedListFitsOneSize(store: Store, key: ObjectKey, s: Spec, m: int, podName: string)
    requires LastNamed(s.env, SERVER_ADDR).Some? && Shared(LastNamed(s.env, SERVER_ADDR).value)
    requires Free(key.name, ',') && Free(s.serviceName, ',') && Free(s.serviceName, '.') && IsInt32(s.ports.raftPort)
    requires s.replicas >= 1 && m != s.replicas
    ensures GivenList(store, key, s, podName) != Some(MemberListOf(key, s))
         || GivenList(store, key, s.(replicas := m), podName) != Some(MemberListOf(key, s.(replicas := m)))
  {
    GivenListExactly(store, key, s, podName);
    GivenListExactly(store, key, s.(replicas := m), podName);
    SizesDiffer(key, s, m);
  }

  /** The credentials the operator logs in with come from the very entry the pods see last. */
  lemma CredentialEntryIsThePods(key: ObjectKey, s: Spec, name: string)
    requires name == USERNAME || name == PASSWORD
    ensures LastNamed(BuildEnvVars(key, s), name) == LastNamed(s.env, name)
  {
    LastNamedAppended(OwnEnv(key, s), s.env, name);
  }
}
