/** pkg/webhook/validating_webhook.go: the eight validators and ValidateSeataServer. */
module Webhook {
  import opened Text
  import opened Utils
  import opened Api
  import opened Credentials
  import opened Regex
  import opened Names
  import opened ImageReference

  datatype Invalid =
    | NilServer
    | ServiceNameEmpty | ServiceNameNotLabel | ServiceNameTooLong
    | TooFewReplicas | TooManyReplicas
    | ImageEmpty | ImageMalformed
    | ServicePortRange | ConsolePortRange | RaftPortRange | PortsNotDifferent
    | StorageMissing | StorageTooSmall | StorageTooLarge
    | NegativeQuantity(resource: string) | CpuLimitBelowRequest | MemoryLimitBelowRequest
    | PolicyUnknown
    | EnvNameInvalid(name: string) | EnvNameTooLong(name: string)

  const MAX_STORAGE: int := 1000 * GI

  // ---------------------------------------------------------------- what the validators ask for

  predicate GoodPort(p: int) {
    1 <= p <= 65535
  }

  predicate GoodPorts(p: Ports) {
    && GoodPort(p.servicePort) && GoodPort(p.consolePort) && GoodPort(p.raftPort)
    && p.servicePort != p.consolePort && p.servicePort != p.raftPort && p.consolePort != p.raftPort
  }

  predicate GoodStorage(p: Persistence) {
    STORAGE in p.claim.requests && GI <= p.claim.requests[STORAGE] <= MAX_STORAGE
  }

  predicate NoneNegative(quantities: map<string, int>) {
    forall r :: r in quantities ==> quantities[r] >= 0
  }

  function Quantity(quantities: map<string, int>, name: string): int {
    if name in quantities then quantities[name] else 0
  }

  /** A limit, when both are set, is no lower than the request. */
  predicate LimitCovers(r: Resources, name: string) {
    Quantity(r.requests, name) != 0 && Quantity(r.limits, name) != 0 ==> Quantity(r.limits, name) >= Quantity(r.requests, name)
  }

  predicate GoodResources(r: Resources) {
    NoneNegative(r.requests) && NoneNegative(r.limits) && LimitCovers(r, "cpu") && LimitCovers(r, "memory")
  }

  predicate GoodPolicy(policy: string) {
    policy in {"", RETAIN, DELETE}
  }

  predicate GoodEnvName(name: string) {
    name != [] && EnvHead(name[0]) && All(EnvTail, name) && |name| <= 250
  }

  predicate GoodEnv(env: seq<EnvVar>) {
    forall i :: 0 <= i < |env| ==> GoodEnvName(env[i].name)
  }

  /** The image is the print of components, optional tag and optional digest. */
  ghost predicate GoodImage(image: string) {
    exists r :: WellFormed(r) && Print(r) == image
  }

  /** A specification the webhook is to let through. */
  ghost predicate Valid(s: Spec) {
    && IsLabel(s.serviceName) && 1 <= s.replicas <= 1000 && GoodImage(s.image) && GoodPorts(s.ports)
    && GoodStorage(s.persistence) && GoodResources(s.resources)
    && GoodPolicy(s.persistence.volumeReclaimPolicy) && GoodEnv(s.env)
  }

  /** What a valid specification is, in numbers and characters. */
  lemma ValidSpelledOut(s: Spec)
    ensures IsLabel(s.serviceName) <==>
            && 1 <= |s.serviceName| <= 63 && 'a' <= s.serviceName[0] <= 'z' && s.serviceName[|s.serviceName| - 1] != '-'
            && forall i :: 0 <= i < |s.serviceName| ==>
                 var c := s.serviceName[i]; 'a' <= c <= 'z' || '0' <= c <= '9' || c == '-'
    ensures GoodPorts(s.ports) <==>
            && 1 <= s.ports.servicePort <= 65535 && 1 <= s.ports.consolePort <= 65535 && 1 <= s.ports.raftPort <= 65535
            && s.ports.servicePort != s.ports.consolePort && s.ports.servicePort != s.ports.raftPort
            && s.ports.consolePort != s.ports.raftPort
    ensures GoodStorage(s.persistence) <==>
            "storage" in s.persistence.claim.requests && 1073741824 <= s.persistence.claim.requests["storage"] <= 1073741824000
    ensures GoodResources(s.resources) <==>
            && (forall n :: n in s.resources.requests ==> s.resources.requests[n] >= 0)
            && (forall n :: n in s.resources.limits ==> s.resources.limits[n] >= 0)
            && (forall n :: n in {"cpu", "memory"} && n in s.resources.requests && n in s.resources.limits && s.resources.limits[n] > 0 ==>
                  s.resources.limits[n] >= s.resources.requests[n])
    ensures GoodPolicy(s.persistence.volumeReclaimPolicy) <==> s.persistence.volumeReclaimPolicy in {"", "Retain", "Delete"}
    ensures GoodEnv(s.env) <==>
            forall i :: 0 <= i < |s.env| ==>
              && 1 <= |s.env[i].name| <= 250 && !('0' <= s.env[i].name[0] <= '9')
              && forall j :: 0 <= j < |s.env[i].name| ==>
                   var c := s.env[i].name[j]; 'a' <= c <= 'z' || 'A' <= c <= 'Z' || '0' <= c <= '9' || c == '_'
  {
  }

  /** The pattern accepts an image exactly when it has a reading. */
  lemma ImageLanguage(image: string)
    ensures Matches(IMAGE, image) <==> GoodImage(image)
    ensures GoodImage("") == false
  {
    if Matches(IMAGE, image) {
      var r := AcceptedReads(image);
    }
    if GoodImage(image) {
      var r :| WellFormed(r) && Print(r) == image;
      PrintedAccepted(r);
    }
    forall r | WellFormed(r) ensures Print(r) != "" {
      assert r.components[0] in r.components;
    }
  }

  // ---------------------------------------------------------------- the validators

  /** What an error is about, in the order the validators run. */
  datatype Field = ServiceName | Replicas | Image | PortNumbers | Storage | ResourceAmounts | Policy | Environment

  function FieldOf(e: Invalid): Option<Field> {
    match e
    case NilServer => None
    case ServiceNameEmpty | ServiceNameNotLabel | ServiceNameTooLong => Some(ServiceName)
    case TooFewReplicas | TooManyReplicas => Some(Replicas)
    case ImageEmpty | ImageMalformed => Some(Image)
    case ServicePortRange | ConsolePortRange | RaftPortRange | PortsNotDifferent => Some(PortNumbers)
    case StorageMissing | StorageTooSmall | StorageTooLarge => Some(Storage)
    case NegativeQuantity(_) | CpuLimitBelowRequest | MemoryLimitBelowRequest => Some(ResourceAmounts)
    case PolicyUnknown => Some(Policy)
    case EnvNameInvalid(_) | EnvNameTooLong(_) => Some(Environment)
  }

  /** A validator's verdict: an error, about this field, exactly when the field is bad. */
  predicate Says(e: Option<Invalid>, bad: bool, f: Field) {
    (e.Some? <==> bad) && (e.Some? ==> FieldOf(e.value) == Some(f))
  }

  method ValidateServiceName(name: string) returns (e: Option<Invalid>)
    ensures Says(e, !IsLabel(name), ServiceName)
    ensures e == Some(ServiceNameEmpty) <==> name == ""
    ensures e == Some(ServiceNameTooLong) ==> |name| > 63 && Matches(LABEL, name)
    ensures e == Some(ServiceNameNotLabel) <==> name != "" && !Matches(LABEL, name)
  {
    LabelLanguage(name);
    if name == "" { return Some(ServiceNameEmpty); }
    if !Matches(LABEL, name) { return Some(ServiceNameNotLabel); }
    if |name| > 63 { return Some(ServiceNameTooLong); }
    return None;
  }

  function ValidateReplicas(replicas: int): (e: Option<Invalid>)
    ensures Says(e, !(1 <= replicas <= 1000), Replicas)
    ensures (e == Some(TooFewReplicas) <==> replicas <= 0) && (e == Some(TooManyReplicas) <==> replicas >= 1001)
  {
    if replicas < 1 then Some(TooFewReplicas) else if replicas > 1000 then Some(TooManyReplicas) else None
  }

  method ValidateImage(image: string) returns (e: Option<Invalid>)
    ensures Says(e, !GoodImage(image), Image)
    ensures e == Some(ImageEmpty) <==> image == ""
  {
    ImageLanguage(image);
    if image == "" { return Some(ImageEmpty); }
    if !Matches(IMAGE, image) { return Some(ImageMalformed); }
    return None;
  }

  function ValidateStorage(p: Persistence): (e: Option<Invalid>)
    ensures Says(e, !GoodStorage(p), Storage)
    ensures e == Some(StorageMissing) <==> "storage" !in p.claim.requests
    ensures e == Some(StorageTooSmall) <==> "storage" in p.claim.requests && p.claim.requests["storage"] < 1073741824
    ensures e == Some(StorageTooLarge) <==> "storage" in p.claim.requests && p.claim.requests["storage"] > 1073741824000
  {
    if STORAGE !in p.claim.requests then Some(StorageMissing)
    else if p.claim.requests[STORAGE] < GI then Some(StorageTooSmall)
    else if p.claim.requests[STORAGE] > MAX_STORAGE then Some(StorageTooLarge)
    else None
  }

  function ValidateVolumeReclaimPolicy(policy: string): (e: Option<Invalid>)
    ensures Says(e, !GoodPolicy(policy), Policy)
  {
    if policy == "" then None else if policy != RETAIN && policy != DELETE then Some(PolicyUnknown) else None
  }

  lemma KeyCount(a: int, b: int, c: int)
    ensures |{a, b, c}| == 3 <==> a != b && a != c && b != c
    ensures |{a, b, c}| <= 3
  {
    if a == b { assert {a, b, c} == {a, c}; }
    if a == c { assert {a, b, c} == {a, b}; }
    if b == c { assert {a, b, c} == {a, b}; }
  }

  /** The three ports become keys of one map; fewer than three keys mean a clash. */
  method ValidatePorts(ports: Ports) returns (e: Option<Invalid>)
    ensures Says(e, !GoodPorts(ports), PortNumbers)
    ensures e == Some(ServicePortRange) <==> !GoodPort(ports.servicePort)
    ensures e == Some(ConsolePortRange) <==> GoodPort(ports.servicePort) && !GoodPort(ports.consolePort)
    ensures e == Some(RaftPortRange) <==> GoodPort(ports.servicePort) && GoodPort(ports.consolePort) && !GoodPort(ports.raftPort)
    ensures e == Some(PortsNotDifferent) ==> GoodPort(ports.servicePort) && GoodPort(ports.consolePort) && GoodPort(ports.raftPort)
  {
    if ports.servicePort < 1 || ports.servicePort > 65535 { return Some(ServicePortRange); }
    if ports.consolePort < 1 || ports.consolePort > 65535 { return Some(ConsolePortRange); }
    if ports.raftPort < 1 || ports.raftPort > 65535 { return Some(RaftPortRange); }
    var portMap: map<int, string> := map[];
    portMap := portMap[ports.servicePort := "servicePort"];
    portMap := portMap[ports.consolePort := "consolePort"];
    portMap := portMap[ports.raftPort := "raftPort"];
    assert portMap.Keys == {ports.servicePort, ports.consolePort, ports.raftPort};
    KeyCount(ports.servicePort, ports.consolePort, ports.raftPort);
    if |portMap.Keys| < 3 { return Some(PortsNotDifferent); }
    return None;
  }

  /** The loop over a map of quantities, in whatever order it goes. */
  method ValidateQuantities(quantities: map<string, int>) returns (e: Option<Invalid>)
    ensures e == None <==> NoneNegative(quantities)
    ensures e.Some? ==> e.value.NegativeQuantity? && e.value.resource in quantities && quantities[e.value.resource] < 0
  {
    var left := quantities.Keys;
    while left != {}
      invariant left <= quantities.Keys
      invariant forall r :: r in quantities && r !in left ==> quantities[r] >= 0
      decreases left
    {
      var r :| r in left;
      left := left - {r};
      if quantities[r] < 0 { return Some(NegativeQuantity(r)); }
    }
    return None;
  }

  method ValidateResourceRequirements(r: Resources) returns (e: Option<Invalid>)
    ensures Says(e, !GoodResources(r), ResourceAmounts)
    ensures var sound := NoneNegative(r.requests) && NoneNegative(r.limits);
            && (e == Some(CpuLimitBelowRequest) <==> sound && !LimitCovers(r, "cpu"))
            && (e == Some(MemoryLimitBelowRequest) <==> sound && LimitCovers(r, "cpu") && !LimitCovers(r, "memory"))
    ensures e.Some? && e.value.NegativeQuantity? ==>
              || (e.value.resource in r.requests && r.requests[e.value.resource] < 0)
              || (e.value.resource in r.limits && r.limits[e.value.resource] < 0)
  {
    e := ValidateQuantities(r.requests);
    if e.Some? { return; }
    e := ValidateQuantities(r.limits);
    if e.Some? { return; }
    var cpuRequest, cpuLimit := Quantity(r.requests, "cpu"), Quantity(r.limits, "cpu");
    if cpuRequest != 0 && cpuLimit != 0 && cpuLimit < cpuRequest { return Some(CpuLimitBelowRequest); }
    var memRequest, memLimit := Quantity(r.requests, "memory"), Quantity(r.limits, "memory");
    if memRequest != 0 && memLimit != 0 && memLimit < memRequest { return Some(MemoryLimitBelowRequest); }
    return None;
  }

  function EnvError(name: string): Invalid {
    if Matches(ENV_NAME, name) then EnvNameTooLong(name) else EnvNameInvalid(name)
  }

  /** The first bad name is the one reported. */
  method ValidateEnvironmentVariables(env: seq<EnvVar>) returns (e: Option<Invalid>)
    ensures Says(e, !GoodEnv(env), Environment)
    ensures e.Some? ==> exists i :: 0 <= i < |env| && !GoodEnvName(env[i].name) && GoodEnv(env[..i]) && e.value == EnvError(env[i].name)
    ensures e.Some? && e.value.EnvNameTooLong? ==> |e.value.name| >= 251 && Matches(ENV_NAME, e.value.name)
    ensures e.Some? && e.value.EnvNameInvalid? ==> !Matches(ENV_NAME, e.value.name)
  {
    for i := 0 to |env|
      invariant GoodEnv(env[..i])
    {
      EnvNameLanguage(env[i].name);
      if !Matches(ENV_NAME, env[i].name) { return Some(EnvNameInvalid(env[i].name)); }
      if |env[i].name| > 250 { return Some(EnvNameTooLong(env[i].name)); }
    }
    return None;
  }

  // ---------------------------------------------------------------- the whole validation

  /** The field is listed when it is bad. */
  function Flag(bad: bool, f: Field): seq<Field> {
    if bad then [f] else []
  }

  ghost function BadDeploymentFields(s: Spec): seq<Field> {
    [] + Flag(!IsLabel(s.serviceName), ServiceName) + Flag(!(1 <= s.replicas <= 1000), Replicas)
    + Flag(!GoodImage(s.image), Image) + Flag(!GoodPorts(s.ports), PortNumbers)
  }

  /** The bad fields of a specification, in the order of the validators. */
  ghost function BadFields(s: Spec): seq<Field> {
    BadDeploymentFields(s)
    + Flag(!GoodStorage(s.persistence), Storage) + Flag(!GoodResources(s.resources), ResourceAmounts)
    + Flag(!GoodPolicy(s.persistence.volumeReclaimPolicy), Policy) + Flag(!GoodEnv(s.env), Environment)
  }

  /** One error for each of these fields, in this order. */
  predicate About(errors: seq<Invalid>, fields: seq<Field>) {
    |errors| == |fields| && forall i :: 0 <= i < |errors| ==> FieldOf(errors[i]) == Some(fields[i])
  }

  method Append(errors: seq<Invalid>, e: Option<Invalid>, ghost fields: seq<Field>, ghost bad: bool, ghost f: Field)
    returns (next: seq<Invalid>, ghost nextFields: seq<Field>)
    requires About(errors, fields)
    requires Says(e, bad, f)
    ensures nextFields == fields + Flag(bad, f) && About(next, nextFields)
  {
    nextFields := fields + Flag(bad, f);
    next := if e.Some? then errors + [e.value] else errors;
  }

  lemma NothingBadMeansValid(s: Spec)
    ensures BadFields(s) == [] <==> Valid(s)
  {
  }

  /** The validators of name, replicas, image and ports. */
  method ValidateDeployment(s: Spec) returns (errors: seq<Invalid>)
    ensures About(errors, BadDeploymentFields(s))
  {
    ghost var fields: seq<Field>;
    var e := ValidateServiceName(s.serviceName);
    errors, fields := Append([], e, [], !IsLabel(s.serviceName), ServiceName);
    errors, fields := Append(errors, ValidateReplicas(s.replicas), fields, !(1 <= s.replicas <= 1000), Replicas);
    e := ValidateImage(s.image);
    errors, fields := Append(errors, e, fields, !GoodImage(s.image), Image);
    e := ValidatePorts(s.ports);
    errors, fields := Append(errors, e, fields, !GoodPorts(s.ports), PortNumbers);
  }

  /** The validators of storage, resources, policy and environment. */
  method ValidateRest(s: Spec, before: seq<Invalid>) returns (errors: seq<Invalid>)
    requires About(before, BadDeploymentFields(s))
    ensures About(errors, BadFields(s))
  {
    ghost var fields := BadDeploymentFields(s);
    errors, fields := Append(before, ValidateStorage(s.persistence), fields, !GoodStorage(s.persistence), Storage);
    var e := ValidateResourceRequirements(s.resources);
    errors, fields := Append(errors, e, fields, !GoodResources(s.resources), ResourceAmounts);
    e := ValidateVolumeReclaimPolicy(s.persistence.volumeReclaimPolicy);
    errors, fields := Append(errors, e, fields, !GoodPolicy(s.persistence.volumeReclaimPolicy), Policy);
    e := ValidateEnvironmentVariables(s.env);
    errors, fields := Append(errors, e, fields, !GoodEnv(s.env), Environment);
  }

  /** One error for every field that is not as it should be, in a fixed order; none exactly for the valid. */
  method ValidateSeataServer(server: Option<Spec>) returns (errors: seq<Invalid>)
    ensures server == None ==> errors == [NilServer]
    ensures server.Some? ==> About(errors, BadFields(server.value))
    ensures server.Some? ==> (errors == [] <==> Valid(server.value))
  {
    if server == None { return [NilServer]; }
    var s := server.value;
    errors := ValidateDeployment(s);
    errors := ValidateRest(s, errors);
    NothingBadMeansValid(s);
  }

  // ---------------------------------------------------------------- defaulting and validity

  lemma DefaultServiceIsLabel()
    ensures IsLabel(DEFAULT_SERVICE)
  {
  }

  lemma DefaultImageParts()
    ensures IsComponent("apache") && IsComponent("seata-server")
    ensures IsTag("latest")
  {
  }

  lemma DefaultImageIsGood()
    ensures GoodImage(DEFAULT_IMAGE)
  {
    var components := ["apache", "seata-server"];
    DefaultImageParts();
    assert components[1..] == ["seata-server"];
    assert Join(components[1..], '/') == "seata-server";
    assert Join(components, '/') == "apache/seata-server";
    var r := Reference(components, Some("latest"), None);
    assert forall c :: c in components ==> c == components[0] || c == components[1];
    assert Print(r) == DEFAULT_IMAGE;
  }

  /** Which specifications are valid once defaulted: exactly those whose every field is valid or one that
      defaulting fills in; the reclaim policy may be anything at all. */
  lemma ValidAfterDefaultingExactly(s: Spec)
    ensures Valid(Defaulted(s)) <==>
            && (s.serviceName == "" || IsLabel(s.serviceName))
            && 1 <= s.replicas <= 1000
            && (s.image == "" || GoodImage(s.image))
            && (s.ports == NO_PORTS || GoodPorts(s.ports))
            && (STORAGE !in s.persistence.claim.requests || s.persistence.claim.requests[STORAGE] == 0 || GoodStorage(s.persistence))
            && GoodResources(s.resources) && GoodEnv(s.env)
  {
    DefaultServiceIsLabel();
    DefaultImageIsGood();
  }

  /** Defaulting keeps validity, and of a valid specification changes at most the container name, an empty
      reclaim policy, the access modes and an absent store size. */
  lemma DefaultingPreservesValidity(s: Spec)
    requires Valid(s)
    ensures Valid(Defaulted(s))
    ensures Defaulted(s) == s.(
              containerName := OrDefault(s.containerName, DEFAULT_CONTAINER),
              persistence := Persistence(OrDefault(s.persistence.volumeReclaimPolicy, RETAIN),
                                         s.persistence.claim.(accessModes := [READ_WRITE_ONCE])),
              storeSize := if s.storeSize == None then Some(DEFAULT_STORAGE) else s.storeSize)
  {
    ValidAfterDefaultingExactly(s);
    ImageLanguage(s.image);
  }

  /** A specification with nothing set but a replica count from 1 to 1000 is valid once defaulted. */
  lemma EmptySpecValidOnceDefaulted(replicas: int)
    requires 1 <= replicas <= 1000
    ensures Valid(Defaulted(Spec("", "", [], Resources(map[], map[]), replicas, "", NO_PORTS,
                                 Persistence("", ClaimSpec([], map[])), None)))
  {
    ValidAfterDefaultingExactly(Spec("", "", [], Resources(map[], map[]), replicas, "", NO_PORTS,
                                     Persistence("", ClaimSpec([], map[])), None));
  }

  /** Of a specification the webhook lets through, the nodes can read the whole membership back: one
      address per replica, each giving name, ordinal, service and port, whatever else the name holds. */
  lemma AcceptedMembershipReadsBack(name: string, s: Spec, i: nat)
    requires Valid(s) && Free(name, ',') && i < s.replicas
    ensures var list := Split(MemberList(name, s.replicas, s.serviceName, s.ports.raftPort), ',');
            && |list| == s.replicas
            && ParseAddress(list[i]) == Some(Parsed(name, i, s.serviceName, s.ports.raftPort))
  {
    LabelsAreSeparatorFree(s.serviceName);
    MemberListSplits(name, s.replicas, s.serviceName, s.ports.raftPort);
    AddressReadsBack(name, i, s.serviceName, s.ports.raftPort);
  }

  /** The webhook lets no environment through that names console credentials: for every specification it
      accepts, the operator logs in to the raft nodes with the built-in user and password. */
  lemma AcceptedCredentialsAreFallback(store: Store, namespace: string, s: Spec)
    requires Valid(s)
    ensures Resolved(store, namespace, s.env, USERNAME) == FALLBACK && Resolved(store, namespace, s.env, PASSWORD) == FALLBACK
  {
    forall e | e in s.env ensures e.name != USERNAME && e.name != PASSWORD {
      assert USERNAME[7] == '.' && PASSWORD[7] == '.';
      assert GoodEnvName(e.name);
    }
  }
}
