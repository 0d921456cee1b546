/** The part of a Kubernetes cluster the operator reads and writes, and the API calls it makes.
    Whether a call fails is decided by the caller's plan; a conflict is a write that fails. */
module Cluster {
  import opened Text
  import opened Lists
  import opened Utils
  import opened Api
  import opened Generators
  import opened Synchronizers
  import opened Credentials
  import RaftGroup

  datatype Claim = Claim(key: ObjectKey, labels: map<string, string>)

  datatype Pod = Pod(server: ObjectKey, ordinal: int)

  /** claims is in the order a List returns them; accepted holds the membership list each pod last took. */
  datatype World = World(servers: map<ObjectKey, Server>, services: map<ObjectKey, Service>,
                         sets: map<ObjectKey, StoredSet>, claims: seq<Claim>,
                         accepted: map<Pod, string>, store: Store)

  /** One raft node agreeing to a membership change asked for with these credentials. */
  datatype Grant = Grant(ordinal: int, username: string, password: string)

  datatype CallResult = Ok | NotFound | Failed

  // ---------------------------------------------------------------- volume claims

  predicate Labelled(c: Claim, namespace: string, app: string, uid: string) {
    && c.key.namespace == namespace
    && "app" in c.labels && c.labels["app"] == app
    && "uid" in c.labels && c.labels["uid"] == uid
  }

  /** The answer to a List in a namespace with the selector app=..., uid=... */
  function Selected(claims: seq<Claim>, namespace: string, app: string, uid: string): seq<Claim> {
    Filter(claims, (c: Claim) => Labelled(c, namespace, app, uid))
  }

  /** The claims left when those under the dead keys are gone; the order stays. */
  function Without(claims: seq<Claim>, dead: set<ObjectKey>): seq<Claim> {
    Filter(claims, (c: Claim) => c.key !in dead)
  }

  lemma WithoutNothing(claims: seq<Claim>, dead: set<ObjectKey>)
    requires forall c :: c in claims ==> c.key !in dead
    ensures Without(claims, dead) == claims
  {
    FilterAll(claims, (c: Claim) => c.key !in dead);
  }

  lemma WithoutTwice(claims: seq<Claim>, a: set<ObjectKey>, b: set<ObjectKey>)
    ensures Without(Without(claims, a), b) == Without(claims, a + b)
  {
    FilterTwice(claims, (c: Claim) => c.key !in a, (c: Claim) => c.key !in b, (c: Claim) => c.key !in a + b);
  }

  /** The claim is to go: any claim, or an orphan of so many replicas. */
  predicate Targeted(c: Claim, orphansOf: Option<int>) {
    orphansOf.Some? ==> IsPVCOrphan(c.key.name, orphansOf.value)
  }

  /** The keys of the listed claims that are to go and can be deleted. */
  function Doomed(list: seq<Claim>, orphansOf: Option<int>, undeletable: set<ObjectKey>): set<ObjectKey> {
    set c | c in list && Targeted(c, orphansOf) && c.key !in undeletable :: c.key
  }

  lemma DoomedSnoc(list: seq<Claim>, item: Claim, orphansOf: Option<int>, undeletable: set<ObjectKey>)
    ensures Doomed(list + [item], orphansOf, undeletable) ==
            if Targeted(item, orphansOf) && item.key !in undeletable then Doomed(list, orphansOf, undeletable) + {item.key}
            else Doomed(list, orphansOf, undeletable)
  {
  }

  /** A listed claim goes exactly when it is targeted and can be deleted. */
  lemma ListedGoes(claims: seq<Claim>, list: seq<Claim>, c: Claim, orphansOf: Option<int>, undeletable: set<ObjectKey>)
    requires c in list && c in claims && forall d :: d in list && d.key == c.key ==> d == c
    ensures c !in Without(claims, Doomed(list, orphansOf, undeletable)) <==> Targeted(c, orphansOf) && c.key !in undeletable
  {
  }

  // ---------------------------------------------------------------- stored servers

  /** Writing a server that is being deleted and has no finalizer left removes it. */
  function Stored(servers: map<ObjectKey, Server>, key: ObjectKey, s: Server): map<ObjectKey, Server> {
    if s.deleting && s.finalizers == [] then servers - {key} else servers[key := s]
  }

  /** The nodes of 0..n-1 that grant a change asked for with these credentials now hold the new list. */
  function Accepting(accepted: map<Pod, string>, key: ObjectKey, n: int, list: string,
                     grants: set<Grant>, username: string, password: string): map<Pod, string>
  {
    accepted + map i | 0 <= i < n && Grant(i, username, password) in grants :: Pod(key, i) := list
  }

  predicate AllGrant(n: int, grants: set<Grant>, username: string, password: string) {
    forall i :: 0 <= i < n ==> Grant(i, username, password) in grants
  }

  /** The nodes whose call returned nil in a finished group. */
  function GrantsOf(g: RaftGroup.Group, username: string, password: string): set<Grant>
    requires RaftGroup.Sized(g)
  {
    set i | 0 <= i < g.size && g.nils[i] == 1 :: Grant(i, username, password)
  }

  /** What a pass needs to know of a push: under every schedule the group's Wait returns nil exactly when
      every node 0..n-1 granted the change, and the new list is with those nodes that did. */
  lemma GroupDecidesPush(trace: seq<RaftGroup.Group>, actions: seq<RaftGroup.Action>, n: nat, k: nat,
                         username: string, password: string, accepted: map<Pod, string>, key: ObjectKey, list: string)
    requires RaftGroup.Schedule(trace, actions, n) && k < |trace| && trace[k].waited.Some?
    ensures RaftGroup.Sized(trace[k]) && trace[k].size == n
    ensures trace[k].waited.value == None <==> AllGrant(n, GrantsOf(trace[k], username, password), username, password)
    ensures var after := Accepting(accepted, key, n, list, GrantsOf(trace[k], username, password), username, password);
            && (forall i :: 0 <= i < n && trace[k].nils[i] == 1 ==> Pod(key, i) in after && after[Pod(key, i)] == list)
            && (forall q :: q in accepted && !(q.server == key && 0 <= q.ordinal < n && trace[k].nils[q.ordinal] == 1)
                  ==> q in after && after[q] == accepted[q])
  {
    RaftGroup.WaitNilExactly(trace, actions, n, k);
    var g := trace[k];
    forall i | 0 <= i < n ensures Grant(i, username, password) in GrantsOf(g, username, password) <==> g.nils[i] == 1 {
    }
  }

  /** Conversely every plan stands for a schedule: one whose Wait returns what the pass is told, and whose
      nil calls leave the nodes with the lists the pass leaves them with. */
  lemma PlanHasSchedule(n: nat, grants: set<Grant>, username: string, password: string,
                        accepted: map<Pod, string>, key: ObjectKey, list: string)
    returns (trace: seq<RaftGroup.Group>, actions: seq<RaftGroup.Action>)
    ensures RaftGroup.Schedule(trace, actions, n)
    ensures var g := trace[|actions|];
            && RaftGroup.Sized(g) && g.waited.Some?
            && (g.waited.value == None <==> AllGrant(n, grants, username, password))
            && Accepting(accepted, key, n, list, GrantsOf(g, username, password), username, password)
               == Accepting(accepted, key, n, list, grants, username, password)
  {
    var good := set i: nat | i < n && Grant(i, username, password) in grants;
    trace, actions := RaftGroup.EveryOutcomeHappens(n, good);
    GroupDecidesPush(trace, actions, n, |actions|, username, password, accepted, key, list);
    var g := trace[|actions|];
    forall i: int | 0 <= i < n
      ensures Grant(i, username, password) in GrantsOf(g, username, password) <==> Grant(i, username, password) in grants
    {
      assert i in good <==> Grant(i, username, password) in grants;
    }
  }

  // ---------------------------------------------------------------- the API server

  class ApiServer {
    var world: World

    constructor (w: World)
      ensures world == w
    {
      world := w;
    }

    method GetServer(key: ObjectKey, fails: bool) returns (r: CallResult, s: SeataServer?)
      ensures r == if fails then Failed else if key !in world.servers then NotFound else Ok
      ensures r == Ok ==> s != null && fresh(s) && fresh(s.replicas) && s.key == key && s.Value() == world.servers[key]
    {
      if fails { return Failed, null; }
      if key !in world.servers { return NotFound, null; }
      s := new SeataServer(key, world.servers[key]);
      r := Ok;
    }

    /** Update of the resource itself: spec and finalizers are taken, the stored status is kept. */
    method UpdateServer(s: SeataServer, fails: bool) returns (r: CallResult)
      requires s.key in world.servers && world.servers[s.key].uid == s.uid
      requires world.servers[s.key].deleting == s.deleting
      modifies this, s, s.replicas
      ensures r == if fails then Failed else Ok
      ensures r == Failed ==> world == old(world) && s.Value() == old(s.Value())
      ensures r == Ok ==>
                var next := old(s.Value()).(status := old(world).servers[s.key].status);
                world == old(world).(servers := Stored(old(world).servers, s.key, next)) && s.Value() == next
    {
      if fails { return Failed; }
      var next := s.Value().(status := world.servers[s.key].status);
      world := world.(servers := Stored(world.servers, s.key, next));
      s.Decode(next);
      r := Ok;
    }

    /** Update of the status subresource: only the status is taken. */
    method UpdateStatus(s: SeataServer, fails: bool) returns (r: CallResult)
      requires s.key in world.servers && world.servers[s.key].uid == s.uid
      modifies this, s, s.replicas
      ensures r == if fails then Failed else Ok
      ensures r == Failed ==> world == old(world) && s.Value() == old(s.Value())
      ensures r == Ok ==>
                var next := old(world).servers[s.key].(status := old(s.status));
                world == old(world).(servers := old(world).servers[s.key := next]) && s.Value() == next
    {
      if fails { return Failed; }
      var next := world.servers[s.key].(status := s.status);
      world := world.(servers := world.servers[s.key := next]);
      s.Decode(next);
      r := Ok;
    }

    method GetService(key: ObjectKey, fails: bool) returns (r: CallResult, found: HeadlessService?)
      ensures r == if fails then Failed else if key !in world.services then NotFound else Ok
      ensures r == Ok ==> found != null && fresh(found) && found.key == key && found.Value() == world.services[key]
    {
      if fails { return Failed, null; }
      if key !in world.services { return NotFound, null; }
      found := new HeadlessService(key, world.services[key]);
      r := Ok;
    }

    method WriteService(svc: HeadlessService, fails: bool) returns (r: CallResult)
      modifies this
      ensures r == if fails then Failed else Ok
      ensures world == if fails then old(world) else old(world).(services := old(world).services[svc.key := svc.Value()])
    {
      if fails { return Failed; }
      world := world.(services := world.services[svc.key := svc.Value()]);
      r := Ok;
    }

    method GetStatefulSet(key: ObjectKey, fails: bool) returns (r: CallResult, found: StatefulSet?)
      ensures r == if fails then Failed else if key !in world.sets then NotFound else Ok
      ensures r == Ok ==> found != null && fresh(found) && fresh(found.replicas)
                          && found.key == key && found.Value() == world.sets[key]
    {
      if fails { return Failed, null; }
      if key !in world.sets { return NotFound, null; }
      var t := world.sets[key];
      var cell := new ReplicaCell(t.replicas);
      found := new StatefulSet(key, t.template, cell, t.serviceName, t.claimLabels, t.claim, t.podReplicas, t.readyReplicas);
      r := Ok;
    }

    /** Create or Update; the answer is decoded into the object, through the replicas pointer it holds. */
    method WriteStatefulSet(sts: StatefulSet, fails: bool) returns (r: CallResult)
      modifies this, sts.replicas
      ensures r == if fails then Failed else Ok
      ensures sts.Value() == old(sts.Value()) && sts.replicas.value == old(sts.replicas.value)
      ensures world == if fails then old(world) else old(world).(sets := old(world).sets[sts.key := sts.Value()])
    {
      if fails { return Failed; }
      var stored := sts.Value();
      world := world.(sets := world.sets[sts.key := stored]);
      sts.replicas.value := stored.replicas;
      r := Ok;
    }

    method ListClaims(namespace: string, app: string, uid: string, fails: bool) returns (r: CallResult, list: seq<Claim>)
      ensures r == if fails then Failed else Ok
      ensures list == if fails then [] else Selected(world.claims, namespace, app, uid)
    {
      if fails { return Failed, []; }
      return Ok, Selected(world.claims, namespace, app, uid);
    }

    method DeleteClaim(key: ObjectKey, fails: bool) returns (r: CallResult)
      modifies this
      ensures r == if fails then Failed else if forall c :: c in old(world).claims ==> c.key != key then NotFound else Ok
      ensures world == if fails then old(world) else old(world).(claims := Without(old(world).claims, {key}))
    {
      if fails { return Failed; }
      if forall c :: c in world.claims ==> c.key != key {
        WithoutNothing(world.claims, {key});
        return NotFound;
      }
      world := world.(claims := Without(world.claims, {key}));
      r := Ok;
    }

    /** What a membership push leaves behind, in whatever order its goroutines ran (GroupDecidesPush, PlanHasSchedule). */
    method SyncRaftCluster(s: SeataServer, grants: set<Grant>, username: string, password: string) returns (ok: bool)
      modifies this
      ensures ok == AllGrant(s.replicas.value, grants, username, password)
      ensures world == old(world).(accepted := Accepting(old(world).accepted, s.key, s.replicas.value,
                         MemberListOf(s.key, s.SpecValue()), grants, username, password))
    {
      var n := s.replicas.value;
      world := world.(accepted := Accepting(world.accepted, s.key, n, MemberListOf(s.key, s.SpecValue()), grants, username, password));
      ok := AllGrant(n, grants, username, password);
    }
  }
}
