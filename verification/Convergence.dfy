/** With a fixed spec, repeated passes reach one that asks for no other, however the pods come up in between
    and whatever fails, if only finitely often. */
module Convergence {
  import opened Api
  import opened Cluster
  import opened Pass
  import opened Runs
  import opened Settling
  import opened Truth
  import opened Defaulting

  /** From a to b is a move towards n, by any number of pods or none, not passing n. */
  predicate Toward(a: int, b: int, n: int) {
    a <= b <= n || n <= b <= a
  }

  /** Between two passes the server is left alone, the pods of its StatefulSet come or go towards its
      replicas, and nodes known to be in step keep their lists; the rest may change in any way. */
  predicate Between(w: World, w': World, key: ObjectKey) {
    && key in w.servers && key in w'.servers && w'.servers[key] == w.servers[key]
    && (key in w.sets <==> key in w'.sets)
    && (key in w.sets ==>
          && w'.sets[key] == w.sets[key].(podReplicas := w'.sets[key].podReplicas, readyReplicas := w'.sets[key].readyReplicas)
          && Toward(w.sets[key].readyReplicas, w'.sets[key].readyReplicas, w.sets[key].replicas))
    && (w.servers[key].status.synchronized ==>
          forall q :: q in w.accepted && q.server == key ==> q in w'.accepted && w'.accepted[q] == w.accepted[q])
  }

  /** A live server to be brought to at least one replica. Its flag is not set, or truthful, though perhaps for
      another size than the one now asked for. */
  predicate Awaiting(w: World, key: ObjectKey) {
    key in w.servers && !w.servers[key].deleting && w.servers[key].spec.replicas >= 1 && Truthful(w, key)
  }

  function Asked(w: World, key: ObjectKey): int {
    if key in w.sets then w.sets[key].replicas else 0
  }

  /** While the flag is set for another size than asked for, a pass that writes the StatefulSet gets its status
      written. */
  predicate Paired(w: World, key: ObjectKey, p: Plan) {
    key in w.servers && w.servers[key].status.synchronized && Asked(w, key) != w.servers[key].spec.replicas ==>
      (p.writeStatusFails ==> p.writeSetFails)
  }

  function Ready(w: World, key: ObjectKey): int {
    if key in w.sets then w.sets[key].readyReplicas else 0
  }

  function Apart(a: int, b: int): nat {
    if a < b then b - a else a - b
  }

  /** How far the ready count, or the count the StatefulSet steers it to, is from the one asked for. */
  function Gap(w: World, key: ObjectKey): nat
    requires key in w.servers
  {
    var n := w.servers[key].spec.replicas;
    if Apart(Ready(w, key), n) < Apart(Asked(w, key), n) then Apart(Asked(w, key), n) else Apart(Ready(w, key), n)
  }

  /** The measure: one for a pending defaulting, and one for every pod of the gap. */
  function Remaining(w: World, key: ObjectKey): nat
    requires key in w.servers
  {
    Gap(w, key) + if DefaultsPending(w.servers[key].spec) then 1 else 0
  }

  /** Something stood in the way of the round: a call of its pass failed; or it was past defaulting, pods were
      missing or too many, and none moved until the next pass; or all were ready, the nodes were to be told,
      and one refused. */
  predicate Hindered(w: World, key: ObjectKey, p: Plan, w': World)
    requires key in w.servers
  {
    || !Smooth(p)
    || (Settable(w, key) &&
          if Ready(w, key) != w.servers[key].spec.replicas then Ready(w', key) == Ready(w, key)
          else !w.servers[key].status.synchronized && !PushGranted(w, key, Loaded(w, key).spec, p))
  }

  // ---------------------------------------------------------------- one round

  /** When a pass in which no call fails is the last: exactly when all replicas are ready and the nodes were told
      before or take the list now; or, with no StatefulSet there yet, when the flag is wrongly set. */
  lemma SmoothPassDoneExactly(w: World, key: ObjectKey, p: Plan)
    requires Smooth(p) && Settable(w, key) && !w.servers[key].deleting
    ensures var flag := w.servers[key].status.synchronized;
            var last := if key !in w.sets then flag
                        else w.sets[key].readyReplicas == w.servers[key].spec.replicas
                             && (flag || PushGranted(w, key, Loaded(w, key).spec, p));
            Reconciled(w, key, p).result == if last then Done else RequeueAfter
  {
    SmoothPassResult(w, key, p);
  }

  lemma PassKeepsAwaiting(w: World, key: ObjectKey, p: Plan)
    requires Awaiting(w, key) && Paired(w, key, p)
    ensures Awaiting(Reconciled(w, key, p).world, key)
    ensures Reconciled(w, key, p).world.servers[key].spec.replicas == w.servers[key].spec.replicas
  {
    LiveServerStays(w, key, p);
    PassMatter(w, key, p);
    TruthfulAfterPassExactly(w, key, p);
  }

  /** A pass does not widen the gap, and past a write of the StatefulSet the pods are steered to the right count. */
  lemma PassKeepsGap(w: World, key: ObjectKey, p: Plan)
    requires Awaiting(w, key) && key in Reconciled(w, key, p).world.servers
    ensures var v := Reconciled(w, key, p).world;
            && Gap(v, key) <= Gap(w, key) && Ready(v, key) == Ready(w, key)
            && (WritesSet(w, key, p) ==> Asked(v, key) == v.servers[key].spec.replicas)
  {
    PassMatter(w, key, p);
  }

  lemma BetweenKeepsAwaiting(v: World, w': World, key: ObjectKey)
    requires Awaiting(v, key) && Between(v, w', key)
    ensures Awaiting(w', key)
  {
  }

  lemma BetweenClosesGap(v: World, w': World, key: ObjectKey)
    requires Between(v, w', key)
    ensures Gap(w', key) <= Gap(v, key)
    ensures Asked(v, key) == v.servers[key].spec.replicas && Ready(w', key) != Ready(v, key) ==> Gap(w', key) < Gap(v, key)
  {
  }

  lemma PassKeepsPending(w: World, key: ObjectKey, p: Plan)
    requires key in w.servers && key in Reconciled(w, key, p).world.servers
    ensures !Settable(Reconciled(w, key, p).world, key) ==> !Settable(w, key) && Reconciled(w, key, p).result != Requeue
    ensures Reconciled(w, key, p).result == Requeue ==> !Settable(w, key)
  {
    if Settable(w, key) { PassKeepsSettable(w, key, p); }
    if Reconciled(w, key, p).result == Requeue { RequeueStoresDefaults(w, key, p); }
  }

  /** A pass that is not hindered is the last, or stores the defaults, or leaves pods to be waited for. */
  lemma UnhinderedPass(w: World, key: ObjectKey, p: Plan, w': World)
    requires Awaiting(w, key) && !Hindered(w, key, p, w')
    ensures if !Settable(w, key) then Reconciled(w, key, p).result == Requeue
            else WritesSet(w, key, p)
                 && (Reconciled(w, key, p).result == Done
                     || (Ready(w, key) != w.servers[key].spec.replicas && Ready(w', key) != Ready(w, key)))
  {
    if Settable(w, key) {
      SmoothPassDoneExactly(w, key, p);
    }
  }

  /** A round keeps the server on its way, and one that is not hindered brings the end nearer or is the last. */
  lemma Round(w: World, key: ObjectKey, p: Plan, w': World)
    requires Awaiting(w, key) && Paired(w, key, p) && Between(Reconciled(w, key, p).world, w', key)
    ensures Awaiting(Reconciled(w, key, p).world, key) && Awaiting(w', key) && Remaining(w', key) <= Remaining(w, key)
    ensures Reconciled(w, key, p).result != Done && !Hindered(w, key, p, w') ==> Remaining(w', key) < Remaining(w, key)
  {
    var o := Reconciled(w, key, p);
    PassKeepsAwaiting(w, key, p);
    BetweenKeepsAwaiting(o.world, w', key);
    PassKeepsGap(w, key, p);
    PassKeepsPending(w, key, p);
    BetweenClosesGap(o.world, w', key);
    if !Hindered(w, key, p, w') {
      UnhinderedPass(w, key, p, w');
    }
  }

  // ---------------------------------------------------------------- whole runs

  /** Worlds before passes 0, 1, ..., and the world after the last round; any call of any pass may fail. */
  predicate Rounds(ws: seq<World>, ps: seq<Plan>, key: ObjectKey) {
    && |ws| == |ps| + 1
    && forall n :: 0 <= n < |ps| ==>
         key in ws[n].servers && Paired(ws[n], key, ps[n]) && Between(Reconciled(ws[n], key, ps[n]).world, ws[n + 1], key)
  }

  /** Which rounds are hindered. */
  function HinderedRounds(ws: seq<World>, ps: seq<Plan>, key: ObjectKey): seq<bool>
    requires Rounds(ws, ps, key)
  {
    seq(|ps|, n requires 0 <= n < |ps| => Hindered(ws[n], key, ps[n], ws[n + 1]))
  }

  /** What remains before each round, and after the last. */
  function RemainingRounds(ws: seq<World>, key: ObjectKey): seq<nat> {
    seq(|ws|, n requires 0 <= n < |ws| => if key in ws[n].servers then Remaining(ws[n], key) else 0)
  }

  /** Which passes ask for no other. */
  function DoneRounds(ws: seq<World>, ps: seq<Plan>, key: ObjectKey): seq<bool>
    requires |ws| == |ps| + 1
  {
    seq(|ps|, n requires 0 <= n < |ps| => Reconciled(ws[n], key, ps[n]).result == Done)
  }

  /** The pass ends with neither requeue nor error, the cluster then agrees with the spec, and the nodes hold
      the membership list. */
  predicate Settled(w: World, key: ObjectKey, p: Plan) {
    var o := Reconciled(w, key, p);
    o.result == Done && Agreed(o.world, key) && Truthful(o.world, key)
  }

  /** A pass that ends so cannot have begun without the StatefulSet. */
  lemma DoneSettles(w: World, key: ObjectKey, p: Plan)
    requires Awaiting(w, key) && Paired(w, key, p) && Reconciled(w, key, p).result == Done
    ensures Settled(w, key, p)
  {
    ResultTells(w, key, p);
    QuiescenceIsAgreement(w, key, p);
    PassKeepsAwaiting(w, key, p);
  }

  /** One round of many. */
  lemma RoundAt(ws: seq<World>, ps: seq<Plan>, key: ObjectKey, n: nat)
    requires Rounds(ws, ps, key) && n < |ps| && Awaiting(ws[n], key)
    ensures Awaiting(ws[n + 1], key) && Remaining(ws[n + 1], key) <= Remaining(ws[n], key)
    ensures Reconciled(ws[n], key, ps[n]).result == Done ==> Settled(ws[n], key, ps[n])
    ensures Reconciled(ws[n], key, ps[n]).result != Done && !Hindered(ws[n], key, ps[n], ws[n + 1]) ==>
              Remaining(ws[n + 1], key) < Remaining(ws[n], key)
  {
    Round(ws[n], key, ps[n], ws[n + 1]);
    if Reconciled(ws[n], key, ps[n]).result == Done {
      DoneSettles(ws[n], key, ps[n]);
    }
  }

  lemma {:induction false} AllAwaiting(ws: seq<World>, ps: seq<Plan>, key: ObjectKey, n: nat)
    requires Rounds(ws, ps, key) && n <= |ps| && Awaiting(ws[0], key)
    ensures Awaiting(ws[n], key)
  {
    if n > 0 {
      AllAwaiting(ws, ps, key, n - 1);
      RoundAt(ws, ps, key, n - 1);
    }
  }

  /** How often true occurs from there on. */
  function Count(flags: seq<bool>, from: nat): nat
    requires from <= |flags|
    decreases |flags| - from
  {
    if from == |flags| then 0 else Count(flags, from + 1) + if flags[from] then 1 else 0
  }

  /** This never grows, and shrinks wherever nothing hinders it and it is not done. */
  predicate Descending(remaining: seq<nat>, hindered: seq<bool>, done: seq<bool>) {
    && |remaining| == |hindered| + 1 && |done| == |hindered|
    && forall n :: 0 <= n < |done| ==>
         remaining[n + 1] <= remaining[n] && (done[n] || hindered[n] || remaining[n + 1] < remaining[n])
  }

  /** So it is done in time. */
  lemma {:induction false} Countdown(remaining: seq<nat>, hindered: seq<bool>, done: seq<bool>, from: nat) returns (n: nat)
    requires Descending(remaining, hindered, done) && from <= |done|
    requires |done| - from > remaining[from] + Count(hindered, from)
    ensures from <= n < |done| && n - from <= remaining[from] + Count(hindered, from) && done[n]
    ensures forall m :: from <= m < n ==> !done[m]
    decreases |done| - from
  {
    if done[from] {
      n := from;
    } else {
      n := Countdown(remaining, hindered, done, from + 1);
    }
  }

  lemma DescendsAt(ws: seq<World>, ps: seq<Plan>, key: ObjectKey, n: nat)
    requires Rounds(ws, ps, key) && Awaiting(ws[0], key) && n < |ps|
    ensures var remaining := RemainingRounds(ws, key);
            && remaining[n + 1] <= remaining[n]
            && (DoneRounds(ws, ps, key)[n] || HinderedRounds(ws, ps, key)[n] || remaining[n + 1] < remaining[n])
  {
    AllAwaiting(ws, ps, key, n);
    RoundAt(ws, ps, key, n);
  }

  lemma Descends(ws: seq<World>, ps: seq<Plan>, key: ObjectKey)
    requires Rounds(ws, ps, key) && Awaiting(ws[0], key)
    ensures Descending(RemainingRounds(ws, key), HinderedRounds(ws, ps, key), DoneRounds(ws, ps, key))
  {
    forall n: nat | n < |ps|
      ensures RemainingRounds(ws, key)[n + 1] <= RemainingRounds(ws, key)[n]
      ensures DoneRounds(ws, ps, key)[n] || HinderedRounds(ws, ps, key)[n]
              || RemainingRounds(ws, key)[n + 1] < RemainingRounds(ws, key)[n]
    {
      DescendsAt(ws, ps, key, n);
    }
  }

  lemma DoneRoundSettles(ws: seq<World>, ps: seq<Plan>, key: ObjectKey, n: nat)
    requires Rounds(ws, ps, key) && Awaiting(ws[0], key) && n < |ps| && DoneRounds(ws, ps, key)[n]
    ensures Settled(ws[n], key, ps[n])
  {
    AllAwaiting(ws, ps, key, n);
    RoundAt(ws, ps, key, n);
  }

  /** Convergence with an explicit bound: among the first Remaining + hindered rounds + 1 passes one settles, and
      every pass before it fails or asks to be run again. So the operator gets there without further events,
      unless calls keep failing, pods standing still or nodes refusing. */
  lemma Converges(ws: seq<World>, ps: seq<Plan>, key: ObjectKey) returns (n: nat)
    requires Rounds(ws, ps, key) && Awaiting(ws[0], key)
    requires |ps| > RemainingRounds(ws, key)[0] + Count(HinderedRounds(ws, ps, key), 0)
    ensures n < |ps| && n <= RemainingRounds(ws, key)[0] + Count(HinderedRounds(ws, ps, key), 0)
    ensures Settled(ws[n], key, ps[n])
    ensures forall m :: 0 <= m < n ==> !DoneRounds(ws, ps, key)[m]
  {
    Descends(ws, ps, key);
    n := Countdown(RemainingRounds(ws, key), HinderedRounds(ws, ps, key), DoneRounds(ws, ps, key), 0);
    DoneRoundSettles(ws, ps, key, n);
  }
}
