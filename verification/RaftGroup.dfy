/** SyncRaftCluster of pkg/seata/synchronizers.go as an interleaved protocol: one goroutine per ordinal
    under an errgroup whose first error cancels the context they all look at before they call out. */
module RaftGroup {
  import opened Text

  datatype CallError = Cancelled | CallFailed(code: int)

  /** Where a goroutine is: not begun, begun, past the cancellation check, in its call, back with a result
      it has not handed to the group yet, finished. */
  datatype Phase = Unborn | Born | Passed | Calling | Returned(error: Option<CallError>) | Finished(error: Option<CallError>)

  /** calls counts the changeCluster calls of each ordinal, nils how many of them returned nil; reports
      lists, in order, what goroutines handed to the group's once-only error slot. */
  datatype Group = Group(size: nat, spawned: nat, phases: seq<Phase>, calls: seq<nat>, nils: seq<nat>,
                         reports: seq<(nat, CallError)>, error: Option<CallError>,
                         parentCancelled: bool, childCancelled: bool, waited: Option<Option<CallError>>)

  function Start(size: nat): Group {
    Group(size, 0, seq(size, _ => Unborn), seq(size, _ => 0), seq(size, _ => 0), [], None, false, false, None)
  }

  /** What a scheduler can let happen next. */
  datatype Action =
    | Spawn                                       // the loop starts the next goroutine
    | Check(i: nat)                               // goroutine i looks at its context
    | Call(i: nat)                                // having found it alive, it calls changeCluster
    | Answer(i: nat, error: Option<CallError>)    // changeCluster returns
    | Report(i: nat)                              // its result reaches the group
    | CancelParent                                // the caller's context ends
    | WaitReturns                                 // every goroutine is done

  predicate Enabled(g: Group, a: Action) {
    match a
    case Spawn => g.spawned < g.size && g.waited == None
    case Check(i) => i < |g.phases| && g.phases[i] == Born
    case Call(i) => i < |g.phases| && g.phases[i] == Passed
    case Answer(i, error) => i < |g.phases| && g.phases[i] == Calling
    case Report(i) => i < |g.phases| && g.phases[i].Returned?
    case CancelParent => !g.parentCancelled
    case WaitReturns => g.spawned == g.size && g.waited == None && forall i :: 0 <= i < |g.phases| ==> g.phases[i].Finished?
  }

  predicate Sized(g: Group) {
    |g.phases| == |g.calls| == |g.nils| == g.size && g.spawned <= g.size
  }

  function Step(g: Group, a: Action): Group
    requires Sized(g) && Enabled(g, a)
  {
    match a
    case Spawn => g.(spawned := g.spawned + 1, phases := g.phases[g.spawned := Born])
    case Check(i) => g.(phases := g.phases[i := if g.childCancelled then Returned(Some(Cancelled)) else Passed])
    case Call(i) => g.(phases := g.phases[i := Calling], calls := g.calls[i := g.calls[i] + 1])
    case Answer(i, error) =>
      g.(phases := g.phases[i := Returned(error)], nils := if error == None then g.nils[i := g.nils[i] + 1] else g.nils)
    case Report(i) =>
      var next := g.(phases := g.phases[i := Finished(g.phases[i].error)]);
      if g.phases[i].error == None then next
      else
        next.(reports := g.reports + [(i, g.phases[i].error.value)],
              error := if g.error == None then g.phases[i].error else g.error,
              childCancelled := true)
    case CancelParent => g.(parentCancelled := true, childCancelled := true)
    case WaitReturns => g.(waited := Some(g.error))
  }

  // ---------------------------------------------------------------- what every reachable state keeps

  /** One goroutine's phase tells how often it called and whether a call returned nil. */
  predicate Counted(phase: Phase, calls: nat, nils: nat) {
    match phase
    case Unborn => calls == 0 && nils == 0
    case Born => calls == 0 && nils == 0
    case Passed => calls == 0 && nils == 0
    case Calling => calls == 1 && nils == 0
    case Returned(error) => calls <= 1 && nils == (if error == None then 1 else 0) && nils <= calls
    case Finished(error) => calls <= 1 && nils == (if error == None then 1 else 0) && nils <= calls
  }

  predicate Goroutines(g: Group)
    requires Sized(g)
  {
    forall i :: 0 <= i < g.size ==> Counted(g.phases[i], g.calls[i], g.nils[i]) && (g.phases[i].Unborn? <==> i >= g.spawned)
  }

  /** The reports are exactly the errors of the finished goroutines. */
  predicate Reports(g: Group)
    requires Sized(g)
  {
    && (forall r :: r in g.reports ==> r.0 < g.size && g.phases[r.0] == Finished(Some(r.1)))
    && (forall i: nat :: i < g.size && g.phases[i].Finished? && g.phases[i].error.Some? ==> (i, g.phases[i].error.value) in g.reports)
  }

  predicate Slot(g: Group) {
    && g.error == (if g.reports == [] then None else Some(g.reports[0].1))
    && (g.childCancelled <==> g.parentCancelled || g.reports != [])
  }

  predicate AfterWait(g: Group)
    requires Sized(g)
  {
    g.waited.Some? ==> g.waited == Some(g.error) && g.spawned == g.size && forall i :: 0 <= i < g.size ==> g.phases[i].Finished?
  }

  predicate Inv(g: Group) {
    Sized(g) && Goroutines(g) && Reports(g) && Slot(g) && AfterWait(g)
  }

  lemma ReportsKept(g: Group, a: Action)
    requires Inv(g) && Enabled(g, a)
    ensures Reports(Step(g, a))
  {
    var h := Step(g, a);
    if a.Report? && g.phases[a.i].error.Some? {
      assert h.reports[..|g.reports|] == g.reports;
      assert h.reports[|g.reports|] == (a.i, g.phases[a.i].error.value);
    }
  }

  lemma GoroutinesKept(g: Group, a: Action)
    requires Inv(g) && Enabled(g, a)
    ensures Sized(Step(g, a)) && Goroutines(Step(g, a)) && AfterWait(Step(g, a))
  {
  }

  lemma SlotKept(g: Group, a: Action)
    requires Inv(g) && Enabled(g, a)
    ensures Slot(Step(g, a))
  {
  }

  lemma StepKeepsInv(g: Group, a: Action)
    requires Inv(g) && Enabled(g, a)
    ensures Inv(Step(g, a)) && Step(g, a).size == g.size
  {
    ReportsKept(g, a);
    GoroutinesKept(g, a);
    SlotKept(g, a);
  }

  /** A schedule: the states it passes through, each by an enabled action. */
  predicate Schedule(trace: seq<Group>, actions: seq<Action>, size: nat) {
    && |trace| == |actions| + 1 && trace[0] == Start(size)
    && forall n :: 0 <= n < |actions| ==>
         Sized(trace[n]) && Enabled(trace[n], actions[n]) && trace[n + 1] == Step(trace[n], actions[n])
  }

  lemma {:induction false} ReachableInv(trace: seq<Group>, actions: seq<Action>, size: nat, n: nat)
    requires Schedule(trace, actions, size) && n < |trace|
    ensures Inv(trace[n]) && trace[n].size == size
  {
    if n > 0 {
      ReachableInv(trace, actions, size, n - 1);
      StepKeepsInv(trace[n - 1], actions[n - 1]);
    }
  }

  // ---------------------------------------------------------------- the result, over every schedule

  /** Whatever the schedule, and even if the caller's context is cancelled meanwhile: nobody is called
      twice; and when Wait has returned, it returned nil if and only if the call of every ordinal
      0..size-1 was made and returned nil, and otherwise the error that was reported first. */
  lemma WaitNilExactly(trace: seq<Group>, actions: seq<Action>, size: nat, n: nat)
    requires Schedule(trace, actions, size) && n < |trace|
    ensures Sized(trace[n]) && trace[n].size == size
    ensures forall i :: 0 <= i < size ==> trace[n].calls[i] <= 1 && trace[n].nils[i] <= trace[n].calls[i]
    ensures trace[n].waited.Some? ==>
              && (trace[n].waited.value == None <==> forall i :: 0 <= i < size ==> trace[n].nils[i] == 1)
              && (trace[n].waited.value.Some? ==> trace[n].reports != [] && trace[n].waited.value.value == trace[n].reports[0].1)
  {
    ReachableInv(trace, actions, size, n);
    var g := trace[n];
    forall i | 0 <= i < size ensures g.calls[i] <= 1 && g.nils[i] <= g.calls[i] {
      assert Counted(g.phases[i], g.calls[i], g.nils[i]);
    }
    if g.waited.Some? && g.reports != [] {
      var first := g.reports[0];
      assert first in g.reports;
      assert Counted(g.phases[first.0], g.calls[first.0], g.nils[first.0]);
      assert g.nils[first.0] == 0;
    }
    if g.waited.Some? && g.reports == [] {
      forall i: nat | i < size ensures g.nils[i] == 1 {
        assert g.phases[i].Finished? && Counted(g.phases[i], g.calls[i], g.nils[i]);
      }
    }
  }

  /** Reports only grow, so the first stays the first. */
  lemma {:induction false} FirstReportStays(trace: seq<Group>, actions: seq<Action>, size: nat, m: nat, n: nat)
    requires Schedule(trace, actions, size) && m <= n < |trace| && trace[m].reports != []
    ensures trace[n].reports != [] && trace[n].reports[0] == trace[m].reports[0]
  {
    if m < n {
      FirstReportStays(trace, actions, size, m, n - 1);
    }
  }

  /** From one moment to a later one ordinal i was not called, or it was on the strength of a check passed before. */
  predicate LateAtMost(g: Group, h: Group, i: nat)
    requires Sized(g) && Sized(h) && i < g.size == h.size
  {
    && (h.calls[i] == g.calls[i] || (g.phases[i] == Passed && g.calls[i] == 0 && h.calls[i] == 1))
    && (h.phases[i] == Passed ==> g.phases[i] == Passed && h.calls[i] == g.calls[i])
  }

  lemma CancelledStep(g: Group, a: Action, i: nat)
    requires Inv(g) && Enabled(g, a) && g.childCancelled && i < g.size
    ensures Sized(Step(g, a)) && Step(g, a).childCancelled && Step(g, a).size == g.size && LateAtMost(g, Step(g, a), i)
  {
    assert Counted(g.phases[i], g.calls[i], g.nils[i]);
  }

  lemma LateStep(trace: seq<Group>, actions: seq<Action>, size: nat, n: nat, i: nat)
    requires Schedule(trace, actions, size) && n < |actions| && trace[n].childCancelled && i < size
    ensures Sized(trace[n]) && Sized(trace[n + 1]) && trace[n].size == trace[n + 1].size == size
    ensures trace[n + 1].childCancelled && LateAtMost(trace[n], trace[n + 1], i)
  {
    ReachableInv(trace, actions, size, n);
    CancelledStep(trace[n], actions[n], i);
  }

  /** What a cancellation stops: after it an ordinal is called only if its goroutine had already found
      the context alive, and then at most once. */
  lemma {:induction false} CalledAfterCancel(trace: seq<Group>, actions: seq<Action>, size: nat, m: nat, n: nat, i: nat)
    requires Schedule(trace, actions, size) && m <= n < |trace| && trace[m].childCancelled && i < size
    ensures Sized(trace[m]) && Sized(trace[n]) && trace[m].size == trace[n].size == size
    ensures trace[n].childCancelled && LateAtMost(trace[m], trace[n], i)
  {
    if m == n {
      ReachableInv(trace, actions, size, m);
    } else {
      CalledAfterCancel(trace, actions, size, m, n - 1, i);
      LateStep(trace, actions, size, n - 1, i);
    }
  }

  /** It does not stop those: whenever a goroutine has passed the check, the schedule can go on with its
      call, cancelled or not. So a cancellation keeps an ordinal from being called exactly when its
      goroutine has not passed the check. */
  lemma PassedMayStillCall(trace: seq<Group>, actions: seq<Action>, size: nat, i: nat)
    requires Schedule(trace, actions, size) && i < size
    requires Sized(trace[|actions|]) && trace[|actions|].size == size && trace[|actions|].phases[i] == Passed
    ensures var next := Step(trace[|actions|], Call(i));
            Schedule(trace + [next], actions + [Call(i)], size) && next.calls[i] == trace[|actions|].calls[i] + 1
  {
  }

  /** Such a schedule: the caller's context ends between the check and the call of the only goroutine. */
  lemma CancelledYetCalled() returns (trace: seq<Group>, actions: seq<Action>)
    ensures Schedule(trace, actions, 1) && |trace| == 5
    ensures trace[3].childCancelled && trace[3].calls == [0] && trace[4].calls == [1]
  {
    actions := [Spawn, Check(0), CancelParent, Call(0)];
    var s0 := Start(1);
    var s1 := Step(s0, Spawn);
    var s2 := Step(s1, Check(0));
    var s3 := Step(s2, CancelParent);
    trace := [s0, s1, s2, s3, Step(s3, Call(0))];
  }

  // ---------------------------------------------------------------- it comes to an end

  function Left(phase: Phase): nat {
    match phase
    case Unborn => 5
    case Born => 4
    case Passed => 3
    case Calling => 2
    case Returned(_) => 1
    case Finished(_) => 0
  }

  function Work(phases: seq<Phase>): nat {
    if phases == [] then 0 else Work(phases[..|phases| - 1]) + Left(phases[|phases| - 1])
  }

  /** Steps the group can still make, each action using up at least one. */
  function Measure(g: Group): nat {
    Work(g.phases) + (if g.parentCancelled then 0 else 1) + (if g.waited == None then 1 else 0)
  }

  lemma {:induction false} WorkUpdated(phases: seq<Phase>, i: nat, phase: Phase)
    requires i < |phases|
    ensures Work(phases[i := phase]) == Work(phases) - Left(phases[i]) + Left(phase)
  {
    var n := |phases| - 1;
    if i < n {
      assert phases[i := phase][..n] == phases[..n][i := phase];
      WorkUpdated(phases[..n], i, phase);
    } else {
      assert phases[i := phase][..n] == phases[..n];
    }
  }

  lemma PhaseProgress(g: Group, a: Action)
    requires Sized(g) && Enabled(g, a) && !a.CancelParent? && !a.WaitReturns?
    requires a.Spawn? ==> g.phases[g.spawned] == Unborn
    ensures Work(Step(g, a).phases) < Work(g.phases)
  {
    var i := if a.Spawn? then g.spawned else a.i;
    WorkUpdated(g.phases, i, Step(g, a).phases[i]);
  }

  /** Every action brings the end nearer: no schedule goes on for ever. */
  lemma ActionsProgress(g: Group, a: Action)
    requires Inv(g) && Enabled(g, a)
    ensures Measure(Step(g, a)) < Measure(g)
  {
    if a.Spawn? {
      assert g.phases[g.spawned].Unborn?;
    }
    if !a.CancelParent? && !a.WaitReturns? {
      PhaseProgress(g, a);
    }
  }

  /** Until Wait has returned some action of the group itself is enabled: no schedule deadlocks. */
  lemma NeverStuck(g: Group) returns (a: Action)
    requires Inv(g) && g.waited == None
    ensures Enabled(g, a) && !a.CancelParent?
  {
    if g.spawned < g.size {
      a := Spawn;
    } else if i: nat :| i < g.size && !g.phases[i].Finished? {
      assert Counted(g.phases[i], g.calls[i], g.nils[i]);
      a := match g.phases[i] case Born => Check(i) case Passed => Call(i) case Calling => Answer(i, None) case _ => Report(i);
    } else {
      a := WaitReturns;
    }
  }

  // ---------------------------------------------------------------- every outcome is possible

  lemma Extended(trace: seq<Group>, actions: seq<Action>, size: nat, a: Action)
    requires Schedule(trace, actions, size) && Sized(trace[|actions|]) && Enabled(trace[|actions|], a)
    ensures Schedule(trace + [Step(trace[|actions|], a)], actions + [a], size)
  {
  }

  /** The goroutines of 0..k-1 are back from their calls, those of good with nil; nobody has reported. */
  predicate Answered(g: Group, size: nat, k: nat, good: set<nat>) {
    && Inv(g) && g.size == size && g.spawned == k && !g.childCancelled && g.waited == None
    && forall i: nat :: i < k <= size ==> g.phases[i].Returned? && (g.nils[i] == 1 <==> i in good)
  }

  /** One goroutine starts, passes the check, calls and is answered, before anybody reports. */
  lemma OneAnswers(g: Group, size: nat, k: nat, good: set<nat>) returns (s1: Group, s2: Group, s3: Group, last: Action)
    requires Answered(g, size, k, good) && k < size
    ensures Enabled(g, Spawn) && s1 == Step(g, Spawn) && Inv(s1)
    ensures Enabled(s1, Check(k)) && s2 == Step(s1, Check(k)) && Inv(s2)
    ensures Enabled(s2, Call(k)) && s3 == Step(s2, Call(k)) && Inv(s3)
    ensures Enabled(s3, last) && Answered(Step(s3, last), size, k + 1, good)
  {
    assert Counted(g.phases[k], g.calls[k], g.nils[k]);
    last := Answer(k, if k in good then None else Some(CallFailed(k)));
    s1 := Step(g, Spawn);
    StepKeepsInv(g, Spawn);
    s2 := Step(s1, Check(k));
    StepKeepsInv(s1, Check(k));
    s3 := Step(s2, Call(k));
    StepKeepsInv(s2, Call(k));
    StepKeepsInv(s3, last);
  }

  lemma OneMore(trace: seq<Group>, actions: seq<Action>, size: nat, a: Action) returns (trace': seq<Group>, actions': seq<Action>)
    requires Schedule(trace, actions, size) && Sized(trace[|actions|]) && Enabled(trace[|actions|], a)
    ensures Schedule(trace', actions', size) && trace'[|actions'|] == Step(trace[|actions|], a)
  {
    Extended(trace, actions, size, a);
    trace', actions' := trace + [Step(trace[|actions|], a)], actions + [a];
  }

  lemma {:induction false} AllAnswer(size: nat, k: nat, good: set<nat>) returns (trace: seq<Group>, actions: seq<Action>)
    requires k <= size
    ensures Schedule(trace, actions, size) && Answered(trace[|actions|], size, k, good)
  {
    if k == 0 {
      trace, actions := [Start(size)], [];
    } else {
      trace, actions := AllAnswer(size, k - 1, good);
      var s1, s2, s3, last := OneAnswers(trace[|actions|], size, k - 1, good);
      trace, actions := OneMore(trace, actions, size, Spawn);
      trace, actions := OneMore(trace, actions, size, Check(k - 1));
      trace, actions := OneMore(trace, actions, size, Call(k - 1));
      trace, actions := OneMore(trace, actions, size, last);
    }
  }

  /** Once all are back, the group's own actions bring Wait to its return and change no outcome. */
  lemma {:induction false} Drained(trace: seq<Group>, actions: seq<Action>, size: nat) returns (trace': seq<Group>, actions': seq<Action>)
    requires Schedule(trace, actions, size) && Inv(trace[|actions|]) && trace[|actions|].size == size == trace[|actions|].spawned
    requires forall i :: 0 <= i < size ==> trace[|actions|].phases[i].Returned? || trace[|actions|].phases[i].Finished?
    ensures Schedule(trace', actions', size) && trace'[|actions'|].waited.Some?
    ensures trace'[|actions'|].nils == trace[|actions|].nils
    decreases Measure(trace[|actions|])
  {
    var g := trace[|actions|];
    if g.waited.Some? {
      return trace, actions;
    }
    var a := NeverStuck(g);
    Extended(trace, actions, size, a);
    StepKeepsInv(g, a);
    ActionsProgress(g, a);
    trace', actions' := Drained(trace + [Step(g, a)], actions + [a], size);
  }

  /** No outcome is ruled out: for any set of ordinals there is a schedule in which Wait returns after
      exactly these calls returned nil. */
  lemma EveryOutcomeHappens(size: nat, good: set<nat>) returns (trace: seq<Group>, actions: seq<Action>)
    ensures Schedule(trace, actions, size) && trace[|actions|].waited.Some?
    ensures |trace[|actions|].nils| == size && forall i: nat :: i < size ==> (trace[|actions|].nils[i] == 1 <==> i in good)
  {
    trace, actions := AllAnswer(size, size, good);
    trace, actions := Drained(trace, actions, size);
  }
}
