/** recordError under optimistic concurrency: any number of writers of status.errors, each reading a
    versioned copy and writing it back, interleaved with passes that write the whole status back and
    with edits of the spec. A write whose version is no longer the stored one conflicts. */
module ErrorLog {
  import opened Api
  import opened Cluster
  import opened Pass

  /** One call of recordError: about to read, holding a copy, or returned (nil or not). */
  datatype Writer = Ready(tries: nat) | Holding(version: nat, copy: seq<ServerError>, tries: nat) | Ended(ok: bool)

  /** A pass's copy of the errors it will write back with its status, with the version it read. */
  datatype Snapshot = NoSnapshot | Snapshot(version: nat, copy: seq<ServerError>)

  /** history is the log's first content and every entry written since; landed the writers behind them. */
  datatype Log = Log(version: nat, errors: seq<ServerError>, history: seq<ServerError>, landed: seq<nat>,
                     writers: seq<Writer>, passes: seq<Snapshot>)

  datatype Action =
    | Read(i: nat)
    | Write(i: nat)
    | Break(i: nat)        // a read or write fails with something other than a conflict
    | PassReads(j: nat)
    | PassWrites(j: nat)
    | Edited               // spec or metadata written: a new version, the same status

  predicate Enabled(g: Log, a: Action) {
    match a
    case Read(i) => i < |g.writers| && g.writers[i].Ready?
    case Write(i) => i < |g.writers| && g.writers[i].Holding?
    case Break(i) => i < |g.writers| && !g.writers[i].Ended?
    case PassReads(j) => j < |g.passes|
    case PassWrites(j) => j < |g.passes| && g.passes[j].Snapshot?
    case Edited => true
  }

  function Step(g: Log, entries: seq<ServerError>, a: Action): Log
    requires |entries| == |g.writers| && Enabled(g, a)
  {
    match a
    case Read(i) => g.(writers := g.writers[i := Holding(g.version, g.errors, g.writers[i].tries)])
    case Write(i) =>
      var h := g.writers[i];
      if h.version == g.version then
        g.(version := g.version + 1, errors := Logged(h.copy, entries[i]), history := g.history + [entries[i]],
           landed := g.landed + [i], writers := g.writers[i := Ended(true)])
      else
        g.(writers := g.writers[i := if h.tries + 1 >= RETRY_STEPS then Ended(false) else Ready(h.tries + 1)])
    case Break(i) => g.(writers := g.writers[i := Ended(false)])
    case PassReads(j) => g.(passes := g.passes[j := Snapshot(g.version, g.errors)])
    case PassWrites(j) =>
      var s := g.passes[j];
      var done := g.(passes := g.passes[j := NoSnapshot]);
      if s.version == g.version then done.(version := g.version + 1, errors := s.copy) else done
    case Edited => g.(version := g.version + 1)
  }

  function Start(errors: seq<ServerError>, writers: nat, passes: nat): Log {
    Log(0, errors, errors, [], seq(writers, _ => Ready(0)), seq(passes, _ => NoSnapshot))
  }

  // ---------------------------------------------------------------- the promised content

  function Last(s: seq<ServerError>, n: nat): seq<ServerError>
    requires n <= |s|
  {
    s[|s| - n..]
  }

  /** How many entries are kept after k writes on a log that began with n. */
  function KeptCount(n: nat, k: nat): nat {
    if n >= MAX_RECENT_ERRORS then n else if n + k <= MAX_RECENT_ERRORS then n + k else MAX_RECENT_ERRORS
  }

  /** Adding an entry keeps the log the tail of its history. */
  lemma LoggedIsTail(history: seq<ServerError>, n: nat, k: nat, e: ServerError)
    requires |history| == n + k
    ensures KeptCount(n, k) <= n + k
    ensures Logged(Last(history, KeptCount(n, k)), e) == Last(history + [e], KeptCount(n, k + 1))
  {
  }

  // ---------------------------------------------------------------- what every interleaving keeps

  predicate Current(g: Log) {
    && (forall i :: 0 <= i < |g.writers| && g.writers[i].Holding? ==>
          g.writers[i].version <= g.version && (g.writers[i].version == g.version ==> g.writers[i].copy == g.errors))
    && (forall j :: 0 <= j < |g.passes| && g.passes[j].Snapshot? ==>
          g.passes[j].version <= g.version && (g.passes[j].version == g.version ==> g.passes[j].copy == g.errors))
  }

  predicate Accounted(g: Log, initial: seq<ServerError>, entries: seq<ServerError>) {
    && |entries| == |g.writers|
    && |g.history| == |initial| + |g.landed|
    && g.history[..|initial|] == initial
    && (forall m :: 0 <= m < |g.landed| ==> g.landed[m] < |entries| && g.history[|initial| + m] == entries[g.landed[m]])
    && (forall m, n :: 0 <= m < n < |g.landed| ==> g.landed[m] != g.landed[n])
    && (forall i: nat :: i < |g.writers| ==> (i in g.landed <==> g.writers[i] == Ended(true)))
  }

  predicate Tail(g: Log, initial: seq<ServerError>) {
    && |g.history| == |initial| + |g.landed|
    && KeptCount(|initial|, |g.landed|) <= |g.history|
    && g.errors == Last(g.history, KeptCount(|initial|, |g.landed|))
  }

  predicate Tried(g: Log) {
    forall i :: 0 <= i < |g.writers| && !g.writers[i].Ended? ==> g.writers[i].tries < RETRY_STEPS
  }

  predicate Inv(g: Log, initial: seq<ServerError>, entries: seq<ServerError>) {
    Current(g) && Accounted(g, initial, entries) && Tail(g, initial) && Tried(g)
  }

  lemma AccountedKept(g: Log, initial: seq<ServerError>, entries: seq<ServerError>, a: Action)
    requires Inv(g, initial, entries) && Enabled(g, a)
    ensures Accounted(Step(g, entries, a), initial, entries)
  {
    var h := Step(g, entries, a);
    if a.Write? && g.writers[a.i].version == g.version {
      assert a.i !in g.landed;
      assert h.landed[..|g.landed|] == g.landed;
      forall i: nat | i < |h.writers| ensures i in h.landed <==> h.writers[i] == Ended(true) {
        assert h.landed == g.landed + [a.i];
      }
    }
  }

  lemma StepKeepsInv(g: Log, initial: seq<ServerError>, entries: seq<ServerError>, a: Action)
    requires Inv(g, initial, entries) && Enabled(g, a)
    ensures Inv(Step(g, entries, a), initial, entries)
  {
    AccountedKept(g, initial, entries, a);
    if a.Write? && g.writers[a.i].version == g.version {
      LoggedIsTail(g.history, |initial|, |g.landed|, entries[a.i]);
    }
  }

  predicate Interleaving(trace: seq<Log>, actions: seq<Action>, initial: seq<ServerError>, entries: seq<ServerError>, passes: nat) {
    && |trace| == |actions| + 1 && trace[0] == Start(initial, |entries|, passes)
    && forall n :: 0 <= n < |actions| ==>
         |trace[n].writers| == |entries| && Enabled(trace[n], actions[n]) && trace[n + 1] == Step(trace[n], entries, actions[n])
  }

  lemma {:induction false} ReachableInv(trace: seq<Log>, actions: seq<Action>, initial: seq<ServerError>, entries: seq<ServerError>,
                                        passes: nat, n: nat)
    requires Interleaving(trace, actions, initial, entries, passes) && n < |trace|
    ensures Inv(trace[n], initial, entries)
  {
    if n > 0 {
      ReachableInv(trace, actions, initial, entries, passes, n - 1);
      StepKeepsInv(trace[n - 1], initial, entries, actions[n - 1]);
    }
  }

  /** Over every interleaving, conflicts included: the log is the tail of the full history, the last five
      entries if it began with at most five; the history holds, once each, the entries of exactly the
      calls that returned nil, after what was there at first. Nobody's entry is lost by another's write. */
  lemma LogIsRecentHistory(trace: seq<Log>, actions: seq<Action>, initial: seq<ServerError>, entries: seq<ServerError>,
                           passes: nat, n: nat)
    requires Interleaving(trace, actions, initial, entries, passes) && n < |trace|
    ensures var g := trace[n];
            && |g.history| == |initial| + |g.landed| && g.history[..|initial|] == initial
            && (forall m :: 0 <= m < |g.landed| ==> g.landed[m] < |entries| && g.history[|initial| + m] == entries[g.landed[m]])
            && (forall m, m' :: 0 <= m < m' < |g.landed| ==> g.landed[m] != g.landed[m'])
            && (forall i: nat :: i < |g.writers| ==> (i in g.landed <==> g.writers[i] == Ended(true)))
    ensures var g := trace[n];
            && (|initial| <= 5 ==> g.errors == Last(g.history, if |g.history| <= 5 then |g.history| else 5))
            && (|initial| > 5 ==> |g.history| >= |initial| && g.errors == Last(g.history, |initial|))
  {
    ReachableInv(trace, actions, initial, entries, passes, n);
  }

  // ---------------------------------------------------------------- the writer of a pass

  lemma OneMore(trace: seq<Log>, actions: seq<Action>, initial: seq<ServerError>, entries: seq<ServerError>, passes: nat, a: Action)
    returns (trace': seq<Log>, actions': seq<Action>)
    requires Interleaving(trace, actions, initial, entries, passes)
    requires |trace[|actions|].writers| == |entries| && Enabled(trace[|actions|], a)
    ensures Interleaving(trace', actions', initial, entries, passes)
    ensures trace'[|actions'|] == Step(trace[|actions|], entries, a)
  {
    trace', actions' := trace + [Step(trace[|actions|], entries, a)], actions + [a];
  }

  /** One writer with so many tries left, going on as the attempts say: each reads and writes, an edit in
      between where its write conflicts, or breaks off. */
  lemma {:induction false} WriterRuns(trace: seq<Log>, actions: seq<Action>, errors: seq<ServerError>, e: ServerError,
                                      record: seq<Attempt>, left: nat)
    returns (trace': seq<Log>, actions': seq<Action>)
    requires Interleaving(trace, actions, errors, [e], 0) && 0 < left <= RETRY_STEPS
    requires trace[|actions|].writers == [Ready(RETRY_STEPS - left)] && trace[|actions|].errors == errors
    ensures Interleaving(trace', actions', errors, [e], 0)
    ensures trace'[|actions'|].writers == [Ended(RecordLands(record, left))]
    ensures trace'[|actions'|].errors == if RecordLands(record, left) then Logged(errors, e) else errors
    decreases left
  {
    if record != [] && record[0] == Breaks {
      trace', actions' := OneMore(trace, actions, errors, [e], 0, Break(0));
    } else {
      trace', actions' := OneMore(trace, actions, errors, [e], 0, Read(0));
      if record != [] && record[0] == Conflicts {
        trace', actions' := OneMore(trace', actions', errors, [e], 0, Edited);
      }
      trace', actions' := OneMore(trace', actions', errors, [e], 0, Write(0));
      if record != [] && record[0] == Conflicts && left > 1 {
        trace', actions' := WriterRuns(trace', actions', errors, e, record[1..], left - 1);
      }
    }
  }

  /** What a pass leaves in the log is what one such writer leaves there, with the same attempts. */
  lemma RecordedIsAWriter(w: World, key: ObjectKey, e: ServerError, record: seq<Attempt>)
    returns (trace: seq<Log>, actions: seq<Action>)
    requires key in w.servers
    ensures Interleaving(trace, actions, w.servers[key].status.errors, [e], 0)
    ensures trace[|actions|].writers == [Ended(RecordLands(record, RETRY_STEPS))]
    ensures key in Recorded(w, key, e, record).servers
    ensures trace[|actions|].errors == Recorded(w, key, e, record).servers[key].status.errors
  {
    var errors := w.servers[key].status.errors;
    trace, actions := [Start(errors, 1, 0)], [];
    trace, actions := WriterRuns(trace, actions, errors, e, record, RETRY_STEPS);
  }
}
