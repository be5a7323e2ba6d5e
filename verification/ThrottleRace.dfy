/**
 The edit throttle's three statements, interleaved in any order by any number of callers.
 */
module ThrottleRace {
  import opened Wrappers
  import opened Throttle

  datatype Edit =
    | Start(key: Key, now: int)
    | Look(key: Key, now: int)
    | Restart(key: Key, now: int)
    | Finished

  /** An edit let through, by adding to the window or by starting one. */
  datatype Pass = Pass(key: Key, now: int, started: bool)

  datatype State = State(rows: Rows, calls: seq<Edit>, passes: seq<Pass>)

  datatype Step = Arrive(key: Key, now: int) | Advance(c: nat)

  function Exec(s: State, step: Step): State {
    match step
    case Arrive(k, now) => s.(calls := s.calls + [Start(k, now)])
    case Advance(c) => if c < |s.calls| then Proceed(s, c) else s
  }

  function Proceed(s: State, c: nat): State
    requires c < |s.calls|
  {
    match s.calls[c]
    case Start(k, now) =>
      if Bumps(s.rows, k, now, EDITS)
      then State(Bumped(s.rows, k), s.calls[c := Finished], s.passes + [Pass(k, now, false)])
      else s.(calls := s.calls[c := Look(k, now)])
    case Look(k, now) =>
      s.(calls := s.calls[c := if Current(s.rows, k, now, EDITS) then Finished else Restart(k, now)])
    case Restart(k, now) =>
      State(Restarted(s.rows, k, now), s.calls[c := Finished], s.passes + [Pass(k, now, true)])
    case Finished => s
  }

  const Empty := State(map[], [], [])

  function Run(steps: seq<Step>): State {
    if steps == [] then Empty else Exec(Run(steps[..|steps| - 1]), steps[|steps| - 1])
  }

  lemma RunSnoc(steps: seq<Step>, step: Step)
    ensures Run(steps + [step]) == Exec(Run(steps), step)
  {
  }

  // ---- what survives every interleaving ----

  function Passes(passes: seq<Pass>, k: Key): nat {
    if passes == [] then 0 else
    Passes(passes[..|passes| - 1], k) + if passes[|passes| - 1].key == k then 1 else 0
  }

  function Starts(passes: seq<Pass>, k: Key): nat {
    if passes == [] then 0 else
    var last := passes[|passes| - 1];
    Starts(passes[..|passes| - 1], k) + if last.key == k && last.started then 1 else 0
  }

  predicate Bounded(s: State, k: Key) {
    if k in s.rows then
      && 1 <= s.rows[k].count <= EDITS.max
      && 1 <= Starts(s.passes, k)
      && Passes(s.passes, k) <= EDITS.max * (Starts(s.passes, k) - 1) + s.rows[k].count
    else Passes(s.passes, k) == 0
  }

  lemma PassSnoc(passes: seq<Pass>, p: Pass, k: Key)
    ensures Passes(passes + [p], k) == Passes(passes, k) + if p.key == k then 1 else 0
    ensures Starts(passes + [p], k) == Starts(passes, k) + if p.key == k && p.started then 1 else 0
  {
  }

  lemma ExecBounded(s: State, step: Step, k: Key)
    requires Bounded(s, k)
    ensures Bounded(Exec(s, step), k)
  {
    hide Passes, Starts;
    var s' := Exec(s, step);
    if s'.passes != s.passes {
      PassSnoc(s.passes, s'.passes[|s.passes|], k);
    }
  }

  lemma {:induction false} RunBounded(steps: seq<Step>, k: Key)
    ensures Bounded(Run(steps), k)
  {
    if steps != [] {
      RunBounded(steps[..|steps| - 1], k);
      ExecBounded(Run(steps[..|steps| - 1]), steps[|steps| - 1], k);
    }
  }

  /** However the statements interleave, the stored count stays within the cap, and the edits
      let through are at most the cap times the windows started. */
  lemma {:induction false} EditsPerWindowStarted(steps: seq<Step>, k: Key)
    ensures k in Run(steps).rows ==> 1 <= Run(steps).rows[k].count <= 5
    ensures Passes(Run(steps).passes, k) <= 5 * Starts(Run(steps).passes, k)
  {
    RunBounded(steps, k);
  }

  /** A call nobody interrupts decides and writes what `recordAttemptIfAllowed` does in one go. */
  lemma UninterruptedIsAtomic(s: State, k: Key, now: int)
    ensures var c := |s.calls|;
      var s' := Exec(Exec(Exec(Exec(s, Arrive(k, now)), Advance(c)), Advance(c)), Advance(c));
      var (rows', ok) := AttemptEdit(s.rows, k, now, EDITS);
      && s'.rows == rows' && s'.calls == s.calls + [Finished]
      && (if ok then |s'.passes| == |s.passes| + 1 && s'.passes[..|s.passes|] == s.passes
                     && s'.passes[|s.passes|] == Pass(k, now, !Bumps(s.rows, k, now, EDITS))
          else s'.passes == s.passes)
  {
  }

  // ---- what the row does not count ----

  /** What the row counts towards the window a caller at `now` is in. */
  function Held(rows: Rows, k: Key, now: int): int {
    if Current(rows, k, now, EDITS) then rows[k].count else 0
  }

  /** The call about to start a window for `k`, if that is what call `c` does next. */
  predicate Restarts(s: State, c: nat, k: Key) {
    c < |s.calls| && s.calls[c].Restart? && s.calls[c].key == k
  }

  /** In every reachable state, starting a window forgets exactly what a row still current
      counted. It costs at most one edit exactly when the row is absent, stale or counts one. */
  lemma {:induction false} RestartForgets(steps: seq<Step>, c: nat, k: Key)
    requires Restarts(Run(steps), c, k)
    ensures var s, now := Run(steps), Run(steps).calls[c].now;
      var s' := Run(steps + [Advance(c)]);
      var forgotten := Held(s.rows, k, now) + 1 - s'.rows[k].count;
      && forgotten == (if Current(s.rows, k, now, EDITS) then s.rows[k].count else 0)
      && (forgotten <= 1 <==> k !in s.rows || s.rows[k].windowStart < now - EDITS.window || s.rows[k].count == 1)
  {
    RunBounded(steps, k);
    RunSnoc(steps, Advance(c));
  }

  /** A window is started on a row that is absent or stale. */
  predicate OpensWindow(s: State, step: Step, k: Key) {
    step.Advance? && Restarts(s, step.c, k) && !Current(s.rows, k, s.calls[step.c].now, EDITS)
  }

  /** A window is started on a row that is current: another caller started it in between. */
  predicate Overwrites(s: State, step: Step, k: Key) {
    step.Advance? && Restarts(s, step.c, k) && Current(s.rows, k, s.calls[step.c].now, EDITS)
  }

  /** Whether the step lets an edit of `k` through. */
  function LetThrough(s: State, step: Step, k: Key): nat {
    var passes := Exec(s, step).passes;
    if |passes| > |s.passes| && passes[|passes| - 1].key == k then 1 else 0
  }

  /** The edits of `k` let through since its window was opened, that one included. */
  function InWindow(steps: seq<Step>, k: Key): nat {
    if steps == [] then 0 else
    var before, last := steps[..|steps| - 1], steps[|steps| - 1];
    if OpensWindow(Run(before), last, k) then 1
    else InWindow(before, k) + LetThrough(Run(before), last, k)
  }

  /** What the overwrites since then forgot. */
  function Lost(steps: seq<Step>, k: Key): int {
    if steps == [] then 0 else
    var before, last := steps[..|steps| - 1], steps[|steps| - 1];
    if OpensWindow(Run(before), last, k) then 0
    else Lost(before, k) + if Overwrites(Run(before), last, k) then Run(before).rows[k].count else 0
  }

  /** Nobody has overwritten the window since it was opened. */
  predicate NotOverwritten(steps: seq<Step>, k: Key) {
    steps == [] ||
    var before, last := steps[..|steps| - 1], steps[|steps| - 1];
    OpensWindow(Run(before), last, k) || (NotOverwritten(before, k) && !Overwrites(Run(before), last, k))
  }

  lemma StepCounts(s: State, step: Step, k: Key)
    requires Bounded(s, k)
    ensures var s', more := Exec(s, step), LetThrough(s, step, k);
      && Passes(s'.passes, k) == Passes(s.passes, k) + more
      && (k in s.rows ==> k in s'.rows)
      && (OpensWindow(s, step, k) ==> k in s'.rows && s'.rows[k].count == 1)
      && (Overwrites(s, step, k) ==> k in s.rows && s'.rows[k].count == 1 && more == 1)
      && (!OpensWindow(s, step, k) && !Overwrites(s, step, k) ==>
            if k in s.rows then s'.rows[k].count == s.rows[k].count + more else k !in s'.rows && more == 0)
  {
    hide Passes, Starts;
    var s' := Exec(s, step);
    if s'.passes != s.passes {
      PassSnoc(s.passes, s'.passes[|s.passes|], k);
    }
  }

  /** In every run the row counts the edits of its window but for those the overwrites forgot,
      so it counts them all exactly when nobody overwrote the window. */
  lemma {:induction false} RowCountsAllIffNotOverwritten(steps: seq<Step>, k: Key)
    ensures var rows := Run(steps).rows;
      && InWindow(steps, k) == (if k in rows then rows[k].count else 0) + Lost(steps, k)
      && Lost(steps, k) >= 0 && (Lost(steps, k) == 0 <==> NotOverwritten(steps, k))
      && (k in rows ==> (rows[k].count == InWindow(steps, k) <==> NotOverwritten(steps, k)))
  {
    if steps != [] {
      var before, last := steps[..|steps| - 1], steps[|steps| - 1];
      RowCountsAllIffNotOverwritten(before, k);
      RunBounded(before, k);
      StepCounts(Run(before), last, k);
      hide Passes, Starts, OpensWindow, Overwrites, Exec, LetThrough;
    }
  }

  // ---- how far the count can fall behind ----

  function Turns(n: nat): seq<Step> {
    seq(n, i requires 0 <= i < n => Advance(i))
  }

  /** Everybody arrives, everybody finds no row to add to, everybody looks, everybody starts. */
  function Rush(n: nat, k: Key, now: int): seq<Step> {
    seq(n, _ => Arrive(k, now)) + Turns(n) + Turns(n) + Turns(n)
  }

  function Mixed(n: nat, j: nat, done: Edit, todo: Edit): seq<Edit> {
    seq(n, i => if i < j then done else todo)
  }

  lemma {:induction false} AllArrive(n: nat, k: Key, now: int)
    ensures Run(seq(n, _ => Arrive(k, now))) == State(map[], Mixed(n, 0, Finished, Start(k, now)), [])
  {
    if n > 0 {
      AllArrive(n - 1, k, now);
      RunSnoc(seq(n - 1, _ => Arrive(k, now)), Arrive(k, now));
      assert seq(n, _ => Arrive(k, now)) == seq(n - 1, _ => Arrive(k, now)) + [Arrive(k, now)];
    }
  }

  lemma NoTurns(before: seq<Step>)
    ensures before + Turns(0) == before
  {
  }

  lemma NextTurn(before: seq<Step>, n: nat, j: nat, done: Edit, todo: Edit)
    requires 1 <= j <= n
    ensures before + Turns(j) == before + Turns(j - 1) + [Advance(j - 1)]
    ensures |Mixed(n, j - 1, done, todo)| == n && Mixed(n, j - 1, done, todo)[j - 1] == todo
    ensures Mixed(n, j - 1, done, todo)[j - 1 := done] == Mixed(n, j, done, todo)
  {
  }

  /** A round in which every call moves from `todo` to `done` without touching the table. */
  lemma {:induction false} QuietRound(before: seq<Step>, n: nat, j: nat, done: Edit, todo: Edit)
    requires j <= n && Run(before) == State(map[], Mixed(n, 0, done, todo), [])
    requires (todo.Start? && done == Look(todo.key, todo.now)) || (todo.Look? && done == Restart(todo.key, todo.now))
    ensures Run(before + Turns(j)) == State(map[], Mixed(n, j, done, todo), [])
  {
    hide Run, Mixed, Turns;
    if j == 0 {
      NoTurns(before);
    } else {
      QuietRound(before, n, j - 1, done, todo);
      RunSnoc(before + Turns(j - 1), Advance(j - 1));
      NextTurn(before, n, j, done, todo);
    }
  }

  lemma NoPasses(k: Key)
    ensures Passes([], k) == 0
  {
  }

  lemma {:induction false} StartingRound(before: seq<Step>, n: nat, j: nat, k: Key, now: int)
    requires j <= n && Run(before) == State(map[], Mixed(n, 0, Finished, Restart(k, now)), [])
    ensures Run(before + Turns(j)).calls == Mixed(n, j, Finished, Restart(k, now))
    ensures Run(before + Turns(j)).rows == if j == 0 then map[] else map[k := Row(1, now)]
    ensures Passes(Run(before + Turns(j)).passes, k) == j
  {
    hide Run, Passes, Bumps, Current, Mixed, Turns;
    if j == 0 {
      NoTurns(before);
      NoPasses(k);
    } else {
      StartingRound(before, n, j - 1, k, now);
      RunSnoc(before + Turns(j - 1), Advance(j - 1));
      NextTurn(before, n, j, Finished, Restart(k, now));
      PassSnoc(Run(before + Turns(j - 1)).passes, Pass(k, now, true), k);
    }
  }

  /** Any number of simultaneous callers can all be let through while the row counts one of
      them: the shortfall at a window boundary has no bound. */
  lemma {:induction false} ShortfallIsUnbounded(n: nat, k: Key, now: int)
    requires n >= 1
    ensures Passes(Run(Rush(n, k, now)).passes, k) == n
    ensures Run(Rush(n, k, now)).rows == map[k := Row(1, now)]
  {
    var arrivals := seq(n, _ => Arrive(k, now));
    AllArrive(n, k, now);
    QuietRound(arrivals, n, n, Look(k, now), Start(k, now));
    QuietRound(arrivals + Turns(n), n, n, Restart(k, now), Look(k, now));
    StartingRound(arrivals + Turns(n) + Turns(n), n, n, k, now);
  }

  // ---- how much one overwrite can forget ----

  /** `j` more edits, each in one statement. */
  function MoreEdits(j: nat, k: Key, now: int): seq<Step> {
    if j == 0 then [] else MoreEdits(j - 1, k, now) + [Arrive(k, now), Advance(j + 1)]
  }

  /** A caller stops before starting the window, another starts it, `j` more edits are counted. */
  function Filled(j: nat, k: Key, now: int): seq<Step> {
    [Arrive(k, now), Advance(0), Advance(0), Arrive(k, now), Advance(1), Advance(1), Advance(1)] + MoreEdits(j, k, now)
  }

  lemma WindowOpens(k: Key, now: int)
    ensures Run(Filled(0, k, now)) == State(map[k := Row(1, now)], [Restart(k, now), Finished], [Pass(k, now, true)])
  {
    var one := [Arrive(k, now)];
    var three := one + [Advance(0)] + [Advance(0)];
    RunSnoc([], Arrive(k, now));
    RunSnoc(one, Advance(0));
    RunSnoc(one + [Advance(0)], Advance(0));
    assert [] + [Arrive(k, now)] == one;
    assert Run(three) == State(map[], [Restart(k, now)], []);
    RunSnoc(three, Arrive(k, now));
    var four := three + [Arrive(k, now)];
    RunSnoc(four, Advance(1));
    RunSnoc(four + [Advance(1)], Advance(1));
    RunSnoc(four + [Advance(1)] + [Advance(1)], Advance(1));
    hide Run;
    UninterruptedIsAtomic(Run(three), k, now);
    assert Filled(0, k, now) == four + [Advance(1)] + [Advance(1)] + [Advance(1)];
  }

  /** Nothing but the row, the stopped caller and the passes. */
  predicate Counted(s: State, k: Key, now: int, j: nat) {
    && |s.calls| == j + 2 && s.calls[0] == Restart(k, now)
    && s.rows == map[k := Row(j + 1, now)] && Passes(s.passes, k) == j + 1 && Starts(s.passes, k) == 1
  }

  lemma {:induction false} FilledState(j: nat, k: Key, now: int)
    requires j < EDITS.max
    ensures Counted(Run(Filled(j, k, now)), k, now, j)
  {
    if j == 0 {
      WindowOpens(k, now);
      PassSnoc([], Pass(k, now, true), k);
    } else {
      hide Run, Counted, Exec, Filled;
      FilledState(j - 1, k, now);
      var before := Filled(j - 1, k, now);
      RunSnoc(before, Arrive(k, now));
      RunSnoc(before + [Arrive(k, now)], Advance(j + 1));
      FilledMore(j, k, now);
    }
  }

  lemma FilledMore(j: nat, k: Key, now: int)
    requires j > 0
    ensures Filled(j, k, now) == Filled(j - 1, k, now) + [Arrive(k, now)] + [Advance(j + 1)]
  {
  }

  /** When the stopped caller goes on, six edits have passed, the row counts one, and only two
      windows were ever started. */
  lemma {:induction false} OneOverwriteForgetsFive(k: Key, now: int)
    ensures var s := Run(Filled(4, k, now) + [Advance(0)]);
      && Passes(s.passes, k) == 6 && s.rows == map[k := Row(1, now)] && Starts(s.passes, k) == 2
  {
    hide Run, Filled, Passes, Starts;
    FilledState(4, k, now);
    var s := Run(Filled(4, k, now));
    RunSnoc(Filled(4, k, now), Advance(0));
    PassSnoc(s.passes, Pass(k, now, true), k);
  }
}
