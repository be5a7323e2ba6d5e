/**
 The fixed-window throttles: the one kept in a table, whose check and record are three
 separate statements, and the one kept in memory. Times are whole milliseconds.
 */
module Throttle {
  import opened Wrappers

  type Key = nat

  datatype Row = Row(count: int, windowStart: int)
  datatype Limit = Limit(window: int, max: int)

  type Rows = map<Key, Row>

  const EDITS := Limit(60 * 60 * 1000, 5)

  // ---- the statements ----

  predicate Current(rows: Rows, k: Key, now: int, l: Limit) {
    k in rows && rows[k].windowStart >= now - l.window
  }

  predicate Bumps(rows: Rows, k: Key, now: int, l: Limit) {
    Current(rows, k, now, l) && rows[k].count < l.max
  }

  function Bumped(rows: Rows, k: Key): Rows
    requires k in rows
  {
    rows[k := rows[k].(count := rows[k].count + 1)]
  }

  function Restarted(rows: Rows, k: Key, now: int): Rows {
    rows[k := Row(1, now)]
  }

  /** `recordAttemptIfAllowed` without interference. */
  function AttemptEdit(rows: Rows, k: Key, now: int, l: Limit): (Rows, bool) {
    if Bumps(rows, k, now, l) then (Bumped(rows, k), true)
    else if Current(rows, k, now, l) then (rows, false)
    else (Restarted(rows, k, now), true)
  }

  /** `isBlocked`, then `recordAttempt` when it is not. */
  function AttemptIp(rows: Rows, k: Key, now: int, l: Limit): (Rows, bool) {
    var stale := k !in rows || now - rows[k].windowStart >= l.window;
    if !stale && rows[k].count >= l.max then (rows, false)
    else if stale then (rows[k := Row(1, now)], true)
    else (rows[k := Row(rows[k].count + 1, rows[k].windowStart)], true)
  }

  class EditThrottleService {
    var rows: Rows

    constructor ()
      ensures rows == map[]
    {
      rows := map[];
    }

    /** The conditional update; returns how many rows it matched. */
    method UpdateMany(k: Key, now: int) returns (bumped: nat)
      modifies this
      ensures bumped == if Bumps(old(rows), k, now, EDITS) then 1 else 0
      ensures rows == if Bumps(old(rows), k, now, EDITS) then Bumped(old(rows), k) else old(rows)
    {
      bumped := 0;
      if k in rows && rows[k].windowStart >= now - EDITS.window && rows[k].count < EDITS.max {
        rows := rows[k := rows[k].(count := rows[k].count + 1)];
        bumped := 1;
      }
    }

    method RecordAttemptIfAllowed(k: Key, now: int) returns (allowed: bool)
      modifies this
      ensures (rows, allowed) == AttemptEdit(old(rows), k, now, EDITS)
    {
      var bumped := UpdateMany(k, now);
      if bumped > 0 {
        return true;
      }
      if k in rows && rows[k].windowStart >= now - EDITS.window {
        return false;
      }
      rows := rows[k := Row(1, now)];
      return true;
    }
  }

  class IpThrottle {
    var attempts: Rows
    const options: Limit

    constructor (options: Limit)
      ensures this.options == options && attempts == map[]
    {
      this.options, attempts := options, map[];
    }

    predicate IsBlocked(ip: Key, now: int)
      reads this
    {
      if ip !in attempts then false
      else if now - attempts[ip].windowStart >= options.window then false
      else attempts[ip].count >= options.max
    }

    method RecordAttempt(ip: Key, now: int)
      modifies this
      ensures !old(IsBlocked(ip, now)) ==> (attempts, true) == AttemptIp(old(attempts), ip, now, options)
    {
      if ip !in attempts || now - attempts[ip].windowStart >= options.window {
        attempts := attempts[ip := Row(1, now)];
        return;
      }
      attempts := attempts[ip := attempts[ip].(count := attempts[ip].count + 1)];
    }

    /** The throttle guards: refuse when blocked, otherwise record and go on. */
    method Admit(ip: Key, now: int) returns (admitted: bool)
      modifies this
      ensures (attempts, admitted) == AttemptIp(old(attempts), ip, now, options)
    {
      if IsBlocked(ip, now) {
        return false;
      }
      RecordAttempt(ip, now);
      return true;
    }
  }

  // ---- runs of whole calls ----

  datatype Attempt = Attempt(key: Key, at: int)

  function RowsAfter(atts: seq<Attempt>, l: Limit): Rows {
    if atts == [] then map[] else
    var a := atts[|atts| - 1];
    AttemptEdit(RowsAfter(atts[..|atts| - 1], l), a.key, a.at, l).0
  }

  /** The attempts that were let through, in order. */
  function Accepted(atts: seq<Attempt>, l: Limit): seq<Attempt> {
    if atts == [] then [] else
    var before, a := atts[..|atts| - 1], atts[|atts| - 1];
    Accepted(before, l) + if AttemptEdit(RowsAfter(before, l), a.key, a.at, l).1 then [a] else []
  }

  function RowsAfterIp(atts: seq<Attempt>, l: Limit): Rows {
    if atts == [] then map[] else
    var a := atts[|atts| - 1];
    AttemptIp(RowsAfterIp(atts[..|atts| - 1], l), a.key, a.at, l).0
  }

  function AcceptedIp(atts: seq<Attempt>, l: Limit): seq<Attempt> {
    if atts == [] then [] else
    var before, a := atts[..|atts| - 1], atts[|atts| - 1];
    AcceptedIp(before, l) + if AttemptIp(RowsAfterIp(before, l), a.key, a.at, l).1 then [a] else []
  }

  predicate NonDecreasing(atts: seq<Attempt>) {
    forall i, j :: 0 <= i < j < |atts| ==> atts[i].at <= atts[j].at
  }

  /** How many of the attempts are by `k`, at times `from` to `to` inclusive. */
  function CountIn(atts: seq<Attempt>, k: Key, from: int, to: int): nat {
    if atts == [] then 0 else
    var a := atts[|atts| - 1];
    CountIn(atts[..|atts| - 1], k, from, to) + if a.key == k && from <= a.at <= to then 1 else 0
  }

  /** What the stored row says about the attempts accepted in the interval starting at `from`. */
  predicate WindowTells(rows: Rows, clock: int, n: nat, k: Key, from: int, l: Limit) {
    && (clock < from ==> n == 0)
    && (if k !in rows then n == 0 else
          var row := rows[k];
          && 1 <= row.count <= l.max && row.windowStart <= clock
          && (row.windowStart < from ==> n <= row.count - 1)
          && (from <= row.windowStart <= from + l.window ==> n <= l.max - 1 + row.count)
          && n <= 2 * l.max - 1)
  }

  lemma AttemptTells(rows: Rows, clock: int, n: nat, a: Attempt, k: Key, from: int, l: Limit)
    requires l.max >= 1 && l.window >= 0 && clock <= a.at && WindowTells(rows, clock, n, k, from, l)
    ensures var (rows', ok) := AttemptEdit(rows, a.key, a.at, l);
      WindowTells(rows', a.at, if ok && a.key == k && from <= a.at <= from + l.window then n + 1 else n, k, from, l)
  {
  }

  lemma CountSnoc(atts: seq<Attempt>, a: Attempt, k: Key, from: int, to: int)
    ensures CountIn(atts + [a], k, from, to)
            == CountIn(atts, k, from, to) + if a.key == k && from <= a.at <= to then 1 else 0
  {
  }

  lemma {:induction false} RunTells(atts: seq<Attempt>, clock: int, k: Key, from: int, l: Limit)
    requires l.max >= 1 && l.window >= 0 && NonDecreasing(atts)
    requires forall i :: 0 <= i < |atts| ==> atts[i].at <= clock
    requires |atts| > 0 ==> clock == atts[|atts| - 1].at
    ensures WindowTells(RowsAfter(atts, l), clock, CountIn(Accepted(atts, l), k, from, from + l.window), k, from, l)
  {
    if atts != [] {
      var before, a := atts[..|atts| - 1], atts[|atts| - 1];
      var earlier := if before == [] then a.at else before[|before| - 1].at;
      RunTells(before, earlier, k, from, l);
      var n := CountIn(Accepted(before, l), k, from, from + l.window);
      AttemptTells(RowsAfter(before, l), earlier, n, a, k, from, l);
      CountSnoc(Accepted(before, l), a, k, from, from + l.window);
      assert Accepted(before, l) + [] == Accepted(before, l);
    }
  }

  /** In any closed interval one window long, fewer than twice the cap are let through. */
  lemma {:induction false} SlidingBound(atts: seq<Attempt>, k: Key, from: int, l: Limit)
    requires l.max >= 1 && l.window >= 0 && NonDecreasing(atts)
    ensures CountIn(Accepted(atts, l), k, from, from + l.window) <= 2 * l.max - 1
  {
    RunTells(atts, if atts == [] then from else atts[|atts| - 1].at, k, from, l);
  }

  /** For edits: at most nine in any hour, both ends included. */
  lemma {:induction false} EditsPerHour(atts: seq<Attempt>, k: Key, from: int)
    requires NonDecreasing(atts)
    ensures CountIn(Accepted(atts, EDITS), k, from, from + 3_600_000) <= 9
  {
    SlidingBound(atts, k, from, EDITS);
  }

  // ---- the two throttles agree ----

  /** A table window of W milliseconds is an in-memory window of W + 1: same decisions, same
      rows, on every sequence of attempts. */
  lemma {:induction false} SameDecisions(atts: seq<Attempt>, l: Limit)
    ensures RowsAfter(atts, l) == RowsAfterIp(atts, Limit(l.window + 1, l.max))
    ensures Accepted(atts, l) == AcceptedIp(atts, Limit(l.window + 1, l.max))
  {
    if atts != [] {
      SameDecisions(atts[..|atts| - 1], l);
    }
  }

  /** Hence the in-memory throttle keeps the bound over any interval of `window` milliseconds. */
  lemma {:induction false} SlidingBoundIp(atts: seq<Attempt>, k: Key, from: int, l: Limit)
    requires l.max >= 1 && l.window >= 1 && NonDecreasing(atts)
    ensures CountIn(AcceptedIp(atts, l), k, from, from + l.window - 1) <= 2 * l.max - 1
  {
    SameDecisions(atts, Limit(l.window - 1, l.max));
    SlidingBound(atts, k, from, Limit(l.window - 1, l.max));
  }

  // ---- keys do not interfere ----

  function Only(atts: seq<Attempt>, k: Key): seq<Attempt> {
    if atts == [] then [] else
    var a := atts[|atts| - 1];
    Only(atts[..|atts| - 1], k) + if a.key == k then [a] else []
  }

  lemma OnlySnoc(atts: seq<Attempt>, a: Attempt, k: Key)
    ensures Only(atts + [a], k) == Only(atts, k) + if a.key == k then [a] else []
  {
  }

  function RowOf(rows: Rows, k: Key): Option<Row> {
    if k in rows then Some(rows[k]) else None
  }

  lemma AttemptOnRow(rows: Rows, rows': Rows, a: Attempt, k: Key, l: Limit)
    ensures a.key != k ==> RowOf(AttemptEdit(rows, a.key, a.at, l).0, k) == RowOf(rows, k)
    ensures a.key == k && RowOf(rows, k) == RowOf(rows', k) ==>
      && RowOf(AttemptEdit(rows, k, a.at, l).0, k) == RowOf(AttemptEdit(rows', k, a.at, l).0, k)
      && AttemptEdit(rows, k, a.at, l).1 == AttemptEdit(rows', k, a.at, l).1
  {
  }

  /** What happens to `k` is what would happen if nobody else had tried. */
  lemma {:induction false} KeysAreIndependent(atts: seq<Attempt>, k: Key, l: Limit)
    ensures Only(Accepted(atts, l), k) == Accepted(Only(atts, k), l)
    ensures RowOf(RowsAfter(atts, l), k) == RowOf(RowsAfter(Only(atts, k), l), k)
  {
    if atts != [] {
      var before, a := atts[..|atts| - 1], atts[|atts| - 1];
      KeysAreIndependent(before, k, l);
      OnlySnoc(Accepted(before, l), a, k);
      AttemptOnRow(RowsAfter(before, l), RowsAfter(Only(before, k), l), a, k, l);
      assert Accepted(before, l) + [] == Accepted(before, l);
      if a.key == k {
        assert Only(atts, k)[..|Only(atts, k)| - 1] == Only(before, k);
      } else {
        assert Only(atts, k) == Only(before, k);
      }
    }
  }

  // ---- the bound is met ----

  function Repeated(a: Attempt, n: nat): seq<Attempt> {
    seq(n, _ => a)
  }

  lemma {:induction false} RepeatsAreAccepted(before: seq<Attempt>, a: Attempt, n: nat, l: Limit)
    requires Current(RowsAfter(before, l), a.key, a.at, l) && RowsAfter(before, l)[a.key].count + n <= l.max
    ensures Accepted(before + Repeated(a, n), l) == Accepted(before, l) + Repeated(a, n)
    ensures Current(RowsAfter(before + Repeated(a, n), l), a.key, a.at, l)
    ensures RowsAfter(before + Repeated(a, n), l)[a.key]
            == Row(RowsAfter(before, l)[a.key].count + n, RowsAfter(before, l)[a.key].windowStart)
  {
    if n == 0 {
      assert before + Repeated(a, 0) == before;
    } else {
      RepeatsAreAccepted(before, a, n - 1, l);
      assert (before + Repeated(a, n))[..|before| + n - 1] == before + Repeated(a, n - 1);
    }
  }

  lemma {:induction false} CountRepeats(atts: seq<Attempt>, a: Attempt, n: nat, from: int, to: int)
    requires from <= a.at <= to
    ensures CountIn(atts + Repeated(a, n), a.key, from, to) == CountIn(atts, a.key, from, to) + n
  {
    if n == 0 {
      assert atts + Repeated(a, 0) == atts;
    } else {
      CountRepeats(atts, a, n - 1, from, to);
      assert (atts + Repeated(a, n))[..|atts| + n - 1] == atts + Repeated(a, n - 1);
    }
  }

  lemma OpensWindow(before: seq<Attempt>, a: Attempt, l: Limit)
    requires !Current(RowsAfter(before, l), a.key, a.at, l)
    ensures Accepted(before + [a], l) == Accepted(before, l) + [a]
    ensures RowOf(RowsAfter(before + [a], l), a.key) == Some(Row(1, a.at))
  {
  }

  /** One attempt opens a window, and the others allowed in it come at its last instant. */
  function FirstWindow(k: Key, l: Limit): seq<Attempt>
    requires l.max >= 1
  {
    [Attempt(k, 0)] + Repeated(Attempt(k, l.window), l.max - 1)
  }

  /** A full window follows one millisecond later. */
  function Burst(k: Key, l: Limit): seq<Attempt>
    requires l.max >= 1
  {
    FirstWindow(k, l) + [Attempt(k, l.window + 1)] + Repeated(Attempt(k, l.window + 1), l.max - 1)
  }

  lemma BurstIsAccepted(k: Key, l: Limit)
    requires l.max >= 1 && l.window >= 0
    ensures Accepted(Burst(k, l), l) == Burst(k, l)
  {
    hide Accepted, RowsAfter, AttemptEdit;
    NothingYet(l);
    OpensWindow([], Attempt(k, 0), l);
    assert [] + [Attempt(k, 0)] == [Attempt(k, 0)];
    RepeatsAreAccepted([Attempt(k, 0)], Attempt(k, l.window), l.max - 1, l);
    OpensWindow(FirstWindow(k, l), Attempt(k, l.window + 1), l);
    RepeatsAreAccepted(FirstWindow(k, l) + [Attempt(k, l.window + 1)], Attempt(k, l.window + 1), l.max - 1, l);
  }

  lemma NothingYet(l: Limit)
    ensures RowsAfter([], l) == map[] && Accepted([], l) == []
  {
  }

  lemma {:induction false} BoundIsMet(k: Key, l: Limit)
    requires l.max >= 1 && l.window >= 1
    ensures NonDecreasing(Burst(k, l))
    ensures CountIn(Accepted(Burst(k, l), l), k, l.window, l.window + l.window) == 2 * l.max - 1
  {
    BurstIsAccepted(k, l);
    hide Accepted;
    var one, again := [Attempt(k, 0)], FirstWindow(k, l) + [Attempt(k, l.window + 1)];
    CountSnoc([], Attempt(k, 0), k, l.window, 2 * l.window);
    assert [] + one == one;
    CountRepeats(one, Attempt(k, l.window), l.max - 1, l.window, 2 * l.window);
    CountSnoc(FirstWindow(k, l), Attempt(k, l.window + 1), k, l.window, 2 * l.window);
    CountRepeats(again, Attempt(k, l.window + 1), l.max - 1, l.window, 2 * l.window);
  }
}
