/**
 The hourly SLA sweep over the moderation queue, each sweep and each service call atomic.
 Every call other than the sweep is an action of the `Queue` module.
 */
module Sla {
  import opened Wrappers
  import opened Queue
  import opened Lifecycle
  import opened Protocol

  datatype Kind = WarningSent | BreachSent | ResolvedSent
  datatype Alert = Alert(kind: Kind, id: Id)
  datatype Desk = Desk(db: Db, alerts: seq<Alert>, clock: int)

  /** The rows a sweep at `now` selects. */
  function Due(db: Db, breach: bool, now: int, slaWindow: int): set<Id> {
    set id | id in db.queue && SlaDue(db.queue[id], breach, Env(now, slaWindow, None))
  }

  /** A query answers with the selected rows in no particular order. */
  predicate Lists(rows: seq<Id>, ids: set<Id>) {
    && (forall i, j :: 0 <= i < j < |rows| ==> rows[i] != rows[j])
    && (forall id :: id in rows ==> id in ids)
    && (forall id :: id in ids ==> id in rows)
  }

  function Stamp(e: Entry, breach: bool): Entry {
    if breach then e.(breached := true) else e.(warned := true)
  }

  function Stamped(db: Db, rows: seq<Id>, breach: bool): Db {
    db.(queue := map id | id in db.queue :: if id in rows then Stamp(db.queue[id], breach) else db.queue[id])
  }

  function SentFor(rows: seq<Id>, breach: bool): seq<Alert> {
    seq(|rows|, i requires 0 <= i < |rows| => Alert(if breach then BreachSent else WarningSent, rows[i]))
  }

  class SlaBreachDetection {
    var db: Db
    var alerts: seq<Alert>

    constructor (db: Db)
      ensures this.db == db && alerts == []
    {
      this.db, alerts := db, [];
    }

    /** `notifyWarning` and `notifyBreach`: publish, then stamp the row. */
    method Notify(id: Id, breach: bool)
      requires id in db.queue
      modifies this
      ensures alerts == old(alerts) + [Alert(if breach then BreachSent else WarningSent, id)]
      ensures db == Stamped(old(db), [id], breach)
    {
      alerts := alerts + [Alert(if breach then BreachSent else WarningSent, id)];
      db := SetEntry(db, id, Stamp(db.queue[id], breach));
      assert db.queue == Stamped(old(db), [id], breach).queue;
    }

    method NotifyAll(rows: seq<Id>, breach: bool)
      requires forall id :: id in rows ==> id in db.queue
      modifies this
      ensures alerts == old(alerts) + SentFor(rows, breach)
      ensures db == Stamped(old(db), rows, breach)
    {
      assert Stamped(db, rows[..0], breach).queue == db.queue;
      for i := 0 to |rows|
        invariant alerts == old(alerts) + SentFor(rows[..i], breach)
        invariant db == Stamped(old(db), rows[..i], breach)
      {
        Notify(rows[i], breach);
        StampedSnoc(old(db), rows[..i], rows[i], breach);
        assert rows[..i + 1] == rows[..i] + [rows[i]];
      }
      assert rows[..|rows|] == rows;
    }

    /** `sweep`: the warnings, then the breaches, each on its own reading of the clock. */
    method Sweep(warnRows: seq<Id>, breachRows: seq<Id>, warnAt: int, breachAt: int, slaWindow: int)
      requires Lists(warnRows, Due(db, false, warnAt, slaWindow))
      requires Lists(breachRows, Due(Stamped(db, warnRows, false), true, breachAt, slaWindow))
      modifies this
      ensures Desk(db, alerts, breachAt)
              == SweepDesk(Desk(old(db), old(alerts), warnAt), warnRows, breachRows, breachAt)
    {
      NotifyAll(warnRows, false);
      NotifyAll(breachRows, true);
    }
  }

  lemma StampedSnoc(db: Db, rows: seq<Id>, id: Id, breach: bool)
    ensures Stamped(Stamped(db, rows, breach), [id], breach) == Stamped(db, rows + [id], breach)
  {
  }

  // ---- runs ----

  function SweepDesk(d: Desk, warnRows: seq<Id>, breachRows: seq<Id>, breachAt: int): Desk {
    Desk(Stamped(Stamped(d.db, warnRows, false), breachRows, true),
         d.alerts + SentFor(warnRows, false) + SentFor(breachRows, true), breachAt)
  }

  datatype Move =
    | Does(action: Action, at: int)
    | Sweep(warnRows: seq<Id>, breachRows: seq<Id>, warnAt: int, breachAt: int)

  /** The actions that open an entry. */
  predicate Opens(a: Action) {
    a.Submit? || a.Resubmit? || a.Overwrite?
  }

  /** Time does not run backwards, a sweep handles what its queries select, and an entry's
      deadline lies one SLA window after it is opened. */
  predicate Enabled(d: Desk, m: Move, slaWindow: int) {
    match m
    case Does(a, at) =>
      && d.clock <= at
      && !a.StampWarned? && !a.StampBreached?
      && (Opens(a) ==> a.deadline == at + slaWindow)
      && (a.Overwrite? ==> a.seen.eid < d.db.nextId)
    case Sweep(warnRows, breachRows, warnAt, breachAt) =>
      && d.clock <= warnAt <= breachAt
      && Lists(warnRows, Due(d.db, false, warnAt, slaWindow))
      && Lists(breachRows, Due(Stamped(d.db, warnRows, false), true, breachAt, slaWindow))
  }

  /** `review` announces the resolution of an entry that a sweep had flagged. */
  function Resolution(db: Db, a: Action): seq<Alert> {
    if a.Review? && ReviewWins(db, a.id, a.ref) && (db.queue[a.id].warned || db.queue[a.id].breached)
    then [Alert(ResolvedSent, a.id)] else []
  }

  function Exec(d: Desk, m: Move, slaWindow: int): Desk {
    if !Enabled(d, m, slaWindow) then d else
    match m
    case Does(a, at) => Desk(Act(Core(d.db, []), a).db, d.alerts + Resolution(d.db, a), at)
    case Sweep(warnRows, breachRows, _, breachAt) => SweepDesk(d, warnRows, breachRows, breachAt)
  }

  const Opening := Desk(EmptyDb, [], 0)

  function Run(moves: seq<Move>, slaWindow: int): Desk {
    if moves == [] then Opening else Exec(Run(moves[..|moves| - 1], slaWindow), moves[|moves| - 1], slaWindow)
  }

  // ---- the alerts of one entry ----

  function AlertsOf(alerts: seq<Alert>, id: Id): seq<Kind> {
    if alerts == [] then [] else
    var last := alerts[|alerts| - 1];
    AlertsOf(alerts[..|alerts| - 1], id) + if last.id == id then [last.kind] else []
  }

  /** A warning if `w`, then a breach if `b`, then the resolution of either if `r`. */
  function Form(w: bool, b: bool, r: bool): seq<Kind> {
    (if w then [WarningSent] else []) + (if b then [BreachSent] else []) + if (w || b) && r then [ResolvedSent] else []
  }

  ghost predicate Orderly(kinds: seq<Kind>) {
    exists w, b, r :: kinds == Form(w, b, r)
  }

  predicate RowAlerted(kinds: seq<Kind>, e: Entry, clock: int) {
    && kinds == Form(e.warned, e.breached, e.decision.Some?)
    && (e.breached ==> e.slaDeadline < clock)
  }

  ghost predicate Alerted(d: Desk, id: Id) {
    && Orderly(AlertsOf(d.alerts, id))
    && (id in d.db.queue ==> RowAlerted(AlertsOf(d.alerts, id), d.db.queue[id], d.clock))
    && (d.db.nextId <= id ==> AlertsOf(d.alerts, id) == [])
  }

  lemma {:induction false} AlertsConcat(xs: seq<Alert>, ys: seq<Alert>, id: Id)
    ensures AlertsOf(xs + ys, id) == AlertsOf(xs, id) + AlertsOf(ys, id)
    decreases |ys|
  {
    if ys == [] {
      assert xs + ys == xs;
    } else {
      var ys' := ys[..|ys| - 1];
      AlertsConcat(xs, ys', id);
      assert (xs + ys)[..|xs + ys| - 1] == xs + ys';
    }
  }

  lemma AlertsOfThree(xs: seq<Alert>, ys: seq<Alert>, zs: seq<Alert>, id: Id)
    ensures AlertsOf(xs + ys + zs, id) == AlertsOf(xs, id) + (AlertsOf(ys, id) + AlertsOf(zs, id))
  {
    hide AlertsOf;
    AlertsConcat(xs + ys, zs, id);
    AlertsConcat(xs, ys, id);
    assert AlertsOf(xs, id) + AlertsOf(ys, id) + AlertsOf(zs, id)
        == AlertsOf(xs, id) + (AlertsOf(ys, id) + AlertsOf(zs, id));
  }

  lemma {:induction false} SentOnce(rows: seq<Id>, breach: bool, id: Id)
    requires forall i, j :: 0 <= i < j < |rows| ==> rows[i] != rows[j]
    ensures AlertsOf(SentFor(rows, breach), id)
            == if id in rows then [if breach then BreachSent else WarningSent] else []
  {
    if rows != [] {
      var rows' := rows[..|rows| - 1];
      SentOnce(rows', breach, id);
      assert SentFor(rows, breach)[..|rows| - 1] == SentFor(rows', breach);
      assert id in rows <==> id in rows' || id == rows[|rows| - 1];
    }
  }

  predicate WarnsAt(at: int, deadline: int, slaWindow: int) {
    at < deadline && 4 * (deadline - at) <= slaWindow
  }

  /** What any call other than the sweep can do to a row the sweep looks at. */
  predicate SameFlags(e: Entry, e': Entry) {
    e'.slaDeadline == e.slaDeadline && e'.warned == e.warned && e'.breached == e.breached
  }

  predicate NeverHandled(e: Entry) { !e.warned && !e.breached && e.decision.None? }

  lemma ActOnRow(db: Db, a: Action, id: Id)
    requires Fresh(Core(db, [])) && !a.StampWarned? && !a.StampBreached?
    requires id in Act(Core(db, []), a).db.queue
    ensures var db' := Act(Core(db, []), a).db;
      if id in db.queue then
        && SameFlags(db.queue[id], db'.queue[id])
        && (if a.Review? && a.id == id && ReviewWins(db, id, a.ref)
            then db.queue[id].decision.None? && db'.queue[id].decision.Some?
            else db'.queue[id].decision == db.queue[id].decision)
      else
        && db.nextId <= id < db'.nextId && NeverHandled(db'.queue[id])
        && Opens(a) && db'.queue[id].slaDeadline == a.deadline
  {
    hide Escalates, CanRemove, Unreviewed, Thread, Vacated;
  }

  lemma DoesAlerted(d: Desk, m: Move, slaWindow: int, id: Id)
    requires Fresh(Core(d.db, [])) && m.Does? && Alerted(d, id)
    ensures Alerted(Exec(d, m, slaWindow), id)
  {
    hide Act, Fresh;
    if Enabled(d, m, slaWindow) {
      var d', a := Exec(d, m, slaWindow), m.action;
      FreshStep(Core(d.db, []), a);
      AlertsConcat(d.alerts, Resolution(d.db, a), id);
      if id in d'.db.queue {
        ActOnRow(d.db, a, id);
      }
      ResolutionOf(d, a, id);
    }
  }

  lemma ResolutionOf(d: Desk, a: Action, id: Id)
    requires Fresh(Core(d.db, [])) && Alerted(d, id)
    ensures var more := AlertsOf(Resolution(d.db, a), id);
      && more == (if a.Review? && a.id == id then AlertsOf(Resolution(d.db, a), a.id) else [])
      && Orderly(AlertsOf(d.alerts, id) + more)
      && (d.db.nextId <= id ==> more == [])
      && (id in d.db.queue && a.Review? && a.id == id && ReviewWins(d.db, id, a.ref) ==>
            AlertsOf(d.alerts, id) + more == Form(d.db.queue[id].warned, d.db.queue[id].breached, true))
      && (id in d.db.queue && !(a.Review? && a.id == id && ReviewWins(d.db, id, a.ref)) ==> more == [])
  {
    var r := Resolution(d.db, a);
    if r != [] {
      assert r[..|r| - 1] == [];
    }
    if r != [] && a.id == id {
      var e := d.db.queue[id];
      assert AlertsOf(d.alerts, id) + AlertsOf(r, id) == Form(e.warned, e.breached, true);
    } else {
      assert AlertsOf(d.alerts, id) + AlertsOf(r, id) == AlertsOf(d.alerts, id);
    }
  }

  lemma SweepOnRow(d: Desk, m: Move, slaWindow: int, id: Id)
    requires m.Sweep? && Enabled(d, m, slaWindow)
    ensures Exec(d, m, slaWindow).db.queue.Keys == d.db.queue.Keys && Exec(d, m, slaWindow).db.nextId == d.db.nextId
    ensures var w, b := id in m.warnRows, id in m.breachRows;
      if id in d.db.queue then var e := d.db.queue[id];
        && Exec(d, m, slaWindow).db.queue[id] == e.(warned := e.warned || w, breached := e.breached || b)
        && (w <==> e.decision.None? && !e.warned && e.claimedBy.None? && WarnsAt(m.warnAt, e.slaDeadline, slaWindow))
        && (b <==> e.decision.None? && !e.breached && e.slaDeadline < m.breachAt)
      else !w && !b
  {
  }

  function SentTo(w: bool, b: bool): seq<Kind> {
    (if w then [WarningSent] else []) + if b then [BreachSent] else []
  }

  lemma FormGrows(e: Entry, w: bool, b: bool)
    requires (w ==> e.decision.None? && !e.warned && !e.breached) && (b ==> e.decision.None? && !e.breached)
    ensures Form(e.warned, e.breached, e.decision.Some?) + SentTo(w, b)
            == Form(e.warned || w, e.breached || b, e.decision.Some?)
  {
  }

  lemma SweepAlerts(d: Desk, m: Move, slaWindow: int, id: Id)
    requires m.Sweep? && Enabled(d, m, slaWindow)
    ensures AlertsOf(Exec(d, m, slaWindow).alerts, id)
            == AlertsOf(d.alerts, id) + SentTo(id in m.warnRows, id in m.breachRows)
  {
    hide Stamped, Due, SentFor, AlertsOf;
    SentOnce(m.warnRows, false, id);
    SentOnce(m.breachRows, true, id);
    AlertsOfThree(d.alerts, SentFor(m.warnRows, false), SentFor(m.breachRows, true), id);
  }

  lemma SweepAlerted(d: Desk, m: Move, slaWindow: int, id: Id)
    requires Fresh(Core(d.db, [])) && m.Sweep? && Enabled(d, m, slaWindow) && Alerted(d, id)
    ensures Alerted(Exec(d, m, slaWindow), id)
  {
    SweepOnRow(d, m, slaWindow, id);
    SweepAlerts(d, m, slaWindow, id);
    hide SentFor, Lists, Due, AlertsOf, Stamped;
    if id in d.db.queue {
      FormGrows(d.db.queue[id], id in m.warnRows, id in m.breachRows);
      hide Form, SentTo;
      assert RowAlerted(AlertsOf(Exec(d, m, slaWindow).alerts, id), Exec(d, m, slaWindow).db.queue[id], m.breachAt);
    } else {
      assert AlertsOf(d.alerts, id) + SentTo(false, false) == AlertsOf(d.alerts, id);
    }
  }

  lemma {:induction false} RunAlerted(moves: seq<Move>, slaWindow: int, id: Id)
    ensures Fresh(Core(Run(moves, slaWindow).db, [])) && Alerted(Run(moves, slaWindow), id)
  {
    if moves == [] {
      assert Form(false, false, false) == [];
    } else {
      var d, m := Run(moves[..|moves| - 1], slaWindow), moves[|moves| - 1];
      RunAlerted(moves[..|moves| - 1], slaWindow, id);
      hide Act, Fresh, Alerted;
      if Enabled(d, m, slaWindow) {
        if m.Does? {
          FreshStep(Core(d.db, []), m.action);
          DoesAlerted(d, m, slaWindow, id);
        } else {
          SweepAlerted(d, m, slaWindow, id);
        }
      }
    }
  }

  /** In every run an entry's alerts read: at most one warning, then at most one breach, then,
      once it is reviewed, its resolution exactly when one of the two was sent. */
  lemma {:induction false} AlertsInOrder(moves: seq<Move>, slaWindow: int, id: Id)
    ensures var d := Run(moves, slaWindow);
      && (exists w, b, r :: AlertsOf(d.alerts, id) == Form(w, b, r))
      && (id in d.db.queue ==> var e := d.db.queue[id];
            && AlertsOf(d.alerts, id) == Form(e.warned, e.breached, e.decision.Some?)
            && (ResolvedSent in AlertsOf(d.alerts, id) <==> e.decision.Some? && (e.warned || e.breached)))
  {
    RunAlerted(moves, slaWindow, id);
  }

  // ---- how often the sweep must run ----

  /** The sweeps of a run, as the two clock readings each takes. */
  function Sweeps(moves: seq<Move>, slaWindow: int): seq<(int, int)> {
    if moves == [] then [] else
    var before, m := moves[..|moves| - 1], moves[|moves| - 1];
    Sweeps(before, slaWindow) +
      if m.Sweep? && Enabled(Run(before, slaWindow), m, slaWindow) then [(m.warnAt, m.breachAt)] else []
  }

  /** No sweep ends more than a quarter of the SLA window after it or its predecessor began. */
  predicate QuarterlySweeps(sweeps: seq<(int, int)>, slaWindow: int) {
    forall i, j :: 0 <= i < |sweeps| && i <= j <= i + 1 && j < |sweeps| ==> 4 * (sweeps[j].1 - sweeps[i].0) <= slaWindow
  }

  predicate SweepsBefore(sweeps: seq<(int, int)>, clock: int) {
    && (forall i :: 0 <= i < |sweeps| ==> sweeps[i].0 <= sweeps[i].1 <= clock)
    && (forall i, j :: 0 <= i < j < |sweeps| ==> sweeps[i].1 <= sweeps[j].0)
  }

  /** Entry `id` is found unclaimed by every sweep that begins before its deadline. */
  predicate NobodyOnIt(moves: seq<Move>, slaWindow: int, id: Id) {
    moves == [] ||
    var d, m := Run(moves[..|moves| - 1], slaWindow), moves[|moves| - 1];
    && NobodyOnIt(moves[..|moves| - 1], slaWindow, id)
    && (m.Sweep? && id in d.db.queue && m.warnAt < d.db.queue[id].slaDeadline ==> d.db.queue[id].claimedBy.None?)
  }

  /** An entry no sweep has warned about, although it was open, has met no sweep in the last
      quarter of its window. */
  ghost predicate Missed(d: Desk, sweeps: seq<(int, int)>, slaWindow: int, id: Id) {
    id in d.db.queue && !d.db.queue[id].warned && (d.db.queue[id].breached || d.db.queue[id].decision.None?) ==>
      && (forall i :: 0 <= i < |sweeps| ==> !WarnsAt(sweeps[i].0, d.db.queue[id].slaDeadline, slaWindow))
      && (d.db.queue[id].breached ==> exists i :: 0 <= i < |sweeps| && d.db.queue[id].slaDeadline < sweeps[i].1)
  }

  lemma DoesMissed(d: Desk, m: Move, sweeps: seq<(int, int)>, slaWindow: int, id: Id)
    requires slaWindow > 0 && Fresh(Core(d.db, [])) && m.Does? && SweepsBefore(sweeps, d.clock)
    requires Missed(d, sweeps, slaWindow, id)
    ensures Missed(Exec(d, m, slaWindow), sweeps, slaWindow, id)
  {
    hide Act, Fresh;
    var d' := Exec(d, m, slaWindow);
    if id in d'.db.queue && Enabled(d, m, slaWindow) {
      ActOnRow(d.db, m.action, id);
    }
  }

  lemma SweepMissed(d: Desk, m: Move, sweeps: seq<(int, int)>, slaWindow: int, id: Id)
    requires m.Sweep? && Enabled(d, m, slaWindow) && Alerted(d, id)
    requires Missed(d, sweeps, slaWindow, id)
    requires id in d.db.queue && m.warnAt < d.db.queue[id].slaDeadline ==> d.db.queue[id].claimedBy.None?
    ensures Missed(Exec(d, m, slaWindow), sweeps + [(m.warnAt, m.breachAt)], slaWindow, id)
  {
    SweepOnRow(d, m, slaWindow, id);
    hide Stamped, Lists, Due, AlertsOf, SentFor;
    var d', sweeps' := Exec(d, m, slaWindow), sweeps + [(m.warnAt, m.breachAt)];
    assert forall i :: 0 <= i < |sweeps| ==> sweeps'[i] == sweeps[i];
    assert id in d'.db.queue && d'.db.queue[id].breached && !d.db.queue[id].breached ==>
        d'.db.queue[id].slaDeadline < sweeps'[|sweeps|].1;
  }

  lemma StepMissed(d: Desk, m: Move, sweeps: seq<(int, int)>, slaWindow: int, id: Id)
    requires slaWindow > 0 && Fresh(Core(d.db, [])) && Alerted(d, id)
    requires Missed(d, sweeps, slaWindow, id) && SweepsBefore(sweeps, d.clock)
    requires m.Sweep? && id in d.db.queue && m.warnAt < d.db.queue[id].slaDeadline ==> d.db.queue[id].claimedBy.None?
    ensures var sweeps' := sweeps + if m.Sweep? && Enabled(d, m, slaWindow) then [(m.warnAt, m.breachAt)] else [];
      Missed(Exec(d, m, slaWindow), sweeps', slaWindow, id) && SweepsBefore(sweeps', Exec(d, m, slaWindow).clock)
  {
    hide Missed, Alerted, Fresh, Lists, Due, Act, Stamped;
    if m.Sweep? && Enabled(d, m, slaWindow) {
      SweepMissed(d, m, sweeps, slaWindow, id);
    } else {
      assert sweeps + [] == sweeps;
      if m.Does? { DoesMissed(d, m, sweeps, slaWindow, id); }
    }
  }

  lemma {:induction false} RunMissed(moves: seq<Move>, slaWindow: int, id: Id)
    requires slaWindow > 0 && NobodyOnIt(moves, slaWindow, id)
    ensures Missed(Run(moves, slaWindow), Sweeps(moves, slaWindow), slaWindow, id)
    ensures SweepsBefore(Sweeps(moves, slaWindow), Run(moves, slaWindow).clock)
  {
    hide Alerted, Fresh, Lists, Due, Exec, Enabled;
    if moves != [] {
      var before, m := moves[..|moves| - 1], moves[|moves| - 1];
      RunMissed(before, slaWindow, id);
      RunAlerted(before, slaWindow, id);
      StepMissed(Run(before, slaWindow), m, Sweeps(before, slaWindow), slaWindow, id);
    }
  }

  /** The last sweep to begin before the deadline begins in its last quarter. */
  lemma {:induction false} SomeSweepWarns(sweeps: seq<(int, int)>, i: nat, j: nat, deadline: int,
        slaWindow: int, clock: int)
    requires QuarterlySweeps(sweeps, slaWindow) && SweepsBefore(sweeps, clock)
    requires i <= j < |sweeps| && sweeps[i].0 < deadline < sweeps[j].1
    ensures exists k :: 0 <= k < |sweeps| && WarnsAt(sweeps[k].0, deadline, slaWindow)
    decreases j - i
  {
    if i < j && sweeps[i + 1].0 < deadline {
      SomeSweepWarns(sweeps, i + 1, j, deadline, slaWindow, clock);
    } else {
      assert i < j ==> deadline <= sweeps[i + 1].0 <= sweeps[i + 1].1;
      assert WarnsAt(sweeps[i].0, deadline, slaWindow);
    }
  }

  /** With sweeps at most a quarter of the SLA window apart, an entry that nobody had claimed
      before its deadline is warned about before it is reported as breached. */
  lemma {:induction false} WarnedBeforeBreached(moves: seq<Move>, slaWindow: int, id: Id, first: nat)
    requires slaWindow > 0 && NobodyOnIt(moves, slaWindow, id)
    requires QuarterlySweeps(Sweeps(moves, slaWindow), slaWindow)
    requires var d := Run(moves, slaWindow);
      && id in d.db.queue && d.db.queue[id].breached
      && first < |Sweeps(moves, slaWindow)| && Sweeps(moves, slaWindow)[first].0 < d.db.queue[id].slaDeadline
    ensures [WarningSent, BreachSent] <= AlertsOf(Run(moves, slaWindow).alerts, id)
  {
    hide Run, Sweeps;
    var d, sweeps := Run(moves, slaWindow), Sweeps(moves, slaWindow);
    RunAlerted(moves, slaWindow, id);
    RunMissed(moves, slaWindow, id);
    var e := d.db.queue[id];
    if !e.warned {
      var j :| 0 <= j < |sweeps| && e.slaDeadline < sweeps[j].1;
      assert first <= j;
      SomeSweepWarns(sweeps, first, j, e.slaDeadline, slaWindow, d.clock);
    }
  }
}
