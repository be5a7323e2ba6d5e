/**
 The notification consumer and its reconciliation sweep as handlers that check the log, send
 and then record, interleaved with each other and with crashes.
 */
module Notification {
  import opened Wrappers
  import opened Protocol
  import opened ProtocolInv
  import opened DedupKeys

  datatype Handler = Check(s: Subject) | Send(s: Subject) | Record(s: Subject) | Finished

  datatype Happening =
    | Checked(h: nat, s: Subject, found: bool)
    | Sent(h: nat, s: Subject)
    | Recorded(h: nat, s: Subject, inserted: bool)
    | Crashed(h: nat, s: Subject, afterSend: bool)

  datatype Mailroom = Mailroom(handlers: seq<Handler>, rows: seq<Key>, trace: seq<Happening>)

  datatype Delivery = Mailed | NoRecipient | SendFailed

  /** A bus delivery or a sweep starts a handler; a handler takes its next statement; the
      process running it dies, or its statement throws. */
  datatype Move = Begin(s: Subject) | Continue(h: nat, delivery: Delivery) | Crash(h: nat)

  function Exec(m: Mailroom, move: Move): Mailroom {
    match move
    case Begin(s) => m.(handlers := m.handlers + [Check(s)])
    case Continue(h, delivery) => if h < |m.handlers| then Advance(m, h, delivery) else m
    case Crash(h) =>
      if h >= |m.handlers| || m.handlers[h].Finished? then m else
      m.(handlers := m.handlers[h := Finished],
         trace := m.trace + [Crashed(h, m.handlers[h].s, m.handlers[h].Record?)])
  }

  function Advance(m: Mailroom, h: nat, delivery: Delivery): Mailroom
    requires h < |m.handlers|
  {
    match m.handlers[h]
    case Check(s) =>
      var found := KeyOf(s) in m.rows;
      m.(handlers := m.handlers[h := if found then Finished else Send(s)], trace := m.trace + [Checked(h, s, found)])
    case Send(s) =>
      if delivery.Mailed? then m.(handlers := m.handlers[h := Record(s)], trace := m.trace + [Sent(h, s)])
      else m.(handlers := m.handlers[h := Finished])
    case Record(s) =>
      var isNew := KeyOf(s) !in m.rows;
      Mailroom(m.handlers[h := Finished], if isNew then m.rows + [KeyOf(s)] else m.rows,
               m.trace + [Recorded(h, s, isNew)])
    case Finished => m
  }

  const Empty := Mailroom([], [], [])

  function Run(moves: seq<Move>): Mailroom {
    if moves == [] then Empty else Exec(Run(moves[..|moves| - 1]), moves[|moves| - 1])
  }

  // ---- at any interleaving ----

  /** The keys recorded so far, in order. */
  function RecordedKeys(trace: seq<Happening>): seq<Key> {
    if trace == [] then [] else
    var last := trace[|trace| - 1];
    RecordedKeys(trace[..|trace| - 1]) + if last.Recorded? && last.inserted then [KeyOf(last.s)] else []
  }

  ghost predicate HappeningOk(before: seq<Happening>, e: Happening) {
    match e
    case Checked(_, s, found) => found <==> KeyOf(s) in RecordedKeys(before)
    case Sent(h, s) => Checked(h, s, false) in before
    case Recorded(h, s, inserted) => Sent(h, s) in before && (inserted <==> KeyOf(s) !in RecordedKeys(before))
    case Crashed(h, s, afterSend) => afterSend ==> Sent(h, s) in before
  }

  ghost predicate TraceOk(trace: seq<Happening>) {
    forall k :: 0 <= k < |trace| ==> HappeningOk(trace[..k], trace[k])
  }

  ghost predicate HandlersOk(m: Mailroom) {
    forall h :: 0 <= h < |m.handlers| ==>
      && (m.handlers[h].Send? ==> Checked(h, m.handlers[h].s, false) in m.trace)
      && (m.handlers[h].Record? ==> Sent(h, m.handlers[h].s) in m.trace)
  }

  ghost predicate Inv(m: Mailroom) {
    TraceOk(m.trace) && HandlersOk(m) && m.rows == RecordedKeys(m.trace)
  }

  lemma TraceGrows(trace: seq<Happening>, e: Happening)
    requires TraceOk(trace) && HappeningOk(trace, e)
    ensures TraceOk(trace + [e])
    ensures RecordedKeys(trace + [e]) == RecordedKeys(trace) + if e.Recorded? && e.inserted then [KeyOf(e.s)] else []
  {
    hide KeyOf;
    assert (trace + [e])[..|trace|] == trace;
    forall k | 0 <= k < |trace + [e]| ensures HappeningOk((trace + [e])[..k], (trace + [e])[k]) {
      assert (trace + [e])[..k] == trace[..k];
      if k == |trace| { assert trace[..k] == trace; }
    }
  }

  lemma HandlersFollow(m: Mailroom, m': Mailroom, h: nat, e: Happening)
    requires HandlersOk(m) && h < |m.handlers| && m'.trace == m.trace + [e]
    requires |m'.handlers| == |m.handlers| && forall g :: 0 <= g < |m.handlers| && g != h ==>
        m'.handlers[g] == m.handlers[g]
    requires m'.handlers[h].Send? ==> e == Checked(h, m'.handlers[h].s, false)
    requires m'.handlers[h].Record? ==> e == Sent(h, m'.handlers[h].s)
    ensures HandlersOk(m')
  {
  }

  lemma MoveInv(m: Mailroom, move: Move)
    requires Inv(m)
    ensures Inv(Exec(m, move))
  {
    hide KeyOf, TraceOk, RecordedKeys;
    var m' := Exec(m, move);
    if |m'.trace| > |m.trace| {
      var e := m'.trace[|m.trace|];
      TraceGrows(m.trace, e);
      HandlersFollow(m, m', move.h, e);
    }
  }

  lemma {:induction false} RunInv(moves: seq<Move>)
    ensures Inv(Run(moves))
  {
    if moves == [] {
    } else {
      hide Inv, Exec;
      RunInv(moves[..|moves| - 1]);
      MoveInv(Run(moves[..|moves| - 1]), moves[|moves| - 1]);
    }
  }

  lemma {:induction false} KeysAreDistinct(trace: seq<Happening>)
    requires TraceOk(trace)
    ensures forall i, j :: 0 <= i < j < |RecordedKeys(trace)| ==> RecordedKeys(trace)[i] != RecordedKeys(trace)[j]
  {
    hide KeyOf;
    if trace != [] {
      var before := trace[..|trace| - 1];
      assert forall k :: 0 <= k < |before| ==> before[..k] == trace[..k];
      KeysAreDistinct(before);
      assert HappeningOk(before, trace[|trace| - 1]);
    }
  }

  lemma {:induction false} KeysComeFromRecords(trace: seq<Happening>, key: Key) returns (j: nat)
    requires key in RecordedKeys(trace)
    ensures j < |trace| && trace[j].Recorded? && trace[j].inserted && KeyOf(trace[j].s) == key
  {
    hide KeyOf;
    var last := trace[|trace| - 1];
    if last.Recorded? && last.inserted && KeyOf(last.s) == key {
      j := |trace| - 1;
    } else {
      j := KeysComeFromRecords(trace[..|trace| - 1], key);
    }
  }

  /** One row per key. */
  lemma {:induction false} OneRowPerKey(moves: seq<Move>)
    ensures forall i, j :: 0 <= i < j < |Run(moves).rows| ==> Run(moves).rows[i] != Run(moves).rows[j]
  {
    RunInv(moves);
    KeysAreDistinct(Run(moves).trace);
  }

  /** A row exists only after the handler that wrote it sent the mail. */
  lemma {:induction false} RowsFollowSends(moves: seq<Move>, key: Key) returns (i: nat, j: nat)
    requires key in Run(moves).rows
    ensures i < j < |Run(moves).trace|
    ensures var trace := Run(moves).trace;
      trace[j].Recorded? && KeyOf(trace[j].s) == key && trace[i] == Sent(trace[j].h, trace[j].s)
  {
    hide KeyOf;
    RunInv(moves);
    var trace := Run(moves).trace;
    j := KeysComeFromRecords(trace, key);
    assert HappeningOk(trace[..j], trace[j]);
    i :| 0 <= i < j && trace[..j][i] == Sent(trace[j].h, trace[j].s);
  }

  /** Every send comes from a handler that looked before the row existed. */
  lemma {:induction false} SendsFollowChecks(moves: seq<Move>, k: nat) returns (i: nat)
    requires k < |Run(moves).trace| && Run(moves).trace[k].Sent?
    ensures var trace := Run(moves).trace;
      i < k && trace[i] == Checked(trace[k].h, trace[k].s, false) && KeyOf(trace[k].s) !in RecordedKeys(trace[..i])
  {
    hide KeyOf;
    RunInv(moves);
    var trace := Run(moves).trace;
    assert HappeningOk(trace[..k], trace[k]);
    i :| 0 <= i < k && trace[..k][i] == Checked(trace[k].h, trace[k].s, false);
    assert HappeningOk(trace[..i], trace[i]);
  }

  /** An email is suppressed only when one about the very same occurrence was sent before:
      the same submission, the same resubmission, the same decision, the same alert. */
  lemma {:induction false} SuppressedOnlyByItself(moves: seq<Move>, k: nat) returns (i: nat)
    requires k < |Run(moves).trace| && Run(moves).trace[k].Checked? && Run(moves).trace[k].found
    ensures i < k && Run(moves).trace[i].Sent? && Run(moves).trace[i].s == Run(moves).trace[k].s
  {
    RunInv(moves);
    var trace := Run(moves).trace;
    assert HappeningOk(trace[..k], trace[k]);
    var j := KeysComeFromRecords(trace[..k], KeyOf(trace[k].s));
    KeyIsInjective(trace[j].s, trace[k].s);
    assert HappeningOk(trace[..j], trace[j]);
    i :| 0 <= i < j && trace[..j][i] == Sent(trace[j].h, trace[j].s);
  }

  // ---- when handlers of one key do not overlap ----

  function Sends(trace: seq<Happening>, key: Key): nat {
    if trace == [] then 0 else
    var last := trace[|trace| - 1];
    Sends(trace[..|trace| - 1], key) + if last.Sent? && KeyOf(last.s) == key then 1 else 0
  }

  function LateCrashes(trace: seq<Happening>, key: Key): nat {
    if trace == [] then 0 else
    var last := trace[|trace| - 1];
    LateCrashes(trace[..|trace| - 1], key) + if last.Crashed? && last.afterSend && KeyOf(last.s) == key then 1 else 0
  }

  /** Handler `h` is at work on `key`. */
  predicate WorksOn(m: Mailroom, h: nat, key: Key) {
    h < |m.handlers| && !m.handlers[h].Finished? && KeyOf(m.handlers[h].s) == key
  }

  predicate Idle(m: Mailroom, key: Key) {
    forall h :: 0 <= h < |m.handlers| ==> !WorksOn(m, h, key)
  }

  /** No handler starts while another is at work on the same key. */
  ghost predicate NonOverlapping(moves: seq<Move>) {
    forall n :: 0 <= n < |moves| && moves[n].Begin? ==> Idle(Run(moves[..n]), KeyOf(moves[n].s))
  }

  ghost predicate Unsettled(m: Mailroom, key: Key) {
    exists h :: 0 <= h < |m.handlers| && WorksOn(m, h, key) && m.handlers[h].Record?
  }

  ghost predicate Exclusive(m: Mailroom, key: Key) {
    && (forall h, g :: 0 <= h < |m.handlers| && 0 <= g < |m.handlers| && WorksOn(m, h, key) && WorksOn(m, g, key) ==>
        h == g)
    && (forall h :: 0 <= h < |m.handlers| && WorksOn(m, h, key) && !m.handlers[h].Check? ==> key !in m.rows)
  }

  ghost predicate Balanced(m: Mailroom, key: Key) {
    Sends(m.trace, key) == (if key in m.rows then 1 else 0) + LateCrashes(m.trace, key)
        + (if Unsettled(m, key) then 1 else 0)
  }

  lemma CountSnoc(trace: seq<Happening>, e: Happening, key: Key)
    ensures Sends(trace + [e], key) == Sends(trace, key) + if e.Sent? && KeyOf(e.s) == key then 1 else 0
    ensures LateCrashes(trace + [e], key)
            == LateCrashes(trace, key) + if e.Crashed? && e.afterSend && KeyOf(e.s) == key then 1 else 0
  {
  }

  lemma OtherKeyUntouched(m: Mailroom, m': Mailroom, h: nat, key: Key)
    requires h < |m.handlers| && !WorksOn(m, h, key) && !WorksOn(m', h, key) && |m'.handlers| == |m.handlers|
    requires forall g :: 0 <= g < |m.handlers| && g != h ==> m'.handlers[g] == m.handlers[g]
    requires key in m.rows <==> key in m'.rows
    requires Exclusive(m, key)
    ensures Exclusive(m', key) && (Unsettled(m', key) <==> Unsettled(m, key))
  {
    hide KeyOf;
    assert forall g :: 0 <= g < |m.handlers| ==> WorksOn(m', g, key) == WorksOn(m, g, key);
  }

  lemma OwnKeyMoves(m: Mailroom, m': Mailroom, h: nat, key: Key)
    requires h < |m.handlers| && WorksOn(m, h, key) && |m'.handlers| == |m.handlers|
    requires forall g :: 0 <= g < |m.handlers| && g != h ==> m'.handlers[g] == m.handlers[g]
    requires m'.handlers[h].Finished? || (WorksOn(m', h, key) && (m'.handlers[h].Check? || key !in m'.rows))
    requires Exclusive(m, key)
    ensures Exclusive(m', key)
    ensures Unsettled(m, key) <==> m.handlers[h].Record?
    ensures Unsettled(m', key) <==> m'.handlers[h].Record?
  {
    hide KeyOf;
    forall g | 0 <= g < |m.handlers| && g != h ensures !WorksOn(m', g, key) && !WorksOn(m, g, key) {
      assert !WorksOn(m, g, key);
    }
  }

  lemma BeginBalanced(m: Mailroom, s: Subject, key: Key)
    requires Exclusive(m, key) && Balanced(m, key)
    requires KeyOf(s) == key ==> Idle(m, key)
    ensures Exclusive(Exec(m, Begin(s)), key) && Balanced(Exec(m, Begin(s)), key)
  {
    hide KeyOf;
    var m' := Exec(m, Begin(s));
    assert forall g :: 0 <= g < |m.handlers| ==>
        m'.handlers[g] == m.handlers[g] && WorksOn(m', g, key) == WorksOn(m, g, key);
  }

  function One(b: bool): nat { if b then 1 else 0 }

  /** A handler at work on `key` takes a step, recorded as `e`. */
  lemma OwnStepBalanced(m: Mailroom, m': Mailroom, h: nat, e: Happening, key: Key)
    requires Exclusive(m, key) && Balanced(m, key) && h < |m.handlers| && WorksOn(m, h, key)
    requires |m'.handlers| == |m.handlers| && m'.handlers == m.handlers[h := m'.handlers[h]]
        && m'.trace == m.trace + [e]
    requires m'.handlers[h].Finished? || (WorksOn(m', h, key) && (m'.handlers[h].Check? || key !in m'.rows))
    requires KeyOf(e.s) == key
    requires One(e.Sent?) - One(e.Crashed? && e.afterSend)
             == One(key in m'.rows) - One(key in m.rows) + One(m'.handlers[h].Record?) - One(m.handlers[h].Record?)
    ensures Exclusive(m', key) && Balanced(m', key)
  {
    hide KeyOf;
    CountSnoc(m.trace, e, key);
    OwnKeyMoves(m, m', h, key);
  }

  lemma OtherStepBalanced(m: Mailroom, m': Mailroom, h: nat, more: seq<Happening>, key: Key)
    requires Exclusive(m, key) && Balanced(m, key) && h < |m.handlers| && !WorksOn(m, h, key) && !WorksOn(m', h, key)
    requires |m'.handlers| == |m.handlers| && forall g :: 0 <= g < |m.handlers| && g != h ==>
        m'.handlers[g] == m.handlers[g]
    requires key in m.rows <==> key in m'.rows
    requires m'.trace == m.trace + more && |more| <= 1 && (more != [] ==> KeyOf(more[0].s) != key)
    ensures Exclusive(m', key) && Balanced(m', key)
  {
    hide KeyOf;
    if more == [] { assert m'.trace == m.trace; } else { assert more == [more[0]]; CountSnoc(m.trace, more[0], key); }
    OtherKeyUntouched(m, m', h, key);
  }

  lemma CrashBalanced(m: Mailroom, h: nat, key: Key)
    requires Exclusive(m, key) && Balanced(m, key)
    ensures Exclusive(Exec(m, Crash(h)), key) && Balanced(Exec(m, Crash(h)), key)
  {
    hide KeyOf;
    if h < |m.handlers| && !m.handlers[h].Finished? {
      var e := Crashed(h, m.handlers[h].s, m.handlers[h].Record?);
      if WorksOn(m, h, key) { OwnStepBalanced(m, Exec(m, Crash(h)), h, e, key); }
      else { OtherStepBalanced(m, Exec(m, Crash(h)), h, [e], key); }
    }
  }

  lemma ContinueBalanced(m: Mailroom, h: nat, delivery: Delivery, key: Key)
    requires Exclusive(m, key) && Balanced(m, key) && h < |m.handlers| && !m.handlers[h].Finished?
    ensures Exclusive(Advance(m, h, delivery), key) && Balanced(Advance(m, h, delivery), key)
  {
    hide KeyOf;
    var m' := Advance(m, h, delivery);
    if m.handlers[h].Send? && !delivery.Mailed? {
      if WorksOn(m, h, key) { OwnKeyMoves(m, m', h, key); } else { OtherKeyUntouched(m, m', h, key); }
    } else {
      var e := m'.trace[|m.trace|];
      if WorksOn(m, h, key) { OwnStepBalanced(m, m', h, e, key); } else { OtherStepBalanced(m, m', h, [e], key); }
    }
  }

  lemma MoveBalanced(m: Mailroom, move: Move, key: Key)
    requires Exclusive(m, key) && Balanced(m, key)
    requires move.Begin? && KeyOf(move.s) == key ==> Idle(m, key)
    ensures Exclusive(Exec(m, move), key) && Balanced(Exec(m, move), key)
  {
    hide KeyOf;
    match move
    case Begin(s) => BeginBalanced(m, s, key);
    case Crash(h) => CrashBalanced(m, h, key);
    case Continue(h, delivery) =>
      if h < |m.handlers| && !m.handlers[h].Finished? { ContinueBalanced(m, h, delivery, key); }
  }

  lemma {:induction false} NonOverlappingBalanced(moves: seq<Move>, key: Key)
    requires NonOverlapping(moves)
    ensures Exclusive(Run(moves), key) && Balanced(Run(moves), key)
  {
    hide KeyOf;
    if moves != [] {
      var before := moves[..|moves| - 1];
      assert forall n :: 0 <= n < |before| ==> before[..n] == moves[..n];
      NonOverlappingBalanced(before, key);
      MoveBalanced(Run(before), moves[|moves| - 1], key);
    }
  }

  /** Emails per occurrence: one, plus one for each crash between sending and recording. */
  lemma {:induction false} SendsAreBounded(moves: seq<Move>, key: Key)
    requires NonOverlapping(moves)
    ensures Sends(Run(moves).trace, key) <= 1 + LateCrashes(Run(moves).trace, key)
  {
    hide KeyOf;
    NonOverlappingBalanced(moves, key);
    var m := Run(moves);
    if Unsettled(m, key) {
      var h :| 0 <= h < |m.handlers| && WorksOn(m, h, key) && m.handlers[h].Record?;
      assert key !in m.rows;
    }
  }

  // ---- a handler left alone ----

  predicate Mails(rows: seq<Key>, s: Subject, delivery: Delivery) {
    KeyOf(s) !in rows && delivery.Mailed?
  }

  class NotificationConsumer {
    var rows: seq<Key>
    var sent: seq<Subject>

    constructor ()
      ensures rows == [] && sent == []
    {
      rows, sent := [], [];
    }

    /** `processEvent`: look the key up, send, record. */
    method ProcessEvent(s: Subject, delivery: Delivery)
      modifies this
      ensures rows == old(rows) + if Mails(old(rows), s, delivery) then [KeyOf(s)] else []
      ensures sent == old(sent) + if Mails(old(rows), s, delivery) then [s] else []
    {
      hide KeyOf;
      var key := KeyOf(s);
      if key in rows {
        return;
      }
      if !delivery.Mailed? {
        return;
      }
      sent := sent + [s];
      rows := rows + [key];
    }
  }

  /** The handler of the state machine does the same when nothing comes between its statements. */
  lemma {:induction false} HandlerLeftAlone(m: Mailroom, s: Subject, delivery: Delivery)
    ensures var go := Continue(|m.handlers|, delivery);
      var m' := Exec(Exec(Exec(Exec(m, Begin(s)), go), go), go);
      && m'.rows == m.rows + (if Mails(m.rows, s, delivery) then [KeyOf(s)] else [])
      && m'.handlers == m.handlers + [Finished]
      && m.trace <= m'.trace
      && (Sent(|m.handlers|, s) in m'.trace[|m.trace|..] <==> Mails(m.rows, s, delivery))
  {
    hide KeyOf;
    var h, go := |m.handlers|, Continue(|m.handlers|, delivery);
    var m1 := Exec(m, Begin(s));
    var m2 := Exec(m1, go);
    assert m2.handlers == m.handlers + [if KeyOf(s) in m.rows then Finished else Send(s)];
    assert m2.trace[|m.trace|..] == [Checked(h, s, KeyOf(s) in m.rows)];
    if KeyOf(s) !in m.rows {
      var m3 := Exec(m2, go);
      assert m3.handlers == m.handlers + [if delivery.Mailed? then Record(s) else Finished];
      if delivery.Mailed? {
        var m4 := Exec(m3, go);
        assert m4.handlers == m.handlers + [Finished];
        assert m4.trace[|m.trace|..] == [Checked(h, s, false), Sent(h, s), Recorded(h, s, true)];
      }
    }
  }

  // ---- end to end ----

  function SubjectOf(m: Message): Subject {
    match m
    case Created(ref, resubmission) =>
        if resubmission.None? then Submission(ref) else Resubmission(ref, resubmission.value)
    case StatusChanged(ref, entry, _) => Decision(ref, entry)
    case SlaWarning(entry) => Warning(entry)
    case SlaBreach(entry) => Breach(entry)
  }

  /** In every run of the moderation protocol, two published events share a key only when they
      are one and the same event, or two alerts about the same queue entry. */
  lemma {:induction false} SharedKeyMeansSameEvent(steps: seq<Step>, i: nat, j: nat)
    requires i < |Protocol.Run(steps).outbox| && j < |Protocol.Run(steps).outbox|
    requires var outbox := Protocol.Run(steps).outbox; KeyOf(SubjectOf(outbox[i])) == KeyOf(SubjectOf(outbox[j]))
    ensures var outbox := Protocol.Run(steps).outbox;
      outbox[i] == outbox[j] && (outbox[i].Created? || outbox[i].StatusChanged? ==> i == j)
  {
    var outbox := Protocol.Run(steps).outbox;
    KeyIsInjective(SubjectOf(outbox[i]), SubjectOf(outbox[j]));
    hide KeyOf;
    RunTickets(steps);
  }
}
