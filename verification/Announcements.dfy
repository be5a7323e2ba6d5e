/**
 What is published about submissions and decisions: in every run, each one about an entity that
 is still there with somebody to notify has been announced, or the call that will do so is in
 flight.
 */
module Announcements {
  import opened Wrappers
  import opened Queue
  import opened Lifecycle
  import opened History
  import opened Protocol
  import opened ProtocolInv
  import opened Theorems

  /** The entity is there, with an owner. */
  predicate Reachable(db: Db, ref: Ref) {
    ref in db.entities && db.entities[ref].owner.Some?
  }

  /** An entry of `ref` was opened before. */
  predicate OpenedBefore(log: seq<Event>, ref: Ref) {
    exists i :: 0 <= i < |log| && log[i].Opened? && log[i].ref == ref
  }

  /** The announcement owed for `e`. Editing a company announces nothing. */
  function Owed(before: seq<Event>, e: Event): Option<Message> {
    match e
    case Decided(id, ref, decision, escalated, _) => Some(StatusChanged(ref, id, Outcome(decision, escalated)))
    case Opened(id, ref, _, _) =>
      if !OpenedBefore(before, ref) then Some(Created(ref, None))
      else if ref.etype == Company then None
      else Some(Created(ref, Some(id)))
    case _ => None
  }

  /** Call `c` is about to announce `m`. */
  predicate Announces(s: State, c: nat, m: Message) {
    c < |s.calls| &&
    match m
    case Created(ref, None) => s.calls[c] == AckCreate(ref)
    case Created(ref, Some(entry)) => s.calls[c] == AckEdit(ref, entry)
    case StatusChanged(ref, entry, status) => s.calls[c] == Announce(ref, entry, status)
    case _ => false
  }

  ghost predicate Told(s: State, m: Message) {
    m in s.outbox || exists c: nat :: Announces(s, c, m)
  }

  predicate AboutEntity(m: Message) {
    m.Created? || m.StatusChanged?
  }

  ghost predicate AllTold(s: State) {
    forall k :: 0 <= k < |s.core.log| ==> ToldAt(s, k)
  }

  ghost predicate ToldAt(s: State, k: nat)
    requires k < |s.core.log|
  {
    var m := Owed(s.core.log[..k], s.core.log[k]);
    m.Some? && AboutEntity(m.value) && Reachable(s.core.db, m.value.ref) ==> Told(s, m.value)
  }

  /** What was told stays told, as long as it can be. */
  lemma ToldStays(s: State, step: Step, m: Message)
    requires AboutEntity(m) && Told(s, m) && Reachable(s.core.db, m.ref)
    ensures Told(Exec(s, step), m)
  {
    var s' := Exec(s, step);
    hide Act;
    if m !in s.outbox {
      var c: nat :| Announces(s, c, m);
      if step.Advance? && step.c == c && Enabled(s, step) {
        assert m in Emitted(s.core.db, s.calls[c]);
      } else {
        assert Announces(s', c, m);
      }
    }
  }

  lemma StillReachable(s: State, step: Step, ref: Ref)
    requires ref.eid < s.core.db.nextId && Reachable(Exec(s, step).core.db, ref)
    ensures Reachable(s.core.db, ref)
  {
    ExecStable(s, step);
    hide Exec;
  }

  /** What the log says about first submissions. */
  ghost predicate FirstsOk(c: Core) {
    && (forall ref :: ref in c.db.entities ==> OpenedBefore(c.log, ref))
    && (forall ref: Ref :: ref.eid >= c.db.nextId ==> !OpenedBefore(c.log, ref))
  }

  lemma RunFirsts(steps: seq<Step>)
    ensures FirstsOk(Run(steps).core)
  {
    RunInv(steps);
    var c := Run(steps).core;
    hide Run;
    forall ref | ref in c.db.entities ensures OpenedBefore(c.log, ref) {
      assert Explained(false, c.db.entities[ref], c.db.queue, ref);
      var n :| n in c.db.queue && c.db.queue[n].ref == ref;
      assert RowMatches(c.log, n, c.db.queue[n]);
    }
  }

  lemma NewIsTold(s: State, step: Step)
    requires FirstsOk(s.core) && CallsOk(s) && |Exec(s, step).core.log| > |s.core.log|
    ensures var s' := Exec(s, step); var m := Owed(s.core.log, s'.core.log[|s.core.log|]);
      m.Some? && AboutEntity(m.value) && Reachable(s'.core.db, m.value.ref) ==> Told(s', m.value)
  {
    hide SubmitTx, EditTx, ReviewTx, RemoveTx, SetEntry, Escalates, OpenedBefore;
    var s' := Exec(s, step);
    var m := Owed(s.core.log, s'.core.log[|s.core.log|]);
    if step.SubmitNew? {
      assert Announces(s', |s.calls|, m.value);
    } else {
      EditOrReviewTold(s, step);
    }
  }

  lemma EditOrReviewTold(s: State, step: Step)
    requires FirstsOk(s.core) && CallsOk(s) && |Exec(s, step).core.log| > |s.core.log| && step.Advance?
    ensures var s' := Exec(s, step); var m := Owed(s.core.log, s'.core.log[|s.core.log|]);
      m.Some? && AboutEntity(m.value) && Reachable(s'.core.db, m.value.ref) ==> Told(s', m.value)
  {
    hide SetEntry, Escalates, OpenedBefore, RemoveTx;
    assert CallOk(s.core.db, s.calls[step.c]);
    var s' := Exec(s, step);
    var m := Owed(s.core.log, s'.core.log[|s.core.log|]);
    if m.Some? && AboutEntity(m.value) && Reachable(s'.core.db, m.value.ref) {
      assert Announces(s', step.c, m.value);
    }
  }

  lemma OneEventAtMost(steps: seq<Step>, step: Step)
    ensures var log, log' := Run(steps).core.log, Exec(Run(steps), step).core.log;
      log' == log || (|log'| == |log| + 1 && log'[..|log|] == log)
  {
    hide Run, SubmitTx, EditTx, ReviewTx, RemoveTx, SetEntry, Escalates;
  }

  lemma {:induction false} RunTold(steps: seq<Step>)
    ensures AllTold(Run(steps))
  {
    if steps != [] {
      var before, last := steps[..|steps| - 1], steps[|steps| - 1];
      RunTold(before);
      RunFirsts(before);
      RunCalls(before);
      OneEventAtMost(before, last);
      var s, s' := Run(before), Run(steps);
      hide Exec, FirstsOk, CallsOk, Fresh, Told, Reachable, Owed;
      forall k | 0 <= k < |s'.core.log| ensures ToldAt(s', k) {
        if k < |s.core.log| {
          OldStaysTold(before, last, k);
        } else {
          NewIsTold(s, last);
        }
      }
    }
  }

  lemma OldStaysTold(before: seq<Step>, step: Step, k: nat)
    requires var s, s' := Run(before), Exec(Run(before), step);
      k < |s.core.log| && ToldAt(s, k) && s.core.log <= s'.core.log
    ensures ToldAt(Exec(Run(before), step), k)
  {
    var s, s' := Run(before), Exec(Run(before), step);
    hide Exec, Told, Run, OpenedBefore, Reachable;
    assert s'.core.log[..k] == s.core.log[..k] && s'.core.log[k] == s.core.log[k];
    var m := Owed(s.core.log[..k], s.core.log[k]);
    if m.Some? && AboutEntity(m.value) && Reachable(s'.core.db, m.value.ref) {
      OwedRefIsOld(before, k);
      StillReachable(s, step, m.value.ref);
      ToldStays(s, step, m.value);
    }
  }

  lemma OwedRefIsOld(steps: seq<Step>, k: nat)
    requires k < |Run(steps).core.log|
    ensures var e := Run(steps).core.log[k]; e.Opened? || e.Decided? ==> e.ref.eid < Run(steps).core.db.nextId
  {
    RunInv(steps);
  }

  // ---- the announcements, one kind at a time ----

  /** Every decision ever committed about an entity that is still there with an owner has been
      published with its outcome, or the call that made it is about to. */
  lemma {:induction false} EveryDecisionIsAnnounced(steps: seq<Step>, k: nat)
    requires k < |Run(steps).core.log| && Run(steps).core.log[k].Decided?
    requires Reachable(Run(steps).core.db, Run(steps).core.log[k].ref)
    ensures var s, e := Run(steps), Run(steps).core.log[k];
      var status := match e.decision
        case Approve => Approved
        case Flag => Flagged
        case Reject => if e.escalated then PermanentlyRejected else Rejected;
      StatusChanged(e.ref, e.id, status) in s.outbox || Announce(e.ref, e.id, status) in s.calls
  {
    RunTold(steps);
    hide Run;
    assert ToldAt(Run(steps), k);
  }

  /** So has every first submission. */
  lemma {:induction false} EverySubmissionIsAnnounced(steps: seq<Step>, k: nat)
    requires k < |Run(steps).core.log| && Run(steps).core.log[k].Opened?
    requires Reachable(Run(steps).core.db, Run(steps).core.log[k].ref)
    requires forall i :: 0 <= i < k && Run(steps).core.log[i].Opened? ==>
      Run(steps).core.log[i].ref != Run(steps).core.log[k].ref
    ensures var s, ref := Run(steps), Run(steps).core.log[k].ref;
      Created(ref, None) in s.outbox || AckCreate(ref) in s.calls
  {
    RunTold(steps);
    hide Run;
    assert ToldAt(Run(steps), k);
  }

  /** And, except for a company, every resubmission, once for each entry it opened. */
  lemma {:induction false} EveryResubmissionIsAnnounced(steps: seq<Step>, i: nat, k: nat)
    requires i < k < |Run(steps).core.log|
    requires var log := Run(steps).core.log; log[i].Opened? && log[k].Opened? && log[i].ref == log[k].ref
    requires Run(steps).core.log[k].ref.etype != Company
    requires Reachable(Run(steps).core.db, Run(steps).core.log[k].ref)
    ensures var s, e := Run(steps), Run(steps).core.log[k];
      Created(e.ref, Some(e.id)) in s.outbox || AckEdit(e.ref, e.id) in s.calls
  {
    RunTold(steps);
    hide Run;
    var log := Run(steps).core.log;
    assert ToldAt(Run(steps), k);
    assert log[..k][i] == log[i];
  }

  /** Nothing is published about an entity that is gone, nor about a first submission or a
      decision that has nobody to notify. */
  lemma {:induction false} OnlyTheReachableAreAnnounced(steps: seq<Step>, step: Step, m: Message)
    requires m in Exec(Run(steps), step).outbox && m !in Run(steps).outbox && AboutEntity(m)
    ensures m.ref in Run(steps).core.db.entities
    ensures m.StatusChanged? || m.resubmission.None? ==> Reachable(Run(steps).core.db, m.ref)
  {
    hide Run, Act;
  }
}
