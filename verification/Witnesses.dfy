/**
 Runs, built step by step, in which the guarantees that have exceptions do fail.
 */
module Witnesses {
  import opened Wrappers
  import opened Queue
  import opened Verdicts
  import opened Lifecycle
  import opened History
  import opened Protocol
  import opened ProtocolInv
  import opened Solo
  import opened Theorems
  import opened StaleWrites
  import opened Escalation
  import opened TriageSweep
  import opened DedupKeys
  import opened ReconciliationSweep

  const ALICE: Person := 0
  const BOB: Person := 1
  const PROCESS: Id := 7

  function Place(etype: EntityType): Option<Id> {
    if etype == OverallReview then Some(PROCESS) else None
  }

  /** `ref` belongs to `who`, waits for review with entry `n`, and is what its request finds. */
  ghost predicate Waiting(s: State, ref: Ref, who: Person, n: Id) {
    && Found(s.core.db, ref, Place(ref.etype))
    && s.core.db.entities[ref].owner == Some(who) && s.core.db.entities[ref].status == Pending
    && n in s.core.db.queue && n < s.core.db.nextId && s.core.db.queue[n].ref == ref
    && s.core.db.queue[n].decision.None?
    && s.core.db.queue[n].content == s.core.db.entities[ref].content
  }

  predicate OnlyEntry(s: State, ref: Ref, n: Id) {
    forall id :: id in s.core.db.queue && s.core.db.queue[id].ref == ref ==> id == n
  }

  /** A first submission, on a process that has no review yet. */
  lemma SubmittedRun(steps: seq<Step>, etype: EntityType, who: Person, content: Content)
      returns (steps': seq<Step>, ref: Ref, n: Id)
    requires Vacant(Run(steps).core.db, etype, Place(etype)) && etype != Company
    ensures Waiting(Run(steps'), ref, who, n) && !Run(steps').core.db.queue[n].escalated && ref.etype == etype
    ensures ref.eid >= Run(steps).core.db.nextId && Run(steps').core.db.queue[n].content == content
    ensures OnlyEntry(Run(steps'), ref, n)
    ensures Run(steps').core.log == Run(steps).core.log + [Opened(n, ref, false, true)]
    ensures Run(steps).calls <= Run(steps').calls && Run(steps').core.db.audits == Run(steps).core.db.audits
    ensures steps' == steps + [SubmitNew(etype, Some(who), content, None, Place(etype), NOW)]
  {
    RunExplained(steps);
    var step := SubmitNew(etype, Some(who), content, None, Place(etype), NOW);
    RunSnoc(steps, step);
    hide Run;
    ref, n := Ref(etype, Run(steps).core.db.nextId), Run(steps).core.db.nextId + 1;
    steps' := steps + [step];
  }

  // ---- a submission decided and edited a number of times ----

  lemma FlagCounts(c: Core, ref: Ref, n: Id, escalated: bool)
    requires Waiting(State(c, [], [], []), ref, ALICE, n)
    ensures var c' := Act(c, Review(n, ref, Flag, Flagged, None, Moderator(BOB), None));
      && Found(c'.db, ref, Place(ref.etype)) && c'.db.entities[ref].owner == Some(ALICE)
      && c'.db.entities[ref].status == Flagged
      && c'.db.audits == c.db.audits && Decisions(c'.log, ref) == Decisions(c.log, ref) + 1
  {
    SnocPrefix(c.log, Decided(n, ref, Flag, c.db.queue[n].escalated, Moderator(BOB)));
  }

  lemma EditWaits(c: Core, ref: Ref, content: Content)
    requires Found(c.db, ref, Place(ref.etype)) && c.db.entities[ref].owner == Some(ALICE)
    ensures var c' := Act(c, Resubmit(ref, content, 0)); var n := c.db.nextId;
      && Waiting(State(c', [], [], []), ref, ALICE, n)
      && c'.db.queue[n].escalated == Escalates(c.db.queue, ref)
      && c'.db.audits == c.db.audits && Decisions(c'.log, ref) == Decisions(c.log, ref)
  {
    SnocPrefix(c.log, Opened(c.db.nextId, ref, Escalates(c.db.queue, ref), true));
    hide Escalates;
  }

  /** Alice's submission after `k` decisions and as many edits. */
  lemma {:induction false} Rounds(etype: EntityType, k: nat) returns (steps: seq<Step>, ref: Ref, n: Id)
    requires etype != Company
    ensures Waiting(Run(steps), ref, ALICE, n) && ref.etype == etype
    ensures Decisions(Run(steps).core.log, ref) == k && Run(steps).core.db.audits == []
    ensures k == LIFETIME_RESUBMISSION_CAP ==> Run(steps).core.db.queue[n].escalated
    ensures k == 0 ==> !Run(steps).core.db.queue[n].escalated
  {
    hide Run, Waiting;
    if k == 0 {
      NothingRun();
      steps, ref, n := SubmittedRun([], etype, ALICE, "first");
      SnocPrefix([], Opened(n, ref, false, true));
    } else {
      steps, ref, n := Rounds(etype, k - 1);
      steps, n := OneRound(steps, ref, n);
    }
  }

  lemma NothingRun()
    ensures Run([]) == Start
  {
  }

  lemma OneRound(before: seq<Step>, ref: Ref, n: Id) returns (steps: seq<Step>, n': Id)
    requires Waiting(Run(before), ref, ALICE, n) && ref.etype != Company && Run(before).core.db.audits == []
    ensures Waiting(Run(steps), ref, ALICE, n') && Run(steps).core.db.audits == []
    ensures Decisions(Run(steps).core.log, ref) == Decisions(Run(before).core.log, ref) + 1
    ensures Decisions(Run(steps).core.log, ref) == LIFETIME_RESUBMISSION_CAP ==> Run(steps).core.db.queue[n'].escalated
  {
    hide Run, Act, EditAllowed;
    var s := Run(before);
    var flag := Ruling(s, n, ref, Flag, Moderator(BOB));
    RunThen(before, flag);
    FlagCounts(s.core, ref, n, s.core.db.queue[n].escalated);
    var decided := before + flag;
    DecisionsAreReviewedEntries(decided, ref);
    FlaggedMayBeEdited(Run(decided).core.db, ref);
    var edit := Edit(Run(decided), ref, Place(ref.etype), ALICE, "again");
    RunThen(decided, edit);
    EditWaits(Run(decided).core, ref, "again");
    steps, n' := decided + edit, Run(decided).core.db.nextId;
  }

  lemma FlaggedMayBeEdited(db: Db, ref: Ref)
    requires ref in db.entities && db.entities[ref].owner == Some(ALICE) && db.entities[ref].status == Flagged
    ensures EditAllowed(ref, db.entities[ref], ALICE)
  {
  }

  lemma PendingMayBeEdited(db: Db, ref: Ref, who: Person)
    requires ref in db.entities && db.entities[ref].owner == Some(who) && db.entities[ref].status == Pending
    ensures EditAllowed(ref, db.entities[ref], who)
  {
  }

  // ---- permanent rejection with an edit in flight ----

  /** Alice's edit passes its check, then an admin rejects the escalated entry: the rating is
      permanently rejected, the edit is still in flight, and the rejection is not final. */
  lemma {:induction false} RejectedWithEditInFlight() returns (steps: seq<Step>, ref: Ref, c: nat)
    ensures ref.etype == RoundRating && ref in Run(steps).core.db.entities
    ensures Run(steps).core.db.entities[ref].status == PermanentlyRejected
    ensures c < |Run(steps).calls| && Run(steps).calls[c] == EditCommit(ref, ALICE, "late", None)
    ensures exists future :: !StaysRejected(Run(steps + future), ref)
  {
    hide Run, Act, EditAllowed;
    var rounds, n;
    rounds, ref, n := Rounds(RoundRating, LIFETIME_RESUBMISSION_CAP);
    PendingMayBeEdited(Run(rounds).core.db, ref, ALICE);
    c := |Run(rounds).calls|;
    var begin := EditBegins(Run(rounds), ref, None, ALICE, "late");
    RunThen(rounds, begin);
    var begun := rounds + begin;
    var reject := Ruling(Run(begun), n, ref, Reject, Admin(BOB));
    RunThen(begun, reject);
    steps := begun + reject;
    RejectionCommits(Run(begun).core, n, ref);
    PermanentRejectionIsFinalIff(steps, ref);
  }

  lemma RejectionCommits(c: Core, n: Id, ref: Ref)
    requires ReviewWins(c.db, n, ref) && c.db.queue[n].escalated
    ensures var db := Act(c, Review(n, ref, Reject, Outcome(Reject, true), None, Admin(BOB), None)).db;
      ref in db.entities && db.entities[ref].status == PermanentlyRejected
  {
  }

  // ---- a delete that the audit table refuses ----

  const SURE := Analysis(JBool(false), JNumber(1.0), true, Some(0.9))

  function Verdict(ref: Ref): VerdictEvent { BuildVerdictComputedEvent(ref, Some(SURE)) }

  lemma OnlyOneWaits(steps: seq<Step>, ref: Ref, n: Id)
    requires Waiting(Run(steps), ref, ALICE, n)
    ensures IsNewestUnreviewed(Run(steps).core.db.queue, ref, Some(n))
  {
    RunExplained(steps);
    var db := Run(steps).core.db;
    var m :| ExplainedBy(false, db.entities[ref], db.queue, ref, m);
    assert m == n;
  }

  lemma AutoApproved(before: seq<Step>, ref: Ref, n: Id) returns (steps: seq<Step>)
    requires Waiting(Run(before), ref, ALICE, n) && !Run(before).core.db.queue[n].escalated && ref.etype == RoundRating
    ensures var db := Run(steps).core.db;
      && ref in db.entities && db.entities[ref].owner == Some(ALICE) && db.entities[ref].status == Approved
      && db.audits == Run(before).core.db.audits + [Audit(n, AuditInputFor(Verdict(ref)))]
  {
    var s, env := Run(before), Env(0, 0, Some(n));
    OnlyOneWaits(before, ref, n);
    VerdictIsAppliedIff(s, ref, SURE, env);
    hide Run, Exec;
    var analysed := before + [Analyse(ref, Some(SURE))];
    RunSnoc(before, Analyse(ref, Some(SURE)));
    var consumed := [Arrive(Consume(Verdict(ref)))] + Turns(Run(analysed), env, 5);
    RunThen(analysed, consumed);
    steps := analysed + consumed;
  }

  /** Alice's rating is approved automatically; her delete passes its check and is refused. */
  lemma {:induction false} DeleteIsRefused() returns (steps: seq<Step>, ref: Ref, c: nat)
    ensures c < |Run(steps).calls| && Run(steps).calls[c] == DeleteCommit(ref, ALICE, None)
    ensures ref in Run(steps).core.db.entities && Run(steps).core.db.entities[ref].owner == Some(ALICE)
    ensures Run(steps).core.db.entities[ref].status == Approved
    ensures ref in Run(steps + [Advance(c, NOW)]).core.db.entities
  {
    hide Run, Act, Exec;
    NothingRun();
    var submitted, n;
    submitted, ref, n := SubmittedRun([], RoundRating, ALICE, "first");
    var approved := AutoApproved(submitted, ref, n);
    var s := Run(approved);
    c := |s.calls|;
    var begin := DeleteBegins(s, ref, None, ALICE);
    RunThen(approved, begin);
    steps := approved + begin;
    assert steps + [] == steps;
    assert s.core.db.audits[|s.core.db.audits| - 1].input.ref == ref;
    AutoApprovedIsNeverDeleted(steps, [], Advance(c, NOW), |s.core.db.audits| - 1, ref);
    RunSnoc(steps, Advance(c, NOW));
  }

  // ---- an edit that lands on another review ----

  predicate WasEscalated(log: seq<Event>, ref: Ref) {
    exists i :: 0 <= i < |log| && log[i].Opened? && log[i].ref == ref && log[i].escalated
  }

  lemma EscalatedEntryWasOpened(steps: seq<Step>, ref: Ref, n: Id)
    requires var queue := Run(steps).core.db.queue; n in queue && queue[n].ref == ref && queue[n].escalated
    ensures WasEscalated(Run(steps).core.log, ref)
  {
    RunRows(steps);
    hide Run;
    assert RowMatches(Run(steps).core.log, n, Run(steps).core.db.queue[n]);
  }

  lemma StillEscalated(log: seq<Event>, log': seq<Event>, ref: Ref)
    requires WasEscalated(log, ref) && log <= log'
    ensures WasEscalated(log', ref)
  {
    var i :| 0 <= i < |log| && log[i].Opened? && log[i].ref == ref && log[i].escalated;
    assert log'[i] == log[i];
  }

  /** Alice's edit of her review passes its check after `k` decisions; she deletes the review;
      Bob reviews the same process; the edit is still in flight. */
  lemma StaleRun(k: nat) returns (steps: seq<Step>, gone: Ref, ref: Ref, n: Id, c: nat)
    ensures StaleEdit(Run(steps), c, ref) && Waiting(Run(steps), ref, BOB, n) && ref.etype == OverallReview
    ensures Run(steps).calls[c] == EditCommit(gone, ALICE, "late", Some(PROCESS))
        && Run(steps).core.db.queue[n].content == "second"
    ensures gone !in Run(steps).core.db.entities && Decisions(Run(steps).core.log, gone) == k
    ensures ReviewedOf(Run(steps).core.db.queue, gone) == {}
    ensures !Run(steps).core.db.queue[n].escalated && OnlyEntry(Run(steps), ref, n)
    ensures k == LIFETIME_RESUBMISSION_CAP ==> WasEscalated(Run(steps).core.log, gone)
  {
    hide Run, Act, Exec, EditAllowed, Decisions, ReviewedOf, OnlyEntry, WasEscalated;
    var rounds, m;
    rounds, gone, m := Rounds(OverallReview, k);
    if k == LIFETIME_RESUBMISSION_CAP { EscalatedEntryWasOpened(rounds, gone, m); }
    PendingMayBeEdited(Run(rounds).core.db, gone, ALICE);
    c := |Run(rounds).calls|;
    var begin := EditBegins(Run(rounds), gone, Some(PROCESS), ALICE, "late");
    RunThen(rounds, begin);
    var begun := rounds + begin;
    var delete := Delete(Run(begun), gone, Some(PROCESS), ALICE);
    RunThen(begun, delete);
    var deleted := begun + delete;
    RunExplained(begun);
    DeleteVacates(Run(begun).core, gone);
    steps, ref, n := SubmittedRun(deleted, OverallReview, BOB, "second");
    AnotherMovesIn(deleted, steps, gone, ref, n);
    assert Run(steps).calls[c] == Run(deleted).calls[c];
    if k == LIFETIME_RESUBMISSION_CAP { StillEscalated(Run(deleted).core.log, Run(steps).core.log, gone); }
  }

  lemma DeleteVacates(c: Core, ref: Ref)
    requires Fresh(c) && ref in c.db.entities && c.db.audits == [] && ref.etype == OverallReview
    requires PROCESS in c.db.reviewAt && c.db.reviewAt[PROCESS] == ref
    ensures var c' := Act(c, Remove(ref));
      && PROCESS !in c'.db.reviewAt && ref !in c'.db.entities && ref.eid < c'.db.nextId
      && c'.log == c.log && ReviewedOf(c'.db.queue, ref) == {}
  {
  }

  lemma AnotherMovesIn(before: seq<Step>, after: seq<Step>, gone: Ref, ref: Ref, n: Id)
    requires gone.eid < Run(before).core.db.nextId && gone !in Run(before).core.db.entities
    requires ReviewedOf(Run(before).core.db.queue, gone) == {}
    requires Run(after).core.log == Run(before).core.log + [Opened(n, ref, false, true)] && before < after
    requires ref.eid >= Run(before).core.db.nextId && Waiting(Run(after), ref, BOB, n) && ref.etype == OverallReview
    requires after == before + [SubmitNew(OverallReview, Some(BOB), "second", None, Some(PROCESS), NOW)]
    ensures gone !in Run(after).core.db.entities && gone != ref && ReviewedOf(Run(after).core.db.queue, gone) == {}
    ensures Decisions(Run(after).core.log, gone) == Decisions(Run(before).core.log, gone)
    ensures Landing(Run(after).core.db, gone, Some(PROCESS)) == Some(ref)
  {
    RunSnoc(before, after[|before|]);
    SnocPrefix(Run(before).core.log, Opened(n, ref, false, true));
    hide Run;
  }

  /** The edit commits: Bob's approved review waits again, with Alice's text and nothing to
      review, while a new entry waits for the review she deleted. */
  lemma {:induction false} OverwrittenReview() returns (steps: seq<Step>, ref: Ref, gone: Ref, n: Id)
    ensures var db := Run(steps).core.db;
      && ref in db.entities && db.entities[ref].owner == Some(BOB) && db.entities[ref].content == "late"
      && db.entities[ref].status == Pending && Unreviewed(db.queue, ref) == {}
      && gone !in db.entities && n in db.queue && db.queue[n].ref == gone && db.queue[n].decision.None?
    ensures !Ruled(Run(steps), ref)
  {
    hide Run, Act, Exec;
    var stale, m, c;
    stale, gone, ref, m, c := StaleRun(0);
    var approve := Ruling(Run(stale), m, ref, Approve, Moderator(2));
    RunThen(stale, approve);
    var approved := stale + approve;
    RunExplained(stale);
    RunExplained(approved);
    ApproveKeepsStale(Run(stale), Run(approved), m, c, ref);
    OneMove(Run(approved), c, NOW);
    StaleEditWrites(Run(approved), c, ref);
    RunThen(approved, [Advance(c, NOW)]);
    steps := approved + [Advance(c, NOW)];
    n := Run(approved).core.db.nextId;
    EditLeavesNothingOpen(Run(approved).core.db, gone, "late", ref);
    NothingOpen(Run(approved).core.db, gone, ref);
  }

  lemma ApproveKeepsStale(s: State, s': State, n: Id, c: nat, ref: Ref)
    requires StaleEdit(s, c, ref) && s.calls <= s'.calls && Waiting(s, ref, BOB, n)
    requires s'.core == Act(s.core, Review(n, ref, Approve, Approved, None, Moderator(2), None))
    ensures StaleEdit(s', c, ref) && s'.calls[c] == s.calls[c]
    ensures s'.core.db.entities[ref].owner == Some(BOB) && s'.core.db.entities[ref].status == Approved
    ensures s'.core.db.entities.Keys == s.core.db.entities.Keys && s'.core.db.nextId == s.core.db.nextId
  {
  }

  lemma NothingOpen(db: Db, gone: Ref, ref: Ref)
    requires ref in db.entities && gone != ref && Explained(false, db.entities[ref], db.queue, ref)
    requires db.entities[ref].status != Pending
    ensures var db' := EditTx(db, ref, gone, "late", 0);
      && Unreviewed(db'.queue, ref) == {} && db'.entities[ref].content == "late" && db'.entities[ref].status == Pending
      && db'.entities[ref].owner == db.entities[ref].owner && db'.entities.Keys == db.entities.Keys
      && db'.queue[db.nextId].ref == gone && db'.queue[db.nextId].decision.None?
  {
    var n :| ExplainedBy(false, db.entities[ref], db.queue, ref, n);
  }

  /** With the edit committed while Bob's review still waits, approving his entry approves a
      text that no entry was ever opened for. */
  lemma {:induction false} UnreviewedTextApproved() returns (steps: seq<Step>, ref: Ref)
    ensures var db := Run(steps).core.db;
      && ref in db.entities && db.entities[ref].status == Approved && db.entities[ref].content == "late"
      && forall id :: id in Thread(db.queue, ref) ==> db.queue[id].content == "second"
  {
    hide Run, Act, Exec;
    var stale, gone, n, c;
    stale, gone, ref, n, c := StaleRun(0);
    OneMove(Run(stale), c, NOW);
    StaleEditWrites(Run(stale), c, ref);
    RunThen(stale, [Advance(c, NOW)]);
    var late := stale + [Advance(c, NOW)];
    var approve := Ruling(Run(late), n, ref, Approve, Moderator(2));
    RunThen(late, approve);
    steps := late + approve;
    TextStays(Run(late).core, n, ref);
  }

  lemma TextStays(c: Core, n: Id, ref: Ref)
    requires ReviewWins(c.db, n, ref)
    ensures var db := Act(c, Review(n, ref, Approve, Approved, None, Moderator(2), None)).db;
      && ref in db.entities && db.entities[ref].status == Approved
      && db.entities[ref].content == c.db.entities[ref].content
      && Thread(db.queue, ref).Keys == Thread(c.db.queue, ref).Keys
      && forall id :: id in Thread(db.queue, ref) ==> db.queue[id].content == c.db.queue[id].content
  {
  }

  /** After three decisions and an escalated entry the review is deleted; the late edit opens an
      entry for it that is not escalated. */
  lemma {:induction false} DecisionsForgotten() returns (steps: seq<Step>, k: nat)
    ensures k < |Run(steps).core.log| && Run(steps).core.log[k].Opened? && !Run(steps).core.log[k].live
    ensures var log := Run(steps).core.log;
      && !log[k].escalated && WasEscalated(log[..k], log[k].ref)
      && Decisions(log[..k], log[k].ref) == LIFETIME_RESUBMISSION_CAP
  {
    hide Run, Act, Exec, Decisions, Waiting, WasEscalated;
    var stale, gone, ref, n, c;
    stale, gone, ref, n, c := StaleRun(LIFETIME_RESUBMISSION_CAP);
    RunCalls(stale);
    EditOpensLate(Run(stale), c, gone);
    ExecLogs(stale, Advance(c, NOW));
    RunSnoc(stale, Advance(c, NOW));
    steps, k := stale + [Advance(c, NOW)], |Run(stale).core.log|;
    LateEntriesAreNotEscalated(stale, [Advance(c, NOW)], k, gone);
    assert Run(steps).core.log[..k] == Run(stale).core.log;
  }

  // ---- a late mail ----

  lemma RejectMayBeEdited(c: Core, n: Id, ref: Ref)
    requires Waiting(State(c, [], [], []), ref, ALICE, n) && !c.db.queue[n].escalated && ref.etype == RoundRating
    ensures var c' := Act(c, Review(n, ref, Reject, Rejected, None, Moderator(BOB), None));
      && Found(c'.db, ref, None) && c'.db.entities[ref].owner == Some(ALICE)
      && EditAllowed(ref, c'.db.entities[ref], ALICE)
      && n in c'.db.queue && c'.db.queue[n].ref == ref && c'.db.queue[n].decision == Some(Reject)
  {
  }

  lemma EditKeepsDecided(c: Core, n: Id, ref: Ref)
    requires ref in c.db.entities && n in c.db.queue && n < c.db.nextId && c.db.queue[n].decision == Some(Reject)
    ensures var c' := Act(c, Resubmit(ref, "better", 0));
      n in c'.db.queue && c'.db.queue[n] == c.db.queue[n]
  {
    hide Escalates;
  }

  lemma ApproveAfterReject(c: Core, n: Id, n': Id, ref: Ref)
    requires Waiting(State(c, [], [], []), ref, ALICE, n') && ref.etype == RoundRating
    requires n in c.db.queue && c.db.queue[n].ref == ref && c.db.queue[n].decision == Some(Reject)
    ensures var db := Act(c, Review(n', ref, Approve, Approved, None, Admin(BOB), None)).db;
      && n in db.queue && db.queue[n].decision == Some(Reject)
      && DecisionMail(db, {ALICE}, n) == Some(Mail(Decision(ref, n), ALICE, Some(Approved)))
  {
  }

  /** A rating is rejected, edited and approved; a sweep then mails that it was approved as the
      news about the rejecting decision. */
  lemma {:induction false} LateMailReportsTheApproval() returns (steps: seq<Step>, ref: Ref, n: Id)
    ensures var db := Run(steps).core.db;
      && n in db.queue && db.queue[n].decision == Some(Reject)
      && DecisionMail(db, {ALICE}, n) == Some(Mail(Decision(ref, n), ALICE, Some(Approved)))
  {
    hide Run, Act, EditAllowed, DecisionMail;
    NothingRun();
    steps, ref, n := SubmittedRun([], RoundRating, ALICE, "first");
    var reject := Ruling(Run(steps), n, ref, Reject, Moderator(BOB));
    RejectMayBeEdited(Run(steps).core, n, ref);
    RunThen(steps, reject);
    steps := steps + reject;
    RunExplained(steps);
    var edit := Edit(Run(steps), ref, None, ALICE, "better");
    EditWaits(Run(steps).core, ref, "better");
    EditKeepsDecided(Run(steps).core, n, ref);
    RunThen(steps, edit);
    var n' := Run(steps).core.db.nextId;
    steps := steps + edit;
    var approve := Ruling(Run(steps), n', ref, Approve, Admin(BOB));
    ApproveAfterReject(Run(steps).core, n, n', ref);
    RunThen(steps, approve);
    steps := steps + approve;
  }
}
