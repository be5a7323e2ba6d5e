/**
 What the escalation flag is worth. It is set by counting the decided entries the table still
 holds. That count never exceeds the decisions made and is exact while the entity is there; after
 the owner's delete nothing is left to count, so an entry opened later forgets the decisions.
 */
module Escalation {
  import opened Wrappers
  import opened Queue
  import opened Lifecycle
  import opened History
  import opened Protocol
  import opened ProtocolInv
  import opened Solo
  import opened Theorems
  import opened StaleWrites

  // ---- forgotten perhaps, never invented ----

  predicate DecidedFor(log: seq<Event>, id: Id, ref: Ref) {
    exists k :: 0 <= k < |log| && log[k].Decided? && log[k].id == id && log[k].ref == ref
  }

  lemma {:induction false} DecidedEntriesCount(log: seq<Event>, ids: set<Id>, ref: Ref)
    requires forall id :: id in ids ==> DecidedFor(log, id, ref)
    ensures |ids| <= Decisions(log, ref)
  {
    if log == [] {
      assert ids == {};
    } else {
      var before, last := log[..|log| - 1], log[|log| - 1];
      var rest := if last.Decided? && last.ref == ref then ids - {last.id} else ids;
      forall id | id in rest ensures DecidedFor(before, id, ref) {
        var k :| 0 <= k < |log| && log[k].Decided? && log[k].id == id && log[k].ref == ref;
        assert before[k] == log[k];
      }
      DecidedEntriesCount(before, rest, ref);
    }
  }

  /** In every run, and for entities that are gone too, the decided entries still in the table
      are at most the decisions ever made. */
  lemma {:induction false} KeptAreAtMostDecisions(steps: seq<Step>, ref: Ref)
    ensures |ReviewedOf(Run(steps).core.db.queue, ref)| <= Decisions(Run(steps).core.log, ref)
  {
    RunLog(steps);
    RunRows(steps);
    var c := Run(steps).core;
    hide Run, LogOk;
    forall id | id in ReviewedOf(c.db.queue, ref) ensures DecidedFor(c.log, id, ref) {
      assert RowMatches(c.log, id, c.db.queue[id]);
      var k :| 0 <= k < |c.log| && c.log[k].Decided? && c.log[k].id == id;
      DecidedRef(c, k);
    }
    DecidedEntriesCount(c.log, ReviewedOf(c.db.queue, ref), ref);
  }

  /** The decided entries the table held when event `k` was committed. */
  function KeptWhenOpened(steps: seq<Step>, k: nat): nat
    requires k < |Run(steps).core.log| && Run(steps).core.log[k].Opened?
  {
    var before := Run(steps[..|steps| - 1]).core;
    if k < |before.log| && before.log[k].Opened? then KeptWhenOpened(steps[..|steps| - 1], k)
    else |ReviewedOf(before.db.queue, Run(steps).core.log[k].ref)|
  }

  /** What opening an entry does, read off the log. */
  ghost predicate OpensAs(c: Core, e: Event) {
    && e.Opened?
    && (e.escalated <==> |ReviewedOf(c.db.queue, e.ref)| >= LIFETIME_RESUBMISSION_CAP)
    && (e.live ==> e.ref in c.db.entities || e.ref.eid >= c.db.nextId)
    && (!e.live ==> e.ref !in c.db.entities)
  }

  lemma ActLogs(c: Core, a: Action)
    requires Fresh(c) && Honest(c.db, a)
    ensures var log' := Act(c, a).log;
      || log' == c.log
      || (|log'| == |c.log| + 1 && log'[..|c.log|] == c.log
          && (log'[|c.log|].Opened? ==> OpensAs(c, log'[|c.log|])))
  {
    if a.Submit? { NothingKeptOfTheNew(c, Ref(a.etype, c.db.nextId)); }
    hide ReviewedOf, EditTx, RemoveTx, ReviewTx, SubmitTx, SetEntry, CanRemove, Vacant;
  }

  lemma NothingKeptOfTheNew(c: Core, ref: Ref)
    requires Fresh(c) && ref.eid >= c.db.nextId
    ensures ReviewedOf(c.db.queue, ref) == {}
  {
  }

  lemma ExecLogs(steps: seq<Step>, step: Step)
    ensures var c, log' := Run(steps).core, Exec(Run(steps), step).core.log;
      || log' == c.log
      || (|log'| == |c.log| + 1 && log'[..|c.log|] == c.log
          && (log'[|c.log|].Opened? ==> OpensAs(c, log'[|c.log|])))
  {
    RunExplained(steps);
    RunHonest(steps, step);
    hide Run, Fresh, AllExplained, Honest, Act, OpensAs, ActionOf, Enabled;
    ActLogs(Run(steps).core, ActionOf(Run(steps), step));
    ExecCore(Run(steps), step);
  }

  /** Every entry, whether or not its entity was there: the flag says that three or more decided
      entries were kept. What is kept is at most the decisions made, and all of them if the
      entity was there. */
  lemma {:induction false} FlagCountsTheKept(steps: seq<Step>, k: nat)
    requires k < |Run(steps).core.log| && Run(steps).core.log[k].Opened?
    ensures var log, kept := Run(steps).core.log, KeptWhenOpened(steps, k);
      && (log[k].escalated <==> kept >= 3)
      && kept <= Decisions(log[..k], log[k].ref)
      && (log[k].live ==> kept == Decisions(log[..k], log[k].ref))
  {
    var before, last := steps[..|steps| - 1], steps[|steps| - 1];
    var c, log := Run(before).core, Run(steps).core.log;
    ExecLogs(before, last);
    hide OpensAs, Exec, ReviewedOf, Decisions;
    if k < |c.log| {
      assert log[..k] == c.log[..k] && log[k] == c.log[k];
      FlagCountsTheKept(before, k);
    } else {
      KeptAreAtMostDecisions(before, log[k].ref);
      OpenedAs(before, log[k]);
    }
  }

  /** Of an entity that is there, or is just being created, everything is kept. */
  lemma OpenedAs(before: seq<Step>, e: Event)
    requires OpensAs(Run(before).core, e)
    ensures var kept := |ReviewedOf(Run(before).core.db.queue, e.ref)|;
      && (e.escalated <==> kept >= LIFETIME_RESUBMISSION_CAP)
      && (e.live ==> kept == Decisions(Run(before).core.log, e.ref))
  {
    RunInv(before);
    var c := Run(before).core;
    hide Run;
    if e.live && e.ref !in c.db.entities {
      NothingKeptOfTheNew(c, e.ref);
      NoDecisions(c.log, e.ref);
    }
  }

  /** The flag agrees with the decisions made exactly when fewer than three were made or three
      are still kept; it is never set without them. */
  lemma {:induction false} FlagAgreesIff(steps: seq<Step>, k: nat)
    requires k < |Run(steps).core.log| && Run(steps).core.log[k].Opened?
    ensures var log := Run(steps).core.log; var made := Decisions(log[..k], log[k].ref);
      && (log[k].escalated ==> made >= 3)
      && ((log[k].escalated <==> made >= 3)
          <==> made < 3 || KeptWhenOpened(steps, k) >= 3)
  {
    FlagCountsTheKept(steps, k);
  }

  /** After an escalated entry a later entry of the same entity is escalated exactly when the
      entity was there or three decided entries were still kept. */
  lemma {:induction false} EscalationIsPermanent(steps: seq<Step>, i: nat, j: nat)
    requires i < j < |Run(steps).core.log|
    requires var log := Run(steps).core.log;
      log[i].Opened? && log[j].Opened? && log[i].ref == log[j].ref && log[i].escalated
    ensures var log := Run(steps).core.log;
      log[j].escalated <==> log[j].live || KeptWhenOpened(steps, j) >= LIFETIME_RESUBMISSION_CAP
  {
    FlagCountsTheKept(steps, i);
    FlagCountsTheKept(steps, j);
    DecisionsGrow(Run(steps).core.log, i, j, Run(steps).core.log[i].ref);
  }

  // ---- once the entity is gone ----

  predicate Gone(db: Db, ref: Ref) {
    ref.eid < db.nextId && ref !in db.entities
  }

  /** Gone, and no decided entry is left. */
  predicate Erased(db: Db, ref: Ref) {
    Gone(db, ref) && ReviewedOf(db.queue, ref) == {}
  }

  lemma GoneKept(c: Core, a: Action, ref: Ref)
    requires Honest(c.db, a) && ref !in c.db.entities && ref.eid < c.db.nextId
    ensures ReviewedOf(Act(c, a).db.queue, ref) <= ReviewedOf(c.db.queue, ref)
  {
    hide Escalates, CanRemove, Vacant, Vacated, AuditsBlock, Audited;
  }

  lemma GoneDecisions(c: Core, a: Action, ref: Ref)
    requires Honest(c.db, a) && ref !in c.db.entities
    ensures Decisions(Act(c, a).log, ref) == Decisions(c.log, ref)
  {
    hide Escalates, CanRemove, EditTx, SubmitTx, RemoveTx, ReviewTx, SetEntry, Vacant;
    var log' := Act(c, a).log;
    if log' != c.log { SnocPrefix(c.log, log'[|c.log|]); }
  }

  lemma GoneStep(steps: seq<Step>, step: Step, ref: Ref)
    requires Gone(Run(steps).core.db, ref)
    ensures var c, c' := Run(steps).core, Exec(Run(steps), step).core;
      && Gone(c'.db, ref)
      && ReviewedOf(c'.db.queue, ref) <= ReviewedOf(c.db.queue, ref)
      && Decisions(c'.log, ref) == Decisions(c.log, ref)
  {
    RunHonest(steps, step);
    hide Run, Honest, Act, ActionOf, Enabled, ReviewedOf, Decisions;
    ExecStable(Run(steps), step);
    ExecCore(Run(steps), step);
    GoneKept(Run(steps).core, ActionOf(Run(steps), step), ref);
    GoneDecisions(Run(steps).core, ActionOf(Run(steps), step), ref);
  }

  /** Whatever follows, an entity that is gone stays gone, keeps no decided entry it did not
      have, and is never decided again. */
  lemma {:induction false} GoneForever(past: seq<Step>, future: seq<Step>, ref: Ref)
    requires Gone(Run(past).core.db, ref)
    ensures var c, c' := Run(past).core, Run(past + future).core;
      && Gone(c'.db, ref)
      && ReviewedOf(c'.db.queue, ref) <= ReviewedOf(c.db.queue, ref)
      && Decisions(c'.log, ref) == Decisions(c.log, ref)
      && c.log <= c'.log
  {
    hide Run, Exec, Gone, ReviewedOf, Decisions, OpensAs;
    if future == [] {
      assert past + future == past;
    } else {
      var before, last := past + future[..|future| - 1], future[|future| - 1];
      assert past + future == before + [last];
      GoneForever(past, future[..|future| - 1], ref);
      GoneStep(before, last, ref);
      ExecLogs(before, last);
      RunSnoc(before, last);
    }
  }

  /** Gone, and fewer than three decided entries are left. */
  predicate FewLeft(db: Db, ref: Ref) {
    Gone(db, ref) && |ReviewedOf(db.queue, ref)| < LIFETIME_RESUBMISSION_CAP
  }

  /** A delete that had read the entity, once committed, leaves nothing of it. */
  lemma {:induction false} OwnDeleteErases(steps: seq<Step>, step: Step, ref: Ref)
    requires OwnWrite(Run(steps), step, ref) && ref in Run(steps).core.db.entities
    requires ref !in Exec(Run(steps), step).core.db.entities
    ensures Erased(Exec(Run(steps), step).core.db, ref) && FewLeft(Exec(Run(steps), step).core.db, ref)
  {
    RunExplained(steps);
    hide Run;
    DeleteErases(Run(steps), step, ref);
  }

  lemma DeleteErases(s: State, step: Step, ref: Ref)
    requires Fresh(s.core) && OwnWrite(s, step, ref)
    requires ref in s.core.db.entities && ref !in Exec(s, step).core.db.entities
    ensures Erased(Exec(s, step).core.db, ref)
  {
    hide Escalates, AuditsBlock;
  }

  /** Event `k` of the continued run opens an entry of `ref`. */
  predicate LateEntry(past: seq<Step>, future: seq<Step>, k: nat, ref: Ref) {
    var log := Run(past + future).core.log;
    |Run(past).core.log| <= k < |log| && log[k].Opened? && log[k].ref == ref
  }

  lemma NothingFollows(past: seq<Step>)
    ensures past + [] == past
  {
  }

  /** A late entry came before the last step, or that step opens it. */
  lemma LateEntryWhen(past: seq<Step>, future: seq<Step>, k: nat, ref: Ref)
    requires LateEntry(past, future, k, ref)
    ensures future != []
    ensures var log, prior := Run(past + future).core.log, Run(past + future[..|future| - 1]).core;
      if k < |prior.log| then
        && LateEntry(past, future[..|future| - 1], k, ref)
        && log[k] == prior.log[k] && log[..k] == prior.log[..k]
      else
        && Exec(Run(past + future[..|future| - 1]), future[|future| - 1]).core.log == log
        && k == |prior.log| < |log| && log[..k] == prior.log && OpensAs(prior, log[k])
  {
    hide Run, Exec, OpensAs;
    NothingFollows(past);
    if future != [] {
      var before, last := past + future[..|future| - 1], future[|future| - 1];
      assert past + future == before + [last];
      RunSnoc(before, last);
      ExecLogs(before, last);
    }
  }

  /** An entry opened for a review that is gone, with fewer than three decided entries left as
      after its own delete, is never escalated; that is right exactly when fewer than three
      decisions had been made before. */
  lemma {:induction false} LateEntriesAreNotEscalated(past: seq<Step>, future: seq<Step>, k: nat, ref: Ref)
    requires FewLeft(Run(past).core.db, ref) && LateEntry(past, future, k, ref)
    ensures var log := Run(past + future).core.log;
      && !log[k].escalated
      && Decisions(log[..k], ref) == Decisions(Run(past).core.log, ref)
      && ((log[k].escalated <==> Decisions(log[..k], ref) >= LIFETIME_RESUBMISSION_CAP)
          <==> Decisions(Run(past).core.log, ref) < LIFETIME_RESUBMISSION_CAP)
    decreases |future|
  {
    hide Run, Exec, Decisions, ReviewedOf, Gone;
    LateEntryWhen(past, future, k, ref);
    var prior := past + future[..|future| - 1];
    if k < |Run(prior).core.log| {
      LateEntriesAreNotEscalated(past, future[..|future| - 1], k, ref);
    } else {
      GoneForever(past, future[..|future| - 1], ref);
      var kept, left := ReviewedOf(Run(past).core.db.queue, ref), ReviewedOf(Run(prior).core.db.queue, ref);
      assert kept == left + (kept - left);
      assert OpensAs(Run(prior).core, Run(past + future).core.log[k]);
    }
  }

  // ---- when such an entry can still come ----

  /** Call `c` has passed the checks of an edit of `ref`, and will write whatever review the
      process has by then. */
  predicate EditInFlight(s: State, c: nat, ref: Ref) {
    c < |s.calls| && s.calls[c].EditCommit? && s.calls[c].ref == ref && s.calls[c].at.Some?
  }

  predicate NoEditOf(s: State, ref: Ref) {
    forall c :: 0 <= c < |s.calls| ==> !EditInFlight(s, c, ref)
  }

  /** A process has the review its index names. */
  ghost predicate Seated(db: Db) {
    forall p :: p in db.reviewAt ==> db.reviewAt[p] in db.entities
  }

  lemma SeatedStep(c: Core, a: Action)
    requires Seated(c.db)
    ensures Seated(Act(c, a).db)
  {
    hide Escalates, CanRemove, AuditsBlock, Thread;
  }

  lemma {:induction false} RunSeated(steps: seq<Step>)
    ensures Seated(Run(steps).core.db)
  {
    if steps != [] {
      var before, last := steps[..|steps| - 1], steps[|steps| - 1];
      RunSeated(before);
      hide Seated, Act;
      SeatedStep(Run(before).core, ActionOf(Run(before), last));
      ExecCore(Run(before), last);
    }
  }

  lemma EditWasInFlight(s: State, step: Step, c: nat, ref: Ref)
    requires Gone(s.core.db, ref) && EditInFlight(Exec(s, step), c, ref)
    ensures EditInFlight(s, c, ref)
  {
    EditIsOldOrOwn(s, step, c);
    hide Exec;
  }

  lemma NoNewEditOf(s: State, step: Step, ref: Ref)
    requires Gone(s.core.db, ref) && NoEditOf(s, ref)
    ensures NoEditOf(Exec(s, step), ref)
  {
    hide Exec, Gone;
    forall c | 0 <= c < |Exec(s, step).calls| ensures !EditInFlight(Exec(s, step), c, ref) {
      if EditInFlight(Exec(s, step), c, ref) { EditWasInFlight(s, step, c, ref); }
    }
  }

  /** Only such an edit opens an entry for an entity that is gone. */
  lemma EditOpened(s: State, step: Step, ref: Ref)
    requires Gone(s.core.db, ref)
    requires var log, log' := s.core.log, Exec(s, step).core.log;
      |log'| > |log| && log'[|log|].Opened? && log'[|log|].ref == ref
    ensures !NoEditOf(s, ref)
  {
    hide Escalates, CanRemove, SubmitTx, EditTx, RemoveTx, ReviewTx, SetEntry;
    assert EditInFlight(s, step.c, ref);
  }

  lemma {:induction false} NoEditEver(past: seq<Step>, future: seq<Step>, ref: Ref)
    requires Gone(Run(past).core.db, ref) && NoEditOf(Run(past), ref)
    ensures NoEditOf(Run(past + future), ref)
  {
    hide Run, Exec, Gone, NoEditOf;
    if future == [] {
      NothingFollows(past);
    } else {
      var before, last := past + future[..|future| - 1], future[|future| - 1];
      assert past + future == before + [last];
      NoEditEver(past, future[..|future| - 1], ref);
      GoneForever(past, future[..|future| - 1], ref);
      RunSnoc(before, last);
      NoNewEditOf(Run(before), last, ref);
    }
  }

  lemma {:induction false} LateEntryNeedsEdit(past: seq<Step>, future: seq<Step>, k: nat, ref: Ref)
    requires Gone(Run(past).core.db, ref) && LateEntry(past, future, k, ref)
    ensures !NoEditOf(Run(past), ref)
    decreases |future|
  {
    LateEntryWhen(past, future, k, ref);
    var prior, last := past + future[..|future| - 1], future[|future| - 1];
    var before := Run(prior);
    assert Run(past + future).core.log[k].Opened? && Run(past + future).core.log[k].ref == ref;
    hide Run, Exec, NoEditOf, Gone, LateEntry, OpensAs;
    if k < |before.core.log| {
      LateEntryNeedsEdit(past, future[..|future| - 1], k, ref);
    } else {
      GoneForever(past, future[..|future| - 1], ref);
      EditOpened(before, last, ref);
      if NoEditOf(Run(past), ref) { NoEditEver(past, future[..|future| - 1], ref); }
    }
  }

  /** Somebody reviews the process of call `c` if nobody has. */
  lemma Occupied(past: seq<Step>, c: nat, ref: Ref) returns (steps: seq<Step>)
    requires Gone(Run(past).core.db, ref) && EditInFlight(Run(past), c, ref)
    ensures var s, s' := Run(past), Run(past + steps);
      && c < |s'.calls| && s'.calls[c] == s.calls[c]
      && Landing(s'.core.db, ref, s.calls[c].at).Some?
  {
    RunSeated(past);
    var s := Run(past);
    var at := s.calls[c].at;
    if at.value in s.core.db.reviewAt {
      steps := [];
      assert past + steps == past;
    } else {
      var step := SubmitNew(OverallReview, Some(0), "", None, at, NOW);
      steps := [step];
      RunSnoc(past, step);
      hide Run;
    }
  }

  lemma EditOpensLate(s: State, c: nat, ref: Ref)
    requires Gone(s.core.db, ref) && EditInFlight(s, c, ref) && Landing(s.core.db, ref, s.calls[c].at).Some?
    ensures var log, log' := s.core.log, Exec(s, Advance(c, NOW)).core.log;
      |log'| == |log| + 1 && log'[|log|].Opened? && log'[|log|].ref == ref
  {
    hide Escalates, EditTx;
  }

  /** An entry is opened later for an entity that is gone exactly when an edit that had read it
      has passed its checks and is still in flight. */
  lemma {:induction false} LateEntryIff(past: seq<Step>, ref: Ref)
    requires Gone(Run(past).core.db, ref)
    ensures (exists future, k :: LateEntry(past, future, k, ref)) <==> !NoEditOf(Run(past), ref)
  {
    hide Run, Gone, Exec, Decisions, ReviewedOf;
    if NoEditOf(Run(past), ref) {
      forall future, k | LateEntry(past, future, k, ref) ensures false { LateEntryNeedsEdit(past, future, k, ref); }
    } else {
      var c :| 0 <= c < |Run(past).calls| && EditInFlight(Run(past), c, ref);
      var steps := Occupied(past, c, ref);
      GoneForever(past, steps, ref);
      EditOpensLate(Run(past + steps), c, ref);
      RunSnoc(past + steps, Advance(c, NOW));
      assert past + (steps + [Advance(c, NOW)]) == past + steps + [Advance(c, NOW)];
      assert LateEntry(past, steps + [Advance(c, NOW)], |Run(past + steps).core.log|, ref);
    }
  }

  /** The flag of a late entry contradicts the decisions made. */
  predicate Forgets(past: seq<Step>, future: seq<Step>, k: nat, ref: Ref) {
    && LateEntry(past, future, k, ref)
    && var log := Run(past + future).core.log;
      !(log[k].escalated <==> Decisions(log[..k], ref) >= LIFETIME_RESUBMISSION_CAP)
  }

  /** After the delete of a review, or whenever it is gone with fewer than three decided entries
      left, decisions about it are forgotten by a later entry exactly when three or more were
      made and an edit that had read it is still in flight. */
  lemma {:induction false} DecisionsAreForgottenIff(past: seq<Step>, ref: Ref)
    requires FewLeft(Run(past).core.db, ref)
    ensures (exists future, k :: Forgets(past, future, k, ref))
            <==> Decisions(Run(past).core.log, ref) >= LIFETIME_RESUBMISSION_CAP && !NoEditOf(Run(past), ref)
  {
    LateEntryIff(past, ref);
    hide Run, NoEditOf, Decisions, LateEntry;
    forall future, k | LateEntry(past, future, k, ref)
      ensures Forgets(past, future, k, ref) <==> Decisions(Run(past).core.log, ref) >= LIFETIME_RESUBMISSION_CAP
    {
      LateEntriesAreNotEscalated(past, future, k, ref);
    }
  }
}
