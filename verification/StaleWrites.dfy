/**
 Writes that passed their checks and have not committed yet: which of them can still change an
 entity, and what therefore holds of it in every continuation of a run.
 */
module StaleWrites {
  import opened Wrappers
  import opened Queue
  import opened Lifecycle
  import opened History
  import opened Protocol
  import opened ProtocolInv
  import opened Solo
  import opened Theorems

  // ---- the status rule, for how long ----

  /** Call `c` has passed the checks of an edit of another review, and would rewrite `ref`. */
  predicate StaleEdit(s: State, c: nat, ref: Ref) {
    && c < |s.calls| && s.calls[c].EditCommit? && s.calls[c].ref != ref
    && Landing(s.core.db, s.calls[c].ref, s.calls[c].at) == Some(ref)
  }

  predicate NoStaleEdit(s: State, ref: Ref) {
    forall c :: 0 <= c < |s.calls| ==> !StaleEdit(s, c, ref)
  }

  ghost predicate Ruled(s: State, ref: Ref) {
    ref in s.core.db.entities ==> StatusRule(s.core.db.entities[ref], Thread(s.core.db.queue, ref))
  }

  lemma NoNewStaleEdit(s: State, step: Step, ref: Ref)
    requires Fresh(s.core) && CallsOk(s) && ref.eid < s.core.db.nextId && NoStaleEdit(s, ref)
    ensures NoStaleEdit(Exec(s, step), ref)
  {
    hide Fresh, Exec, StaleEdit;
    forall c | 0 <= c < |Exec(s, step).calls| ensures !StaleEdit(Exec(s, step), c, ref) {
      if StaleEdit(Exec(s, step), c, ref) { StaleWasStale(s, step, c, ref); }
    }
  }

  lemma StaleWasStale(s: State, step: Step, c: nat, ref: Ref)
    requires ref.eid < s.core.db.nextId && StaleEdit(Exec(s, step), c, ref)
    ensures c < |s.calls| && StaleEdit(s, c, ref)
  {
    var call := Exec(s, step).calls[c];
    ExecStable(s, step);
    EditIsOldOrOwn(s, step, c);
    hide Exec, Stable;
  }

  /** An edit that has passed its checks had passed them before the step, or has just read the
      row it would now write. */
  lemma EditIsOldOrOwn(s: State, step: Step, c: nat)
    requires c < |Exec(s, step).calls| && (Exec(s, step).calls[c].EditCommit? || Exec(s, step).calls[c].DeleteCommit?)
    ensures var call := Exec(s, step).calls[c];
      || (c < |s.calls| && s.calls[c] == call)
      || Landing(s.core.db, call.ref, call.at) == Some(call.ref)
  {
  }

  lemma {:induction false} RuledForever(past: seq<Step>, future: seq<Step>, ref: Ref)
    requires ref.eid < Run(past).core.db.nextId
    requires ExplainedIn(true, Run(past).core.db, ref) && NoStaleEdit(Run(past), ref)
    ensures ExplainedIn(true, Run(past + future).core.db, ref) && NoStaleEdit(Run(past + future), ref)
    ensures ref.eid < Run(past + future).core.db.nextId
  {
    hide ExplainedIn, Fresh, AllExplained, Honest, Act, CallsOk, Run, Exec, NoStaleEdit, ActionOf;
    if future == [] {
      assert past + future == past;
    } else {
      var before, last := past + future[..|future| - 1], future[|future| - 1];
      assert past + future == before + [last];
      RuledForever(past, future[..|future| - 1], ref);
      RunExplained(before);
      RunCalls(before);
      RunHonest(before, last);
      NoNewStaleEdit(Run(before), last, ref);
      NoOverwrite(Run(before), last, ref);
      ExplainedStep(true, Run(before).core, ActionOf(Run(before), last), ref);
      ExecCore(Run(before), last);
      ExecStable(Run(before), last);
      RunSnoc(before, last);
    }
  }

  lemma RunSnoc(before: seq<Step>, last: Step)
    ensures Run(before + [last]) == Exec(Run(before), last)
  {
    assert (before + [last])[..|before|] == before;
  }

  lemma NoOverwrite(s: State, step: Step, ref: Ref)
    requires NoStaleEdit(s, ref)
    ensures !Overwrites(ActionOf(s, step), ref)
  {
    if step.Advance? && step.c < |s.calls| { assert !StaleEdit(s, step.c, ref); }
  }

  /** The stale edit leaves a decided entity pending with nothing to review. */
  lemma StaleEditBreaksRule(s: State, c: nat, ref: Ref)
    requires StaleEdit(s, c, ref) && Explained(false, s.core.db.entities[ref], s.core.db.queue, ref)
    requires s.core.db.entities[ref].status != Pending
    ensures !Ruled(Then(s, [Advance(c, NOW)]), ref)
  {
    OneMove(s, c, NOW);
    StaleEditWrites(s, c, ref);
    hide Then, Act, CallAction;
    EditLeavesNothingOpen(s.core.db, s.calls[c].ref, s.calls[c].content, ref);
  }

  lemma StaleEditWrites(s: State, c: nat, ref: Ref)
    requires StaleEdit(s, c, ref)
    ensures Act(s.core, CallAction(s.core.db, s.calls[c], NOW)).db
        == EditTx(s.core.db, ref, s.calls[c].ref, s.calls[c].content, 0)
  {
    hide EditTx;
  }

  lemma EditLeavesNothingOpen(db: Db, seen: Ref, content: Content, ref: Ref)
    requires ref in db.entities && seen != ref && db.entities[ref].status != Pending
    requires Explained(false, db.entities[ref], db.queue, ref)
    ensures var db' := EditTx(db, ref, seen, content, 0); !StatusRule(db'.entities[ref], Thread(db'.queue, ref))
  {
    var n :| ExplainedBy(false, db.entities[ref], db.queue, ref, n);
    var db' := EditTx(db, ref, seen, content, 0);
    assert forall j :: j in Thread(db'.queue, ref) ==> j in Thread(db.queue, ref) && db'.queue[j].decision.Some?;
  }

  /** A continuation after which `ref` is decided and the stale edit still in flight. */
  lemma DecidedFirst(past: seq<Step>, c: nat, ref: Ref) returns (steps: seq<Step>)
    requires StaleEdit(Run(past), c, ref) && Ruled(Run(past), ref)
    ensures StaleEdit(Run(past + steps), c, ref)
    ensures Run(past + steps).core.db.entities[ref].status != Pending
  {
    hide Run, AllExplained, Act;
    var s := Run(past);
    if s.core.db.entities[ref].status != Pending {
      steps := [];
      assert past + [] == past;
    } else {
      RunExplained(past);
      var n :| n in Thread(s.core.db.queue, ref) && s.core.db.queue[n].decision.None?;
      steps := Ruling(s, n, ref, Flag, Moderator(0));
      hide StatusRule;
      RunThen(past, steps);
      FlagKeepsStale(s, Then(s, steps), n, c, ref);
    }
  }

  lemma FlagKeepsStale(s: State, s': State, n: Id, c: nat, ref: Ref)
    requires StaleEdit(s, c, ref) && s.calls <= s'.calls && ReviewWins(s.core.db, n, ref)
    requires exists status, actor ::
        status != Pending && s'.core == Act(s.core, Review(n, ref, Flag, status, None, actor, None))
    ensures StaleEdit(s', c, ref) && s'.core.db.entities[ref].status != Pending
  {
  }

  /** The status rule holds for an entity now and ever after exactly when it holds now and no
      checked edit of an earlier review of its process is still in flight. */
  lemma {:induction false} RuleHoldsForeverIff(past: seq<Step>, ref: Ref)
    requires ref in Run(past).core.db.entities
    ensures (forall future :: Ruled(Run(past + future), ref)) <==> Ruled(Run(past), ref) && NoStaleEdit(Run(past), ref)
  {
    RunExplained(past);
    assert past + [] == past;
    if Ruled(Run(past), ref) {
      if NoStaleEdit(Run(past), ref) {
        forall future ensures Ruled(Run(past + future), ref) { RuledAfter(past, future, ref); }
      } else {
        var c :| 0 <= c < |Run(past).calls| && StaleEdit(Run(past), c, ref);
        BrokenAfter(past, c, ref);
      }
    }
  }

  lemma RuledAfter(past: seq<Step>, future: seq<Step>, ref: Ref)
    requires ref in Run(past).core.db.entities && Ruled(Run(past), ref) && NoStaleEdit(Run(past), ref)
    ensures Ruled(Run(past + future), ref)
  {
    RunExplained(past);
    hide Run, StatusRule, Explained;
    RuleIffExplained(Run(past).core.db.entities[ref], Run(past).core.db.queue, ref);
    RuledForever(past, future, ref);
    var db := Run(past + future).core.db;
    if ref in db.entities { RuleIffExplained(db.entities[ref], db.queue, ref); }
  }

  lemma StaleIsThere(s: State, c: nat, ref: Ref)
    requires StaleEdit(s, c, ref)
    ensures ref in s.core.db.entities
  {
  }

  lemma BrokenAfter(past: seq<Step>, c: nat, ref: Ref)
    requires StaleEdit(Run(past), c, ref) && Ruled(Run(past), ref)
    ensures exists future :: !Ruled(Run(past + future), ref)
  {
    hide Run, Ruled, Fresh, StaleEdit;
    var first := DecidedFirst(past, c, ref);
    RunExplained(past + first);
    StaleIsThere(Run(past + first), c, ref);
    StaleEditBreaksRule(Run(past + first), c, ref);
    RunThen(past + first, [Advance(c, NOW)]);
    assert past + first + [Advance(c, NOW)] == past + (first + [Advance(c, NOW)]);
  }

  // ---- whose writes change an entity ----

  lemma WhatAnActionTouches(c: Core, a: Action, ref: Ref)
    requires Fresh(c) && ref in c.db.entities
    ensures var es' := Act(c, a).db.entities;
      && (ref !in es' ==> ((a.Remove? || a.RawDelete?) && a.ref == ref) || (a.RemoveOther? && a.target == ref))
      && (ref in es' && es'[ref].content != c.db.entities[ref].content ==>
            (a.Resubmit? && a.ref == ref) || Overwrites(a, ref))
      && (ref in es' && es'[ref].status != c.db.entities[ref].status ==>
            || (a.Resubmit? && a.ref == ref) || Overwrites(a, ref)
            || (a.Review? && ReviewWins(c.db, a.id, ref) && a.ref == ref))
  {
    hide Escalates, CanRemove, Vacated;
  }

  predicate Changed(s: State, step: Step, ref: Ref) {
    ref in s.core.db.entities &&
    var es' := Exec(s, step).core.db.entities;
    (ref !in es' || es'[ref].content != s.core.db.entities[ref].content)
  }

  /** The step commits an edit or a delete of `ref` by a call that had read `ref` itself. */
  predicate OwnWrite(s: State, step: Step, ref: Ref) {
    && step.Advance? && step.c < |s.calls| && (s.calls[step.c].EditCommit? || s.calls[step.c].DeleteCommit?)
    && s.calls[step.c].ref == ref
  }

  /** The same by a call that had read another review of the process. */
  predicate ForeignWrite(s: State, step: Step, ref: Ref) {
    && step.Advance? && step.c < |s.calls| && (s.calls[step.c].EditCommit? || s.calls[step.c].DeleteCommit?)
    && s.calls[step.c].ref != ref && Landing(s.core.db, s.calls[step.c].ref, s.calls[step.c].at) == Some(ref)
  }

  /** What an entity says changes, and it goes away, only by its owner's calls or, for an overall
      review, by a call that had read an earlier review of its process; a company never goes away.
      Direct database deletions apart. */
  lemma {:induction false} OnlyTheOwnerEditsOrDeletes(steps: seq<Step>, step: Step, ref: Ref)
    requires Changed(Run(steps), step, ref) && !step.EraseRaw?
    ensures var s := Run(steps);
      || (OwnWrite(s, step, ref) && s.core.db.entities[ref].owner == Some(s.calls[step.c].who))
      || (ForeignWrite(s, step, ref) && ref.etype == OverallReview)
    ensures ref.etype == Company ==> ref in Exec(Run(steps), step).core.db.entities
  {
    RunCalls(steps);
    RunExplained(steps);
    var s := Run(steps);
    WhatAnActionTouches(s.core, ActionOf(s, step), ref);
    hide Fresh, AllExplained, Act;
    WriterIsEdit(s, step, ref);
    assert CallOk(s.core.db, s.calls[step.c]);
  }

  lemma WriterIsEdit(s: State, step: Step, ref: Ref)
    requires var a := ActionOf(s, step);
      || (a.Remove? && a.ref == ref) || (a.RemoveOther? && a.target == ref)
      || (a.Resubmit? && a.ref == ref) || Overwrites(a, ref)
    ensures OwnWrite(s, step, ref) || ForeignWrite(s, step, ref)
  {
  }

  /** Call `c` can still take `ref` away although it had read another review. */
  predicate StaleDelete(s: State, c: nat, ref: Ref) {
    && c < |s.calls| && s.calls[c].DeleteCommit? && s.calls[c].ref != ref
    && Landing(s.core.db, s.calls[c].ref, s.calls[c].at) == Some(ref) && !AuditsBlock(s.core.db, s.calls[c].ref)
  }

  predicate NoStaleDelete(s: State, ref: Ref) {
    forall c :: 0 <= c < |s.calls| ==> !StaleDelete(s, c, ref)
  }

  /** A foreign write that takes effect: the row is rewritten or gone. */
  predicate ForeignEffect(s: State, step: Step, ref: Ref) {
    && ForeignWrite(s, step, ref)
    && (s.calls[step.c].DeleteCommit? ==> ref !in Exec(s, step).core.db.entities)
  }

  lemma BlockStays(s: State, step: Step, seen: Ref)
    requires Fresh(s.core) && AuditsMatch(s.core) && AuditsMatch(Exec(s, step).core) && AuditsBlock(s.core.db, seen)
    ensures AuditsBlock(Exec(s, step).core.db, seen)
  {
    var db, db' := s.core.db, Exec(s, step).core.db;
    ExecStable(s, step);
    AuditsOnlyGrow(s, step);
    hide Exec, Act;
    var i :| 0 <= i < |db.audits| && db.audits[i].entry in db.queue && db.queue[db.audits[i].entry].ref == seen;
    assert db'.audits[i] == db.audits[i];
    assert AuditOk(db', db'.audits[i]);
  }

  lemma AuditsOnlyGrow(s: State, step: Step)
    ensures s.core.db.audits <= Exec(s, step).core.db.audits
  {
    AuditsGrow(s.core, ActionOf(s, step));
    hide Act;
  }

  lemma RunAudits(steps: seq<Step>)
    ensures Fresh(Run(steps).core) && AuditsMatch(Run(steps).core)
  {
    hide Run;
    RunInv(steps);
  }

  lemma {:induction false} BlockedForever(past: seq<Step>, future: seq<Step>, seen: Ref)
    requires AuditsBlock(Run(past).core.db, seen)
    ensures AuditsBlock(Run(past + future).core.db, seen)
  {
    hide Run, Exec, AuditsBlock, Fresh, AuditsMatch;
    if future == [] {
      assert past + future == past;
    } else {
      var before, last := past + future[..|future| - 1], future[|future| - 1];
      assert past + future == before + [last];
      BlockedForever(past, future[..|future| - 1], seen);
      RunAudits(before);
      RunAudits(before + [last]);
      RunSnoc(before, last);
      BlockStays(Run(before), last, seen);
    }
  }

  /** Once one of its submissions was approved automatically, no delete that had read the entity
      ever goes through: the audit table's foreign key refuses it. */
  lemma {:induction false} AutoApprovedIsNeverDeleted(past: seq<Step>, future: seq<Step>, step: Step, i: nat, ref: Ref)
    requires i < |Run(past).core.db.audits| && Run(past).core.db.audits[i].input.ref == ref
    requires ref in Run(past + future).core.db.entities && OwnWrite(Run(past + future), step, ref)
    ensures ref in Exec(Run(past + future), step).core.db.entities
  {
    RunAudits(past);
    assert AuditOk(Run(past).core.db, Run(past).core.db.audits[i]);
    BlockedForever(past, future, ref);
    hide Run, Fresh, AuditsMatch;
    OwnDeleteNeedsAudits(Run(past + future), step, ref);
  }

  lemma OwnDeleteNeedsAudits(s: State, step: Step, ref: Ref)
    requires OwnWrite(s, step, ref) && ref in s.core.db.entities && AuditsBlock(s.core.db, ref)
    ensures ref in Exec(s, step).core.db.entities
  {
  }

  lemma {:induction false} NoStaleEditForever(past: seq<Step>, future: seq<Step>, ref: Ref)
    requires ref.eid < Run(past).core.db.nextId && NoStaleEdit(Run(past), ref)
    ensures NoStaleEdit(Run(past + future), ref) && ref.eid < Run(past + future).core.db.nextId
  {
    hide Run, Exec, NoStaleEdit, Fresh, CallsOk;
    if future == [] {
      assert past + future == past;
    } else {
      var before, last := past + future[..|future| - 1], future[|future| - 1];
      assert past + future == before + [last];
      NoStaleEditForever(past, future[..|future| - 1], ref);
      RunCalls(before);
      RunSnoc(before, last);
      NoNewStaleEdit(Run(before), last, ref);
      ExecStable(Run(before), last);
    }
  }

  lemma {:induction false} NoStaleDeleteForever(past: seq<Step>, future: seq<Step>, ref: Ref)
    requires ref.eid < Run(past).core.db.nextId && NoStaleDelete(Run(past), ref)
    ensures NoStaleDelete(Run(past + future), ref) && ref.eid < Run(past + future).core.db.nextId
  {
    hide Run, Exec, NoStaleDelete, Fresh, AuditsMatch;
    if future == [] {
      assert past + future == past;
    } else {
      var before, last := past + future[..|future| - 1], future[|future| - 1];
      assert past + future == before + [last];
      NoStaleDeleteForever(past, future[..|future| - 1], ref);
      RunAudits(before);
      RunAudits(before + [last]);
      RunSnoc(before, last);
      NoNewStaleDelete(Run(before), last, ref);
      ExecStable(Run(before), last);
    }
  }

  lemma NoNewStaleDelete(s: State, step: Step, ref: Ref)
    requires Fresh(s.core) && AuditsMatch(s.core) && AuditsMatch(Exec(s, step).core)
    requires ref.eid < s.core.db.nextId && NoStaleDelete(s, ref)
    ensures NoStaleDelete(Exec(s, step), ref)
  {
    hide Fresh, Exec, StaleDelete, AuditsMatch;
    forall c | 0 <= c < |Exec(s, step).calls| ensures !StaleDelete(Exec(s, step), c, ref) {
      if StaleDelete(Exec(s, step), c, ref) { StaleDeleteWasStale(s, step, c, ref); }
    }
  }

  lemma StaleDeleteWasStale(s: State, step: Step, c: nat, ref: Ref)
    requires Fresh(s.core) && AuditsMatch(s.core) && AuditsMatch(Exec(s, step).core)
    requires ref.eid < s.core.db.nextId && StaleDelete(Exec(s, step), c, ref)
    ensures c < |s.calls| && StaleDelete(s, c, ref)
  {
    var call := Exec(s, step).calls[c];
    ExecStable(s, step);
    EditIsOldOrOwn(s, step, c);
    hide Exec, Stable, Fresh, AuditsMatch, AuditsBlock;
    if AuditsBlock(s.core.db, call.ref) { BlockStays(s, step, call.ref); }
  }

  /** An entity is only ever rewritten or taken away by calls that had read it exactly when no
      checked edit or delete of an earlier review of its process is in flight, deletes that an
      audit row refuses not counting. */
  lemma {:induction false} OwnWritesOnlyForeverIff(past: seq<Step>, ref: Ref)
    requires ref in Run(past).core.db.entities
    ensures (forall future, step :: !ForeignEffect(Run(past + future), step, ref))
            <==> NoStaleEdit(Run(past), ref) && NoStaleDelete(Run(past), ref)
  {
    RunExplained(past);
    hide Run, Fresh, AllExplained, ForeignEffect, StaleEdit, StaleDelete;
    assert past + [] == past;
    if NoStaleEdit(Run(past), ref) && NoStaleDelete(Run(past), ref) {
      forall future, step | ForeignEffect(Run(past + future), step, ref) ensures false {
        NoStaleEditForever(past, future, ref);
        NoStaleDeleteForever(past, future, ref);
        EffectNeedsStale(Run(past + future), step, ref);
      }
    } else {
      var c :| 0 <= c < |Run(past).calls| && (StaleEdit(Run(past), c, ref) || StaleDelete(Run(past), c, ref));
      StaleHasEffect(Run(past), c, ref);
      assert ForeignEffect(Run(past + []), Advance(c, NOW), ref);
    }
  }

  lemma EffectNeedsStale(s: State, step: Step, ref: Ref)
    requires ForeignEffect(s, step, ref)
    ensures step.Advance? && step.c < |s.calls| && (StaleEdit(s, step.c, ref) || StaleDelete(s, step.c, ref))
  {
  }

  lemma StaleHasEffect(s: State, c: nat, ref: Ref)
    requires StaleEdit(s, c, ref) || StaleDelete(s, c, ref)
    ensures ForeignEffect(s, Advance(c, NOW), ref)
  {
  }

  /** A service call takes `ref` away. */
  predicate Deleted(s: State, step: Step, ref: Ref) {
    step.Advance? && ref in s.core.db.entities && ref !in Exec(s, step).core.db.entities
  }

  lemma DeletedByStale(past: seq<Step>, future: seq<Step>, step: Step, i: nat, ref: Ref)
    requires i < |Run(past).core.db.audits| && Run(past).core.db.audits[i].input.ref == ref
    requires Deleted(Run(past + future), step, ref)
    ensures !NoStaleDelete(Run(past + future), ref)
  {
    var s := Run(past + future);
    hide Run, Exec, StaleDelete, ForeignWrite;
    OnlyTheOwnerEditsOrDeletes(past + future, step, ref);
    if OwnWrite(s, step, ref) {
      AutoApprovedIsNeverDeleted(past, future, step, i, ref);
    } else {
      DeletesNeedStale(s, step, ref);
      assert StaleDelete(s, step.c, ref);
    }
  }

  lemma DeletesNeedStale(s: State, step: Step, ref: Ref)
    requires ForeignWrite(s, step, ref) && Deleted(s, step, ref)
    ensures step.c < |s.calls| && StaleDelete(s, step.c, ref)
  {
    hide Escalates, AuditsBlock;
  }

  /** After an automatic approval no service call ever deletes the entity exactly when no
      checked delete of an earlier review of its process, unhindered by an audit row of its own,
      is in flight. */
  lemma {:induction false} AutoApprovedStaysIff(past: seq<Step>, i: nat, ref: Ref)
    requires i < |Run(past).core.db.audits| && Run(past).core.db.audits[i].input.ref == ref
    requires ref in Run(past).core.db.entities
    ensures (forall future, step :: !Deleted(Run(past + future), step, ref)) <==> NoStaleDelete(Run(past), ref)
  {
    RunExplained(past);
    hide Run, Fresh, AllExplained, Exec;
    if NoStaleDelete(Run(past), ref) {
      forall future, step | Deleted(Run(past + future), step, ref) ensures false {
        NoStaleDeleteForever(past, future, ref);
        DeletedByStale(past, future, step, i, ref);
      }
    } else {
      var c :| 0 <= c < |Run(past).calls| && StaleDelete(Run(past), c, ref);
      StaleHasEffect(Run(past), c, ref);
      assert past + [] == past;
      assert Deleted(Run(past + []), Advance(c, NOW), ref);
    }
  }

  // ---- permanent rejection ----

  ghost predicate StaysRejected(s: State, ref: Ref) {
    ref in s.core.db.entities ==> s.core.db.entities[ref].status == PermanentlyRejected
  }

  /** No edit that has passed its checks would write `ref`. */
  predicate NoEditInFlight(s: State, ref: Ref) {
    forall c :: 0 <= c < |s.calls| && s.calls[c].EditCommit? ==>
      Landing(s.core.db, s.calls[c].ref, s.calls[c].at) != Some(ref)
  }

  lemma NoNewEdit(s: State, step: Step, ref: Ref)
    requires ref.etype != Company && ref.eid < s.core.db.nextId && StaysRejected(s, ref) && NoEditInFlight(s, ref)
    ensures NoEditInFlight(Exec(s, step), ref)
  {
    hide Act;
    var s' := Exec(s, step);
    ExecStable(s, step);
    hide Stable;
    forall c | 0 <= c < |s'.calls| && s'.calls[c].EditCommit?
      ensures Landing(s'.core.db, s'.calls[c].ref, s'.calls[c].at) != Some(ref)
    {
      var call := s'.calls[c];
      if Landing(s'.core.db, call.ref, call.at) == Some(ref) {
      }
    }
  }

  lemma RejectedCoreStep(c: Core, a: Action, ref: Ref)
    requires Fresh(c) && AllExplained(c.db) && Honest(c.db, a) && ref.eid < c.db.nextId
    requires (a.Resubmit? ==> a.ref != ref) && !Overwrites(a, ref)
    requires ref in c.db.entities ==> c.db.entities[ref].status == PermanentlyRejected
    ensures ref in Act(c, a).db.entities ==> Act(c, a).db.entities[ref].status == PermanentlyRejected
  {
    ActStable(c, a);
    if ref in c.db.entities {
      WhatAnActionTouches(c, a, ref);
      hide Act;
    }
  }

  lemma OnlyEditsResubmit(s: State, step: Step, ref: Ref)
    requires NoEditInFlight(s, ref)
    ensures !(ActionOf(s, step).Resubmit? && ActionOf(s, step).ref == ref) && !Overwrites(ActionOf(s, step), ref)
  {
  }

  lemma RejectedStatusStep(s: State, step: Step, ref: Ref)
    requires Fresh(s.core) && AllExplained(s.core.db) && Honest(s.core.db, ActionOf(s, step))
        && ref.eid < s.core.db.nextId
    requires StaysRejected(s, ref) && NoEditInFlight(s, ref)
    ensures StaysRejected(Exec(s, step), ref)
  {
    OnlyEditsResubmit(s, step, ref);
    hide NoEditInFlight, ActionOf, Fresh, AllExplained, Honest, Act;
    RejectedCoreStep(s.core, ActionOf(s, step), ref);
    ExecCore(s, step);
  }

  lemma {:induction false} RejectedForever(past: seq<Step>, future: seq<Step>, ref: Ref)
    requires ref.etype != Company && ref.eid < Run(past).core.db.nextId
    requires StaysRejected(Run(past), ref) && NoEditInFlight(Run(past), ref)
    ensures StaysRejected(Run(past + future), ref) && NoEditInFlight(Run(past + future), ref)
    ensures ref.eid < Run(past + future).core.db.nextId
  {
    if future == [] {
      assert past + future == past;
    } else {
      var before, last := past + future[..|future| - 1], future[|future| - 1];
      RejectedForever(past, future[..|future| - 1], ref);
      RunExplained(before);
      RunHonest(before, last);
      RunSnoc(before, last);
      hide Run, Exec, StaysRejected, NoEditInFlight, Fresh, AllExplained, Honest;
      assert past + future == before + [last];
      RejectedStatusStep(Run(before), last, ref);
      NoNewEdit(Run(before), last, ref);
      ExecStable(Run(before), last);
    }
  }

  lemma LateEditReopens(s: State, c: nat, ref: Ref)
    requires c < |s.calls| && s.calls[c].EditCommit? && Landing(s.core.db, s.calls[c].ref, s.calls[c].at) == Some(ref)
    ensures !StaysRejected(Exec(s, Advance(c, NOW)), ref)
  {
    hide Escalates;
  }

  /** Permanent rejection of a round rating, recruiter rating or overall review is final exactly
      when no edit that has passed its check would still write it. */
  lemma {:induction false} PermanentRejectionIsFinalIff(past: seq<Step>, ref: Ref)
    requires ref in Run(past).core.db.entities && ref.etype != Company
    requires Run(past).core.db.entities[ref].status == PermanentlyRejected
    ensures (forall future :: StaysRejected(Run(past + future), ref)) <==> NoEditInFlight(Run(past), ref)
  {
    RunExplained(past);
    var s := Run(past);
    if NoEditInFlight(s, ref) {
      forall future ensures StaysRejected(Run(past + future), ref) { RejectedForever(past, future, ref); }
    } else {
      var c :| 0 <= c < |s.calls| && s.calls[c].EditCommit?
          && Landing(s.core.db, s.calls[c].ref, s.calls[c].at) == Some(ref);
      LateEditReopens(s, c, ref);
      RunSnoc(past, Advance(c, NOW));
      assert !StaysRejected(Run(past + [Advance(c, NOW)]), ref);
    }
  }

  /** A company request's edit never looks for permanent rejection: it is final exactly when
      nobody owns the request. */
  lemma {:induction false} CompanyRejectionIsFinalIff(past: seq<Step>, ref: Ref)
    requires ref in Run(past).core.db.entities && ref.etype == Company
    requires Run(past).core.db.entities[ref].status == PermanentlyRejected
    ensures (forall future :: StaysRejected(Run(past + future), ref)) <==> Run(past).core.db.entities[ref].owner.None?
  {
    RunExplained(past);
    hide Run, AllExplained;
    var s := Run(past);
    if s.core.db.entities[ref].owner.None? {
      forall future ensures StaysRejected(Run(past + future), ref) { UnownedForever(past, future, ref); }
    } else {
      var steps := Edit(s, ref, None, s.core.db.entities[ref].owner.value, "");
      RunThen(past, steps);
      assert !StaysRejected(Run(past + steps), ref);
    }
  }

  ghost predicate Unowned(s: State, ref: Ref) {
    && StaysRejected(s, ref) && ref.eid < s.core.db.nextId
    && (ref in s.core.db.entities ==> s.core.db.entities[ref].owner.None?)
  }

  lemma {:induction false} UnownedForever(past: seq<Step>, future: seq<Step>, ref: Ref)
    requires ref.etype == Company && Unowned(Run(past), ref)
    ensures Unowned(Run(past + future), ref)
  {
    hide Run, Exec, Unowned, Fresh, AllExplained, Honest, CallsOk, ActionOf;
    if future == [] {
      assert past + future == past;
    } else {
      var before, last := past + future[..|future| - 1], future[|future| - 1];
      assert past + future == before + [last];
      UnownedForever(past, future[..|future| - 1], ref);
      RunExplained(before);
      RunCalls(before);
      RunHonest(before, last);
      RunSnoc(before, last);
      UnownedStep(Run(before), last, ref);
    }
  }

  lemma UnownedStep(s: State, step: Step, ref: Ref)
    requires Fresh(s.core) && AllExplained(s.core.db) && Honest(s.core.db, ActionOf(s, step)) && CallsOk(s)
    requires ref.etype == Company && Unowned(s, ref)
    ensures Unowned(Exec(s, step), ref)
  {
    ExecStable(s, step);
    NobodyEditsUnowned(s, step, ref);
    hide ActionOf, Fresh, AllExplained, Honest, Act, CallsOk;
    RejectedCoreStep(s.core, ActionOf(s, step), ref);
    ExecCore(s, step);
  }

  lemma NobodyEditsUnowned(s: State, step: Step, ref: Ref)
    requires Fresh(s.core) && CallsOk(s) && ref.etype == Company
    requires ref in s.core.db.entities ==> s.core.db.entities[ref].owner.None?
    ensures var a := ActionOf(s, step);
      !Overwrites(a, ref) && (a.Resubmit? && a.ref == ref ==> ref !in s.core.db.entities)
  {
    if step.Advance? && step.c < |s.calls| { assert CallOk(s.core.db, s.calls[step.c]); }
  }
}
