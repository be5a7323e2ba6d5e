/**
 What holds in every run of the moderation protocol: any list of steps, of any number of
 calls, interleaved in any order.
 */
module Theorems {
  import opened Wrappers
  import opened Queue
  import opened Verdicts
  import opened Lifecycle
  import opened History
  import opened Protocol
  import opened ProtocolInv

  // ---- status ----

  /** No edit that had read another review was committed on `ref`. */
  predicate Untouched(steps: seq<Step>, ref: Ref) {
    steps == [] ||
    (Untouched(steps[..|steps| - 1], ref) && !Overwrites(ActionOf(Run(steps[..|steps| - 1]), steps[|steps| - 1]), ref))
  }

  lemma {:induction false} UntouchedIsExplained(steps: seq<Step>, ref: Ref)
    requires Untouched(steps, ref)
    ensures ExplainedIn(true, Run(steps).core.db, ref)
  {
    if steps != [] {
      var before, last := steps[..|steps| - 1], steps[|steps| - 1];
      UntouchedIsExplained(before, ref);
      RunExplained(before);
      RunHonest(before, last);
      hide ExplainedIn, Fresh, AllExplained, Honest, Act, ActionOf;
      ExplainedStep(true, Run(before).core, ActionOf(Run(before), last), ref);
      ExecCore(Run(before), last);
    }
  }

  /** Only an overall review, which is written by its process, can be touched. */
  lemma {:induction false} WrittenByIdIsUntouched(steps: seq<Step>, ref: Ref)
    requires ref.etype != OverallReview
    ensures Untouched(steps, ref)
  {
    if steps != [] {
      WrittenByIdIsUntouched(steps[..|steps| - 1], ref);
      RunExplained(steps[..|steps| - 1]);
    }
  }

  /** An entity has at most one open entry, is pending exactly when it has one, and otherwise
      takes its status from its newest entry. */
  lemma {:induction false} StatusFollowsNewestEntry(steps: seq<Step>, ref: Ref)
    requires ref in Run(steps).core.db.entities && Untouched(steps, ref)
    ensures var db := Run(steps).core.db; StatusRule(db.entities[ref], Thread(db.queue, ref))
  {
    UntouchedIsExplained(steps, ref);
    RuleIffExplained(Run(steps).core.db.entities[ref], Run(steps).core.db.queue, ref);
  }

  /** Touched or not: one open entry at most, pending if there is one, and any other status is
      the newest entry's. */
  lemma {:induction false} LooseRuleAlwaysHolds(steps: seq<Step>, ref: Ref)
    requires ref in Run(steps).core.db.entities
    ensures var db := Run(steps).core.db; LooseRule(db.entities[ref], Thread(db.queue, ref))
  {
    RunExplained(steps);
    ExplainedMeansLooseRule(Run(steps).core.db.entities[ref], Run(steps).core.db.queue, ref);
  }

  /** Nothing is approved without an approving decision about the very submission it now shows. */
  lemma {:induction false} ApprovedMeansReviewed(steps: seq<Step>, ref: Ref)
    requires ref in Run(steps).core.db.entities && Run(steps).core.db.entities[ref].status == Approved
    requires Untouched(steps, ref)
    ensures var c := Run(steps).core;
            exists k :: 0 <= k < |c.log| && c.log[k].Decided? && c.log[k].decision == Approve && c.log[k].ref == ref
                        && c.log[k].id in c.db.queue && c.db.queue[c.log[k].id].content == c.db.entities[ref].content
  {
    hide LogOk, Fresh, Untouched;
    UntouchedIsExplained(steps, ref);
    RunRows(steps);
    RunLog(steps);
    var c := Run(steps).core;
    var n :| ExplainedBy(true, c.db.entities[ref], c.db.queue, ref, n);
    assert RowMatches(c.log, n, c.db.queue[n]);
    var k :| 0 <= k < |c.log| && c.log[k].Decided? && c.log[k].id == n && c.log[k].decision == Approve;
    DecidedRef(c, k);
  }

  lemma DecidedRef(c: Core, k: nat)
    requires LogOk(c.log) && RowsMatch(c) && k < |c.log| && c.log[k].Decided? && c.log[k].id in c.db.queue
    ensures c.log[k].ref == c.db.queue[c.log[k].id].ref
  {
    var id := c.log[k].id;
    assert EventOk(c.log[..k], c.log[k]) && RowMatches(c.log, id, c.db.queue[id]);
    hide LogOk, RowsMatch, EventOk, RowMatches;
    assert EverOpened(c.log, id, c.log[k].ref, c.log[k].escalated);
    OpenedOnce(c.log, id, c.log[k].ref, c.log[k].escalated, c.db.queue[id].ref, c.db.queue[id].escalated);
  }

  lemma OpenedOnce(log: seq<Event>, id: Id, ref: Ref, escalated: bool, ref': Ref, escalated': bool)
    requires LogOk(log) && EverOpened(log, id, ref, escalated) && EverOpened(log, id, ref', escalated')
    ensures ref == ref'
  {
    hide Decisions, EverDecided, Holder;
    var i :| 0 <= i < |log| && log[i].Opened? && log[i].id == id && log[i].ref == ref;
    var j :| 0 <= j < |log| && log[j].Opened? && log[j].id == id && log[j].ref == ref';
    assert EventOk(log[..i], log[i]) && EventOk(log[..j], log[j]);
  }

  // ---- escalation ----

  /** A resubmission is escalated exactly when three decisions about its entity came before. */
  lemma {:induction false} EscalatedIffThreeDecisions(steps: seq<Step>, k: nat)
    requires k < |Run(steps).core.log| && Run(steps).core.log[k].Opened? && Run(steps).core.log[k].live
    ensures var log := Run(steps).core.log;
            log[k].escalated <==> Decisions(log[..k], log[k].ref) >= 3
  {
    RunLog(steps);
    assert EventOk(Run(steps).core.log[..k], Run(steps).core.log[k]);
  }

  /** An entry opened for an entity that is gone is one of an overall review. */
  lemma {:induction false} OnlyTheGoneAreOpenedDead(steps: seq<Step>, k: nat)
    requires k < |Run(steps).core.log| && Run(steps).core.log[k].Opened? && !Run(steps).core.log[k].live
    ensures Run(steps).core.log[k].ref.etype == OverallReview
  {
    RunLog(steps);
    assert EventOk(Run(steps).core.log[..k], Run(steps).core.log[k]);
  }

  /** The decisions the log counts are the reviewed entries the table still holds. */
  lemma {:induction false} DecisionsAreReviewedEntries(steps: seq<Step>, ref: Ref)
    requires ref in Run(steps).core.db.entities
    ensures Decisions(Run(steps).core.log, ref) == |ReviewedOf(Run(steps).core.db.queue, ref)|
  {
    RunInv(steps);
  }

  /** Only an admin approves or rejects an escalated entry; the automatic path never does. */
  lemma {:induction false} EscalatedNeedsAdmin(steps: seq<Step>, k: nat)
    requires k < |Run(steps).core.log| && Run(steps).core.log[k].Decided?
    requires Run(steps).core.log[k].escalated && Run(steps).core.log[k].decision != Flag
    ensures Run(steps).core.log[k].actor.Admin?
  {
    RunLog(steps);
    assert EventOk(Run(steps).core.log[..k], Run(steps).core.log[k]);
  }

  /** Along a run a surviving entry keeps its entity, its submission and its flag. */
  lemma {:induction false} EntriesAreImmutable(steps: seq<Step>, n: nat, id: Id)
    requires n <= |steps| && id in Run(steps[..n]).core.db.queue && id in Run(steps).core.db.queue
    ensures var was, now := Run(steps[..n]).core.db.queue[id], Run(steps).core.db.queue[id];
            was.ref == now.ref && was.escalated == now.escalated && was.content == now.content
  {
    RunExplained(steps[..n]);
    RunStable(steps, n);
  }

  lemma {:induction false} RunStable(steps: seq<Step>, n: nat)
    requires n <= |steps|
    ensures Stable(Run(steps[..n]).core.db, Run(steps).core.db)
  {
    if n == |steps| {
      assert steps[..n] == steps;
    } else {
      var before := steps[..|steps| - 1];
      assert before[..n] == steps[..n];
      RunStable(before, n);
      ExecStable(Run(before), steps[|steps| - 1]);
    }
  }

  lemma ExecStable(s: State, step: Step)
    ensures Stable(s.core.db, Exec(s, step).core.db)
  {
    ActStable(s.core, ActionOf(s, step));
  }

  // ---- automatic approval ----

  /** Audit rows and auto-approval commits correspond one to one and in order, no entry is
      auto-approved twice, the approved entry is still there and was never escalated, and the
      verdict on record met the threshold in force when it was computed. */
  lemma {:induction false} AuditsMatchAutoApprovals(steps: seq<Step>)
    ensures var s := Run(steps); var db := s.core.db;
      && AuditedIds(db.audits) == AutoDecided(s.core.log)
      && (forall i, j :: 0 <= i < j < |db.audits| ==> db.audits[i].entry != db.audits[j].entry)
      && (forall i :: 0 <= i < |db.audits| ==> AuditOk(db, db.audits[i]) && Justified(s.published, db.audits[i].input))
  {
    RunInv(steps);
    var c := Run(steps).core;
    AutoDecidedOnce(c.log);
    forall i, j | 0 <= i < j < |c.db.audits| ensures c.db.audits[i].entry != c.db.audits[j].entry {
      assert AuditedIds(c.db.audits)[i] != AuditedIds(c.db.audits)[j];
    }
  }

  lemma {:induction false} AutoDecidedWereDecided(log: seq<Event>)
    ensures forall i :: 0 <= i < |AutoDecided(log)| ==> EverDecided(log, AutoDecided(log)[i])
  {
    if log != [] {
      var before, last := log[..|log| - 1], log[|log| - 1];
      AutoDecidedWereDecided(before);
      assert log == before + [last];
      forall i | 0 <= i < |AutoDecided(log)| ensures EverDecided(log, AutoDecided(log)[i]) {
        DecidedSnoc(before, last, AutoDecided(log)[i]);
      }
    }
  }

  lemma {:induction false} AutoDecidedOnce(log: seq<Event>)
    requires LogOk(log)
    ensures forall i, j :: 0 <= i < j < |AutoDecided(log)| ==> AutoDecided(log)[i] != AutoDecided(log)[j]
  {
    if log != [] {
      var before := log[..|log| - 1];
      LogShrinks(log);
      AutoDecidedOnce(before);
      AutoDecidedWereDecided(before);
      assert EventOk(before, log[|log| - 1]);
    }
  }

  lemma LogShrinks(log: seq<Event>)
    requires LogOk(log) && log != []
    ensures LogOk(log[..|log| - 1])
  {
    var before := log[..|log| - 1];
    forall k | 0 <= k < |before| ensures EventOk(before[..k], before[k]) {
      assert before[..k] == log[..k];
    }
  }

  // ---- claims ----

  /** No claim commits on an entry someone holds or on a decided entry, and only the holder releases. */
  lemma {:induction false} ClaimsAndReleases(steps: seq<Step>, k: nat)
    requires k < |Run(steps).core.log|
    ensures var log := Run(steps).core.log;
      && (log[k].Claimed? ==> Holder(log[..k], log[k].id) == None && !EverDecided(log[..k], log[k].id))
      && (log[k].Released? ==> Holder(log[..k], log[k].id) == Some(log[k].who))
  {
    RunLog(steps);
    assert EventOk(Run(steps).core.log[..k], Run(steps).core.log[k]);
  }

  /** Claims and releases of one entry alternate, each release by the moderator of the claim before it. */
  lemma {:induction false} ClaimsAlternate(steps: seq<Step>, i: nat, j: nat)
    requires i < j < |Run(steps).core.log|
    requires var log := Run(steps).core.log;
      && (log[i].Claimed? || log[i].Released?) && (log[j].Claimed? || log[j].Released?) && log[i].id == log[j].id
      && (forall m :: i < m < j && (log[m].Claimed? || log[m].Released?) ==> log[m].id != log[i].id)
    ensures var log := Run(steps).core.log;
      if log[i].Claimed? then log[j].Released? && log[j].who == log[i].who else log[j].Claimed?
  {
    var log := Run(steps).core.log;
    ClaimsAndReleases(steps, j);
    HolderBetween(log, i, j);
  }

  lemma {:induction false} HolderBetween(log: seq<Event>, i: nat, j: nat)
    requires i < j <= |log| && (log[i].Claimed? || log[i].Released?)
    requires forall m :: i < m < j && (log[m].Claimed? || log[m].Released?) ==> log[m].id != log[i].id
    ensures Holder(log[..j], log[i].id) == if log[i].Claimed? then Some(log[i].who) else None
  {
    assert log[..j][..j - 1] == log[..j - 1];
    if j > i + 1 { HolderBetween(log, i, j - 1); }
  }

  /** A moderator whose claim committed holds the entry until their own release or its deletion. */
  lemma {:induction false} ClaimHoldsUntilOwnRelease(steps: seq<Step>, k: nat, id: Id, who: Person)
    requires k < |Run(steps).core.log| && Run(steps).core.log[k] == Claimed(id, who)
    requires forall m :: k < m < |Run(steps).core.log| ==> Run(steps).core.log[m] != Released(id, who)
    requires id in Run(steps).core.db.queue
    ensures Run(steps).core.db.queue[id].claimedBy == Some(who)
  {
    RunLog(steps);
    RunRows(steps);
    var c := Run(steps).core;
    HolderKept(c.log, k, |c.log|);
    assert c.log[..|c.log|] == c.log;
    assert RowMatches(c.log, id, c.db.queue[id]);
  }

  lemma {:induction false} HolderKept(log: seq<Event>, k: nat, j: nat)
    requires LogOk(log) && k < j <= |log| && log[k].Claimed?
    requires forall m :: k < m < |log| ==> log[m] != Released(log[k].id, log[k].who)
    ensures Holder(log[..j], log[k].id) == Some(log[k].who)
  {
    hide EverOpened, Decisions;
    assert log[..j][..j - 1] == log[..j - 1];
    if j > k + 1 {
      HolderKept(log, k, j - 1);
      assert EventOk(log[..j - 1], log[j - 1]);
    }
  }

  // ---- announcements ----

  /** Each first submission, each resubmission and each decision is announced at most once. */
  lemma {:induction false} AnnouncedOnce(steps: seq<Step>, i: nat, j: nat)
    requires i < j < |Run(steps).outbox| && MessageTicket(Run(steps).outbox[i]) != NoTicket
    ensures MessageTicket(Run(steps).outbox[i]) != MessageTicket(Run(steps).outbox[j])
  {
    RunTickets(steps);
  }

  /** A published decision was committed, on that entry of that entity, with that outcome. */
  lemma {:induction false} AnnouncedDecisionsHappened(steps: seq<Step>, i: nat)
    requires i < |Run(steps).outbox| && Run(steps).outbox[i].StatusChanged?
    ensures var m := Run(steps).outbox[i]; DecisionLogged(Run(steps).core.log, m.ref, m.entry, m.status)
  {
    RunInv(steps);
    assert MessageTrue(Run(steps).core, Run(steps).outbox[i]);
  }
}
