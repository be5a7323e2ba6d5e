/**
 The triage service's own sweep: rows that have waited a day without a verdict are analysed
 again, and reported as stalled when that fails too.
 */
module TriageSweep {
  import opened Wrappers
  import opened Queue
  import opened Verdicts
  import opened Lifecycle
  import opened Protocol
  import opened ProtocolInv
  import opened Solo
  import opened Theorems

  /** Pending, no verdict, and created before the cut-off. */
  predicate IsStale(db: Db, waiting: set<Ref>, ref: Ref) {
    && ref.etype != Company && ref in waiting && ref in db.entities
    && db.entities[ref].status == Pending && db.entities[ref].verdict.None?
  }

  /** What the retry of one row publishes. */
  function Reconciled(db: Db, ref: Ref, result: Option<Analysis>): seq<Publication> {
    if result.None? && ref !in db.entities then []
    else [Publication(BuildVerdictComputedEvent(ref, result), result)]
  }

  function AllReconciled(db: Db, rows: seq<Ref>, results: seq<Option<Analysis>>): seq<Publication>
    requires |results| == |rows|
  {
    if rows == [] then [] else
    AllReconciled(db, rows[..|rows| - 1], results[..|rows| - 1]) + Reconciled(db, rows[|rows| - 1], results[|rows| - 1])
  }

  lemma NextReconciled(db: Db, rows: seq<Ref>, results: seq<Option<Analysis>>, i: nat)
    requires i < |rows| == |results|
    ensures AllReconciled(db, rows[..i + 1], results[..i + 1])
            == AllReconciled(db, rows[..i], results[..i]) + Reconciled(db, rows[i], results[i])
  {
    hide Reconciled;
    assert rows[..i + 1][..i] == rows[..i] && results[..i + 1][..i] == results[..i];
  }

  class ReconciliationSweepService {
    var published: seq<Publication>

    constructor ()
      ensures published == []
    {
      published := [];
    }

    method ReconcileOne(db: Db, ref: Ref, result: Option<Analysis>)
      modifies this
      ensures published == old(published) + Reconciled(db, ref, result)
    {
      if result.Some? {
        published := published + [Publication(BuildVerdictComputedEvent(ref, result), result)];
        return;
      }
      if ref !in db.entities {
        return;
      }
      published := published + [Publication(BuildVerdictComputedEvent(ref, None), None)];
    }

    /** `sweep`: `rows` are the stale rows, type by type, and `results` what analysing them gave. */
    method Sweep(enabled: bool, db: Db, rows: seq<Ref>, results: seq<Option<Analysis>>)
      requires |results| == |rows|
      modifies this
      ensures published == old(published) + if enabled then AllReconciled(db, rows, results) else []
    {
      if !enabled {
        return;
      }
      for i := 0 to |rows|
        invariant published == old(published) + AllReconciled(db, rows[..i], results[..i])
      {
        hide AllReconciled, Reconciled;
        NextReconciled(db, rows, results, i);
        ReconcileOne(db, rows[i], results[i]);
      }
      assert rows[..|rows|] == rows && results[..|rows|] == results;
    }
  }

  /** Every stale row gets one event, in row order, carrying its verdict or its stalled report. */
  lemma {:induction false} OneEventPerStaleRow(db: Db, waiting: set<Ref>, rows: seq<Ref>,
        results: seq<Option<Analysis>>)
    requires |results| == |rows| && forall i :: 0 <= i < |rows| ==> IsStale(db, waiting, rows[i])
    ensures |AllReconciled(db, rows, results)| == |rows|
    ensures forall i :: 0 <= i < |rows| ==> var e := AllReconciled(db, rows, results)[i].event;
      e.ref == rows[i] && (e.stalled <==> results[i].None?)
  {
    if rows != [] {
      OneEventPerStaleRow(db, waiting, rows[..|rows| - 1], results[..|rows| - 1]);
    }
  }

  // ---- what the event achieves once delivered ----

  /** The event is published. */
  function Announced(s: State, ref: Ref, result: Option<Analysis>): State {
    Exec(s, Analyse(ref, result))
  }

  /** Its consumer then takes `n` steps undisturbed. */
  function Delivered(s: State, ref: Ref, result: Option<Analysis>, env: Env, n: nat): State {
    var s0 := Announced(s, ref, result);
    Then(s0, [Arrive(Consume(BuildVerdictComputedEvent(ref, result)))] + Turns(s0, env, n))
  }

  lemma MayConsume(s: State, ref: Ref, result: Option<Analysis>)
    requires ref.etype != Company && WellFormed(BuildVerdictComputedEvent(ref, result))
    ensures var s0, call := Announced(s, ref, result), Consume(BuildVerdictComputedEvent(ref, result));
      s0.core == s.core && MayArrive(s0, call) && NamedId(call).None?
  {
    var p := Publication(BuildVerdictComputedEvent(ref, result), result);
    assert Announced(s, ref, result).published[|s.published|] == p;
  }

  predicate HasVerdict(db: Db, ref: Ref, e: VerdictEvent) {
    ref in db.entities && db.entities[ref].verdict == e.verdict
  }

  lemma VerdictArrives(s: State, ref: Ref, result: Option<Analysis>, env: Env)
    requires ref in s.core.db.entities && ref.etype != Company && result.Some?
    requires WellFormed(BuildVerdictComputedEvent(ref, result))
    ensures HasVerdict(Delivered(s, ref, result, env, 1).core.db, ref, BuildVerdictComputedEvent(ref, result))
  {
    MayConsume(s, ref, result);
    var path := [Consume(BuildVerdictComputedEvent(ref, result))];
    hide MayArrive;
    SoloCommits(Announced(s, ref, result), path, env);
  }

  // ---- what the event achieves when it is eligible ----

  /** The rest of the path, after the verdict was stored. */
  function VerdictPath(db: Db, e: VerdictEvent, found: Option<Id>): seq<Call> {
    if !e.eligible then [Done, Done, Done, Done, Done]
    else if found.None? || found.value !in db.queue || db.queue[found.value].escalated then
      [AutoFind(e), Done, Done, Done, Done]
    else
      var req, seen := Request(found.value, Approve, None, AutoApproval, Some(AuditInputFor(e))), db.queue[found.value];
      [AutoFind(e), ReviewRead(req), EntityCheck(req, seen), ReviewCommit(req, seen)]
  }

  lemma ApprovalReads(core: Core, e: VerdictEvent, env: Env)
    requires e.ref in core.db.entities && |VerdictPath(core.db, e, env.found)| == 4
    requires core.db.queue[env.found.value].ref == e.ref && core.db.queue[env.found.value].decision.None?
    requires IsNewestUnreviewed(core.db.queue, e.ref, env.found)
    ensures forall i :: 0 <= i < 3 ==> OnlyReads(core, VerdictPath(core.db, e, env.found), i, env)
  {
    hide IsNewestUnreviewed, AuditInputFor;
  }

  lemma VerdictReads(core: Core, e: VerdictEvent, env: Env)
    requires e.ref in core.db.entities && IsNewestUnreviewed(core.db.queue, e.ref, env.found)
    ensures var path := VerdictPath(core.db, e, env.found);
      && (forall i :: 0 <= i < |path| - 1 ==> OnlyReads(core, path, i, env))
      && FoundOk(core.db, path[|path| - 1], env)
  {
    if |VerdictPath(core.db, e, env.found)| == 4 {
      ApprovalReads(core, e, env);
      hide OnlyReads;
    }
  }

  lemma StoresVerdict(s: State, ref: Ref, a: Analysis, env: Env)
    requires ref in s.core.db.entities && ref.etype != Company
    requires WellFormed(BuildVerdictComputedEvent(ref, Some(a)))
    ensures var s0, e := Announced(s, ref, Some(a)), BuildVerdictComputedEvent(ref, Some(a));
      At(Exec(Exec(s0, Arrive(Consume(e))), Advance(|s0.calls|, env)), s0,
         Act(s.core, StoreVerdict(ref, e.verdict.value)), VerdictPath(s.core.db, e, env.found)[0])
  {
    MayConsume(s, ref, Some(a));
    var s0, e := Announced(s, ref, Some(a)), BuildVerdictComputedEvent(ref, Some(a));
    hide MayArrive, Act, Announced;
    Enters(s0, Consume(e));
    Moves(Exec(s0, Arrive(Consume(e))), s0, s0.core, Consume(e), env);
  }

  lemma DeliveredInTwo(s: State, ref: Ref, a: Analysis, env: Env, n: nat)
    ensures var s0, e := Announced(s, ref, Some(a)), BuildVerdictComputedEvent(ref, Some(a));
      Delivered(s, ref, Some(a), env, n + 1)
      == Then(Exec(Exec(s0, Arrive(Consume(e))), Advance(|s0.calls|, env)), Turns(s0, env, n))
  {
    var s0, e := Announced(s, ref, Some(a)), BuildVerdictComputedEvent(ref, Some(a));
    hide Exec, Announced, BuildVerdictComputedEvent;
    var first := [Arrive(Consume(e)), Advance(|s0.calls|, env)];
    assert [Arrive(Consume(e))] + Turns(s0, env, n + 1) == first + Turns(s0, env, n);
    ThenThen(s0, first, Turns(s0, env, n));
    assert first[..1] == [first[0]] && first[..1][..0] == [];
    assert Then(s0, first[..1]) == Exec(s0, first[0]);
  }

  lemma TakesPath(s: State, ref: Ref, a: Analysis, env: Env)
    requires ref in s.core.db.entities && ref.etype != Company
    requires WellFormed(BuildVerdictComputedEvent(ref, Some(a)))
    requires IsNewestUnreviewed(s.core.db.queue, ref, env.found)
    ensures var e := BuildVerdictComputedEvent(ref, Some(a));
      var stored, path := Act(s.core, StoreVerdict(ref, e.verdict.value)), VerdictPath(s.core.db, e, env.found);
      Delivered(s, ref, Some(a), env, 5).core
      == if |path| == 4 then Act(stored, CallAction(stored.db, path[3], env)) else stored
  {
    hide Exec, Act, Announced, OnlyReads, Delivered, FoundOk, CallAction, NextCall, VerdictPath, IsNewestUnreviewed,
      WellFormed, IsEligibleForAutoApproval;
    var s0, e := Announced(s, ref, Some(a)), BuildVerdictComputedEvent(ref, Some(a));
    StoresVerdict(s, ref, a, env);
    DeliveredInTwo(s, ref, a, env, 4);
    PathOfStored(s.core, ref, e, env.found);
    var s2 := Exec(Exec(s0, Arrive(Consume(e))), Advance(|s0.calls|, env));
    VerdictReads(s2.core, e, env);
    PathLength(s.core.db, e, env.found);
    AlongPath(s2, s0, VerdictPath(s.core.db, e, env.found), env);
  }

  lemma PathLength(db: Db, e: VerdictEvent, found: Option<Id>)
    ensures 4 <= |VerdictPath(db, e, found)| <= 5
  {
  }

  lemma PathOfStored(c: Core, ref: Ref, e: VerdictEvent, found: Option<Id>)
    requires ref in c.db.entities && e.verdict.Some?
    ensures var db := Act(c, StoreVerdict(ref, e.verdict.value)).db;
      ref in db.entities && db.queue == c.db.queue && VerdictPath(db, e, found) == VerdictPath(c.db, e, found)
  {
  }

  lemma AlongPath(s: State, s0: State, path: seq<Call>, env: Env)
    requires 4 <= |path| <= 5 && At(s, s0, s.core, path[0])
    requires forall i :: 0 <= i < |path| - 1 ==> OnlyReads(s.core, path, i, env)
    requires FoundOk(s.core.db, path[|path| - 1], env)
    ensures Then(s, Turns(s0, env, 4)).core
            == if |path| == 4 then Act(s.core, CallAction(s.core.db, path[3], env)) else s.core
  {
    hide Exec, Act, OnlyReads, FoundOk, CallAction, NextCall;
    if |path| == 4 {
      QuietPath(s, s0, s.core, path, env, 3);
      assert Turns(s0, env, 4)[..3] == Turns(s0, env, 3);
      Moves(Then(s, Turns(s0, env, 3)), s0, s.core, path[3], env);
    } else {
      QuietPath(s, s0, s.core, path, env, 4);
    }
  }

  /** The analysis itself allows an approval without a moderator. */
  predicate Reassuring(a: Analysis) {
    && a.enabled && a.concerning == JBool(false)
    && a.confidence.JNumber? && a.threshold.Some? && a.confidence.n >= a.threshold.value
  }

  /** In every state, consuming the verdict on an entity stores it. If it is reassuring and the
      newest open entry is not escalated, that entry is approved, the entity with it, and one
      audit row says why. Nothing else changes. */
  lemma {:induction false} VerdictIsAppliedIff(s: State, ref: Ref, a: Analysis, env: Env)
    requires ref in s.core.db.entities && ref.etype != Company && (a.confidence.JNull? || a.confidence.JNumber?)
    requires IsNewestUnreviewed(s.core.db.queue, ref, env.found)
    ensures var db, v := s.core.db, Verdict(a.concerning, a.confidence, Reassuring(a));
      Delivered(s, ref, Some(a), env, 5).core.db ==
      if Reassuring(a) && env.found.Some? && !db.queue[env.found.value].escalated then
        Db(db.entities[ref := db.entities[ref].(verdict := Some(v), status := Approved)],
           db.queue[env.found.value := db.queue[env.found.value].(decision := Some(Approve))],
           db.audits + [Audit(env.found.value, AuditInput(ref, v, a.confidence.n))], db.nextId, db.reviewAt)
      else db.(entities := db.entities[ref := db.entities[ref].(verdict := Some(v))])
    ensures forall id :: id in Unreviewed(s.core.db.queue, ref) ==> env.found.Some? && id <= env.found.value
  {
    TakesPath(s, ref, a, env);
    hide Delivered;
  }

  /** The path of a stalled report: find the entry, then `review()` it as flagged; or find none. */
  function StalledPath(db: Db, ref: Ref, found: Option<Id>): seq<Call> {
    [Consume(BuildVerdictComputedEvent(ref, None)), StalledFind(ref)] +
    if found.Some? && found.value in db.queue then
      var req, seen := Request(found.value, Flag, Some(AiTriageStalled), StalledSweep, None), db.queue[found.value];
      [ReviewRead(req), EntityCheck(req, seen), ReviewCommit(req, seen)]
    else [Done, Done, Done, Done]
  }

  lemma StalledReads(core: Core, ref: Ref, env: Env)
    requires ref in core.db.entities && IsNewestUnreviewed(core.db.queue, ref, env.found)
    ensures var path := StalledPath(core.db, ref, env.found);
      forall i :: 0 <= i < |path| - 1 ==> OnlyReads(core, path, i, env)
  {
  }

  predicate FlaggedAsStalled(db: Db, ref: Ref, n: Id) {
    && ref in db.entities && db.entities[ref].status == Flagged
    && n in db.queue && db.queue[n].ref == ref
    && db.queue[n].decision == Some(Flag) && db.queue[n].flagReason == Some(AiTriageStalled)
  }

  lemma FlagCommits(c: Core, n: Id, ref: Ref, escalated: bool)
    requires ReviewWins(c.db, n, ref) && c.db.queue[n].ref == ref
    ensures FlaggedAsStalled(
      Act(c, Review(n, ref, Flag, Outcome(Flag, escalated), Some(AiTriageStalled), StalledSweep, None)).db, ref, n)
  {
  }

  lemma StalledReportFlags(s: State, ref: Ref, env: Env)
    requires ref in s.core.db.entities && ref.etype != Company && env.found.Some?
    requires IsNewestUnreviewed(s.core.db.queue, ref, env.found)
    ensures FlaggedAsStalled(Delivered(s, ref, None, env, 5).core.db, ref, env.found.value)
  {
    var core, n := s.core, env.found.value;
    var path := StalledPath(core.db, ref, env.found);
    assert n in core.db.queue && core.db.queue[n].decision.None? && core.db.queue[n].ref == ref;
    hide MayArrive, OnlyReads, Act, FlaggedAsStalled, IsNewestUnreviewed, Announced, BuildVerdictComputedEvent,
      NextCall, Then, Turns, Exec;
    FlagCommits(core, n, ref, core.db.queue[n].escalated);
    StalledReads(core, ref, env);
    MayConsume(s, ref, None);
    SoloCommits(Announced(s, ref, None), path, env);
  }

  lemma StalledReportMisses(s: State, ref: Ref, env: Env)
    requires ref in s.core.db.entities && ref.etype != Company && env.found.None?
    requires IsNewestUnreviewed(s.core.db.queue, ref, env.found)
    ensures Delivered(s, ref, None, env, 5).core == s.core
  {
    var path := StalledPath(s.core.db, ref, env.found);
    StalledReads(s.core, ref, env);
    MayConsume(s, ref, None);
    hide MayArrive, OnlyReads, IsNewestUnreviewed, Announced;
    SoloBegins(Announced(s, ref, None), path, env);
  }

  lemma PendingHasOpenEntry(steps: seq<Step>, ref: Ref)
    requires ref in Run(steps).core.db.entities && Run(steps).core.db.entities[ref].status == Pending
    requires Untouched(steps, ref)
    ensures Unreviewed(Run(steps).core.db.queue, ref) != {}
  {
    UntouchedIsExplained(steps, ref);
    var db := Run(steps).core.db;
    hide Run, Untouched;
    var n :| ExplainedBy(true, db.entities[ref], db.queue, ref, n);
    assert n in Unreviewed(db.queue, ref);
  }

  /** What delivering the event about a stale row comes to: the verdict is stored, or, for a
      stalled report, the row leaves staleness, by having its open entry flagged, exactly when it
      has an open entry. */
  predicate Settles(s: State, waiting: set<Ref>, ref: Ref, result: Option<Analysis>, env: Env) {
    && (result.Some? ==>
          HasVerdict(Delivered(s, ref, result, env, 1).core.db, ref, BuildVerdictComputedEvent(ref, result)))
    && (result.None? ==> var db' := Delivered(s, ref, None, env, 5).core.db;
          && (!IsStale(db', waiting, ref) <==> Unreviewed(s.core.db.queue, ref) != {})
          && (!IsStale(db', waiting, ref) ==> env.found.Some? && FlaggedAsStalled(db', ref, env.found.value)))
  }

  /** In every reachable state, delivering the event about a stale row settles it, whichever
      entry the consumer's query answers with. A report about a row without an open entry changes
      nothing, and such a row needs an edit of another review to have landed on it. */
  lemma {:induction false} DeliveryEndsStaleness(steps: seq<Step>, waiting: set<Ref>, ref: Ref,
        result: Option<Analysis>, env: Env)
    requires IsStale(Run(steps).core.db, waiting, ref) && WellFormed(BuildVerdictComputedEvent(ref, result))
    requires IsNewestUnreviewed(Run(steps).core.db.queue, ref, env.found)
    ensures Settles(Run(steps), waiting, ref, result, env)
    ensures Untouched(steps, ref) ==> Unreviewed(Run(steps).core.db.queue, ref) != {}
  {
    hide Run, Delivered, Untouched;
    if Untouched(steps, ref) { PendingHasOpenEntry(steps, ref); }
    if result.Some? {
      VerdictArrives(Run(steps), ref, result, env);
    } else if env.found.Some? {
      StalledReportFlags(Run(steps), ref, env);
    } else {
      StalledReportMisses(Run(steps), ref, env);
    }
  }

  /** The consumer's query always has an answer, so every stale row can be settled so. */
  lemma {:induction false} StaleRowsCanBeSettled(steps: seq<Step>, waiting: set<Ref>, ref: Ref,
        result: Option<Analysis>) returns (env: Env)
    requires IsStale(Run(steps).core.db, waiting, ref) && WellFormed(BuildVerdictComputedEvent(ref, result))
    ensures IsNewestUnreviewed(Run(steps).core.db.queue, ref, env.found)
    ensures Settles(Run(steps), waiting, ref, result, env)
  {
    RunExplained(steps);
    hide Run, Settles;
    var db := Run(steps).core.db;
    assert Explained(false, db.entities[ref], db.queue, ref);
    if id :| id in Unreviewed(db.queue, ref) {
      env := Env(0, 0, Some(id));
    } else {
      env := Env(0, 0, None);
    }
    DeliveryEndsStaleness(steps, waiting, ref, result, env);
  }

  // ---- which verdict a row carries ----

  /** The step commits an edit that rewrites `ref`, whichever review the call had read. */
  predicate Rewrites(s: State, step: Step, ref: Ref) {
    && step.Advance? && step.c < |s.calls| && s.calls[step.c].EditCommit?
    && Landing(s.core.db, s.calls[step.c].ref, s.calls[step.c].at) == Some(ref)
  }

  /** The step stores the verdict of an event about `ref`. */
  predicate Consumes(s: State, step: Step, ref: Ref) {
    && step.Advance? && step.c < |s.calls| && s.calls[step.c].Consume?
    && s.calls[step.c].event.ref == ref && !s.calls[step.c].event.stalled && ref in s.core.db.entities
  }

  /** The verdict of the last event about `ref` consumed since `ref` was last rewritten. */
  function LastVerdict(steps: seq<Step>, ref: Ref): Option<Verdict> {
    if steps == [] then None else
    var s, last := Run(steps[..|steps| - 1]), steps[|steps| - 1];
    if Rewrites(s, last, ref) then None
    else if Consumes(s, last, ref) then s.calls[last.c].event.verdict
    else LastVerdict(steps[..|steps| - 1], ref)
  }

  lemma ActVerdict(c: Core, a: Action, ref: Ref)
    requires Fresh(c) && ref in c.db.entities && ref in Act(c, a).db.entities
    ensures Act(c, a).db.entities[ref].verdict
            == if (a.Resubmit? && a.ref == ref) || Overwrites(a, ref) then None
               else if a.StoreVerdict? && a.ref == ref then Some(a.verdict)
               else c.db.entities[ref].verdict
  {
    hide Escalates, CanRemove, Reopened, Vacated;
  }

  lemma VerdictStep(s: State, step: Step, ref: Ref)
    requires Fresh(s.core) && ref in s.core.db.entities && ref in Exec(s, step).core.db.entities
    requires Consumes(s, step, ref) ==>
      s.calls[step.c].event.verdict == Some(AuditInputFor(s.calls[step.c].event).verdict)
    ensures Exec(s, step).core.db.entities[ref].verdict
            == if Rewrites(s, step, ref) then None
               else if Consumes(s, step, ref) then s.calls[step.c].event.verdict
               else s.core.db.entities[ref].verdict
  {
    hide Fresh, Act, AuditInputFor;
    ExecCore(s, step);
    if Enabled(s, step) { ActVerdict(s.core, ActionOf(s, step), ref); }
    hide Exec;
  }

  lemma ConsumedCarryVerdicts(steps: seq<Step>, c: nat)
    requires c < |Run(steps).calls| && Run(steps).calls[c].Consume? && !Run(steps).calls[c].event.stalled
    ensures var e := Run(steps).calls[c].event; e.verdict == Some(AuditInputFor(e).verdict)
  {
    RunInv(steps);
    var s := Run(steps);
    hide Run;
    assert CallSourced(s.published, s.calls[c]);
  }

  /** A row appears without a verdict. */
  lemma ActCreates(c: Core, a: Action, ref: Ref)
    requires ref !in c.db.entities && ref in Act(c, a).db.entities
    ensures Act(c, a).db.entities[ref].verdict == None && ref.eid == c.db.nextId
  {
    hide Escalates, CanRemove, Reopened, Vacated;
  }

  lemma NextVerdict(steps: seq<Step>, step: Step, ref: Ref)
    requires ref in Exec(Run(steps), step).core.db.entities
    requires ref in Run(steps).core.db.entities ==>
      Run(steps).core.db.entities[ref].verdict == LastVerdict(steps, ref)
    ensures var s := Run(steps);
      Exec(s, step).core.db.entities[ref].verdict
      == if Rewrites(s, step, ref) then None
         else if Consumes(s, step, ref) then s.calls[step.c].event.verdict
         else LastVerdict(steps, ref)
  {
    var s := Run(steps);
    RunExplained(steps);
    ExecCore(s, step);
    hide Run, Exec, Fresh, AllExplained, LastVerdict, Act, AuditInputFor, Enabled, ActionOf;
    if ref in s.core.db.entities {
      if Consumes(s, step, ref) { ConsumedCarryVerdicts(steps, step.c); }
      VerdictStep(s, step, ref);
    } else {
      ActCreates(s.core, ActionOf(s, step), ref);
      NothingConsumedYet(steps, ref);
      NothingRewritten(s, step, ref);
    }
  }

  lemma NothingRewritten(s: State, step: Step, ref: Ref)
    requires Fresh(s.core) && ref.eid >= s.core.db.nextId
    ensures !Rewrites(s, step, ref) && !Consumes(s, step, ref)
  {
  }

  /** In every run a row carries the verdict of the last event about it consumed since its text
      was last written, and none if there was no such event. */
  lemma {:induction false} VerdictIsOfTheShownText(steps: seq<Step>, ref: Ref)
    requires ref in Run(steps).core.db.entities
    ensures Run(steps).core.db.entities[ref].verdict == LastVerdict(steps, ref)
  {
    if steps == [] {
    } else {
      var before, last := steps[..|steps| - 1], steps[|steps| - 1];
      if ref in Run(before).core.db.entities { VerdictIsOfTheShownText(before, ref); }
      NextVerdict(before, last, ref);
      hide Exec, Rewrites, Consumes;
    }
  }

  /** So the sweep selects exactly the pending rows that have waited long enough and whose text no
      event consumed was about. */
  lemma {:induction false} SelectedIff(steps: seq<Step>, waiting: set<Ref>, ref: Ref)
    requires ref in Run(steps).core.db.entities
    ensures IsStale(Run(steps).core.db, waiting, ref)
            <==> ref.etype != Company && ref in waiting && Run(steps).core.db.entities[ref].status == Pending
                 && LastVerdict(steps, ref) == None
  {
    VerdictIsOfTheShownText(steps, ref);
    hide Run, LastVerdict;
  }

  lemma ConsumedAreReadable(steps: seq<Step>, c: nat)
    requires c < |Run(steps).calls| && Run(steps).calls[c].Consume? && !Run(steps).calls[c].event.stalled
    ensures var e := Run(steps).calls[c].event;
      && e.verdict.Some? && e.verdict.value.confidence == e.confidence
      && (e.confidence.JNull? || e.confidence.JNumber?)
  {
    RunInv(steps);
    var s := Run(steps);
    hide Run;
    assert CallSourced(s.published, s.calls[c]);
  }

  lemma {:induction false} LastVerdictIsReadable(steps: seq<Step>, ref: Ref)
    ensures var v := LastVerdict(steps, ref); v.Some? ==> v.value.confidence.JNull? || v.value.confidence.JNumber?
  {
    if steps != [] {
      var before, last := steps[..|steps| - 1], steps[|steps| - 1];
      if Consumes(Run(before), last, ref) { ConsumedAreReadable(before, last.c); }
      LastVerdictIsReadable(before, ref);
      hide Run, Rewrites;
    }
  }

  /** In every run the confidence of a stored verdict is a number or null: any other event is
      dropped. */
  lemma {:induction false} StoredVerdictIsReadable(steps: seq<Step>, ref: Ref)
    requires ref in Run(steps).core.db.entities && Run(steps).core.db.entities[ref].verdict.Some?
    ensures var v := Run(steps).core.db.entities[ref].verdict.value; v.confidence.JNull? || v.confidence.JNumber?
  {
    VerdictIsOfTheShownText(steps, ref);
    LastVerdictIsReadable(steps, ref);
  }

  lemma {:induction false} NothingConsumedYet(steps: seq<Step>, ref: Ref)
    requires ref.eid >= Run(steps).core.db.nextId
    ensures LastVerdict(steps, ref) == None
  {
    if steps != [] {
      var before, last := steps[..|steps| - 1], steps[|steps| - 1];
      RunExplained(before);
      ExecStable(Run(before), last);
      NothingConsumedYet(before, ref);
    }
  }

  /** No event about `ref` is consumed while `future` goes on. */
  ghost predicate NoneConsumed(past: seq<Step>, future: seq<Step>, ref: Ref) {
    forall n :: 0 <= n < |future| ==> !Consumes(Run(past + future[..n]), future[n], ref)
  }

  lemma {:induction false} StillNoVerdict(past: seq<Step>, future: seq<Step>, ref: Ref)
    requires LastVerdict(past, ref) == None && NoneConsumed(past, future, ref)
    ensures LastVerdict(past + future, ref) == None
  {
    hide Run, Rewrites, Consumes;
    if future == [] {
      assert past + future == past;
    } else {
      var n := |future| - 1;
      var all := past + future;
      assert all[..|all| - 1] == past + future[..n] && all[|all| - 1] == future[n];
      forall m | 0 <= m < n ensures !Consumes(Run(past + future[..n][..m]), future[..n][m], ref) {
        assert future[..n][..m] == future[..m];
      }
      StillNoVerdict(past, future[..n], ref);
      assert !Consumes(Run(past + future[..n]), future[n], ref);
    }
  }

  /** After an edit, until an event about it is consumed, the row has no verdict: while it is
      pending, the sweep selects it once it has waited long enough. */
  lemma {:induction false} EditedRowIsRetried(past: seq<Step>, step: Step, future: seq<Step>, waiting: set<Ref>,
      ref: Ref)
    requires Rewrites(Run(past), step, ref) && NoneConsumed(past + [step], future, ref)
    requires ref in Run(past + [step] + future).core.db.entities
    ensures var db := Run(past + [step] + future).core.db;
      && db.entities[ref].verdict == None
      && (IsStale(db, waiting, ref)
          <==> ref.etype != Company && ref in waiting && db.entities[ref].status == Pending)
  {
    var edited := past + [step];
    assert edited[..|past|] == past;
    StillNoVerdict(edited, future, ref);
    VerdictIsOfTheShownText(edited + future, ref);
  }
}
