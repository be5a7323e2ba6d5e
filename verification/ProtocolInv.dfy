/**
 What every interleaving keeps: each call in flight still knows something true, so every
 transaction it issues is one the core machine can absorb.
 */
module ProtocolInv {
  import opened Wrappers
  import opened Queue
  import opened Verdicts
  import opened Lifecycle
  import opened History
  import opened Protocol

  // ---- what outlives a step ----

  /** Deleted rows never come back, and a surviving entry keeps its entity, its submission
      and its escalation flag, a surviving entity its owner. */
  ghost predicate Stable(db: Db, db': Db) {
    && db.nextId <= db'.nextId
    && (forall id :: id < db.nextId && id in db'.queue ==>
          && id in db.queue
          && db'.queue[id].ref == db.queue[id].ref
          && db'.queue[id].escalated == db.queue[id].escalated
          && db'.queue[id].content == db.queue[id].content)
    && (forall ref: Ref :: ref.eid < db.nextId && ref in db'.entities ==>
          ref in db.entities && db'.entities[ref].owner == db.entities[ref].owner)
    && (forall p :: p in db.reviewAt && db.reviewAt[p] in db'.entities && db.reviewAt[p].eid < db.nextId ==>
          p in db'.reviewAt && db'.reviewAt[p] == db.reviewAt[p])
    && (forall p :: p in db'.reviewAt && db'.reviewAt[p].eid < db.nextId ==>
          p in db.reviewAt && db.reviewAt[p] == db'.reviewAt[p])
  }

  lemma ActStable(c: Core, a: Action)
    ensures Stable(c.db, Act(c, a).db)
  {
    if Annotates(a) { AnnotateStable(c, a); }
    else if a.Resubmit? || a.Overwrite? { EditStable(c, a); }
    else { OthersStable(c, a); }
  }

  lemma AnnotateStable(c: Core, a: Action)
    requires Annotates(a)
    ensures Stable(c.db, Act(c, a).db)
  {
    AnnotateKeepsSubstance(c, a);
    hide SubmitTx, EditTx, RemoveTx, ReviewTx;
  }

  lemma EditStable(c: Core, a: Action)
    requires a.Resubmit? || a.Overwrite?
    ensures Stable(c.db, Act(c, a).db)
  {
    hide Escalates, SubmitTx, RemoveTx, ReviewTx, SetEntry;
  }

  lemma OthersStable(c: Core, a: Action)
    requires !Annotates(a) && !a.Resubmit? && !a.Overwrite?
    ensures Stable(c.db, Act(c, a).db)
  {
    hide EditTx, SetEntry, CanRemove;
  }

  // ---- what a call in flight knows ----

  /** A review request that may go on to commit. */
  ghost predicate Cleared(db: Db, req: Request) {
    && req.id < db.nextId
    && (req.audit.Some? <==> req.actor.AutoApproval?)
    && (req.audit.Some? ==> req.decision == Approve)
    && (req.id in db.queue ==>
          && (req.decision != Flag && !req.actor.Admin? ==> !db.queue[req.id].escalated)
          && (req.audit.Some? ==> req.audit.value.ref == db.queue[req.id].ref))
  }

  ghost predicate SeenOk(db: Db, id: Id, seen: Entry) {
    && id < db.nextId
    && seen.ref.eid < db.nextId
    && (id in db.queue ==> db.queue[id].ref == seen.ref && db.queue[id].escalated == seen.escalated)
  }

  ghost predicate OwnedBy(db: Db, ref: Ref, who: Person) {
    ref.eid < db.nextId && (ref in db.entities ==> db.entities[ref].owner == Some(who))
  }

  /** A call that goes by process read its review there; while it exists it is there. */
  ghost predicate SeatedAt(db: Db, ref: Ref, at: Option<Id>) {
    && (at.Some? <==> ref.etype == OverallReview)
    && (at.Some? && ref in db.entities ==> ReviewAt(db, at.value) == Some(ref))
  }

  ghost predicate CallOk(db: Db, call: Call) {
    match call
    case EditRead(ref, _, _) => ref.etype != OverallReview
    case DeleteRead(ref, _) => ref.etype != OverallReview && ref.etype != Company
    case EditCommit(ref, who, _, at) => OwnedBy(db, ref, who) && SeatedAt(db, ref, at)
    case DeleteCommit(ref, who, at) => OwnedBy(db, ref, who) && SeatedAt(db, ref, at) && ref.etype != Company
    case Guard(req) => req.id < db.nextId && Human(req.actor) && req.decision != Flag && req.audit.None?
    case ReviewRead(req) => Cleared(db, req)
    case EntityCheck(req, seen) => Cleared(db, req) && SeenOk(db, req.id, seen)
    case ReviewCommit(req, seen) => Cleared(db, req) && SeenOk(db, req.id, seen)
    case StaleDelete(id) => id < db.nextId && (id in db.queue ==> db.queue[id].ref !in db.entities)
    case OrphanRead(id) => id < db.nextId
    case OrphanFetch(id, seen) => SeenOk(db, id, seen)
    case _ => true
  }

  lemma CallStable(db: Db, db': Db, call: Call)
    requires Fresh(Core(db, [])) && Stable(db, db') && CallOk(db, call)
    ensures CallOk(db', call)
  {
  }

  lemma ArrivalOk(s: State, call: Call)
    requires MayArrive(s, call)
    ensures CallOk(Act(s.core, ActionOf(s, Arrive(call))).db, call)
  {
  }

  lemma NextCallOk(db: Db, call: Call, env: Env)
    requires Fresh(Core(db, [])) && CallOk(db, call) && FoundOk(db, call, env)
    ensures CallOk(db, NextCall(db, call, env))
  {
  }

  ghost predicate CallsOk(s: State) {
    forall c :: 0 <= c < |s.calls| ==> CallOk(s.core.db, s.calls[c])
  }

  lemma StepHonest(s: State, step: Step)
    requires CallsOk(s)
    ensures Honest(s.core.db, ActionOf(s, step))
  {
  }

  lemma CallsStep(s: State, step: Step)
    requires CoreInv(s.core) && CallsOk(s)
    ensures CallsOk(Exec(s, step))
  {
    if Enabled(s, step) {
      var a, s' := ActionOf(s, step), Exec(s, step);
      var db, db' := s.core.db, Act(s.core, a).db;
      ActStable(s.core, a);
      forall c | 0 <= c < |s'.calls| ensures CallOk(db', s'.calls[c]) {
        if c < |s.calls| && s'.calls[c] == s.calls[c] {
          CallStable(db, db', s.calls[c]);
        } else if step.Advance? {
          NextCallOk(db, s.calls[c], step.env);
          CallStable(db, db', s'.calls[c]);
        } else if step.Arrive? {
          ArrivalOk(s, step.call);
        }
      }
    }
  }

  // ---- verdicts ----

  ghost predicate Justified(published: seq<Publication>, input: AuditInput) {
    exists p :: 0 <= p < |published| && Supports(published[p], input)
  }

  ghost predicate Sourced(published: seq<Publication>, e: VerdictEvent) {
    exists p :: 0 <= p < |published| && published[p].event == e
  }

  ghost predicate CallSourced(published: seq<Publication>, call: Call) {
    match call
    case Guard(req) => req.audit.None?
    case Consume(e) => Sourced(published, e) && (e.confidence.JNull? || e.confidence.JNumber?)
    case AutoFind(e) => Sourced(published, e) && e.eligible
    case ReviewRead(req) => req.audit.Some? ==> Justified(published, req.audit.value)
    case EntityCheck(req, _) => req.audit.Some? ==> Justified(published, req.audit.value)
    case ReviewCommit(req, _) => req.audit.Some? ==> Justified(published, req.audit.value)
    case _ => true
  }

  ghost predicate VerdictsOk(s: State) {
    && (forall p :: 0 <= p < |s.published| ==>
          s.published[p].event == BuildVerdictComputedEvent(s.published[p].event.ref, s.published[p].origin))
    && (forall c :: 0 <= c < |s.calls| ==> CallSourced(s.published, s.calls[c]))
    && (forall i :: 0 <= i < |s.core.db.audits| ==> Justified(s.published, s.core.db.audits[i].input))
  }

  lemma NextCallSourced(s: State, call: Call, env: Env)
    requires VerdictsOk(s) && CallSourced(s.published, call)
    ensures CallSourced(s.published, NextCall(s.core.db, call, env))
  {
  }

  lemma AuditsGrow(c: Core, a: Action)
    ensures var audits' := Act(c, a).db.audits;
            || audits' == c.db.audits
            || (a.Review? && a.audit.Some? && audits' == c.db.audits + [Audit(a.id, a.audit.value)])
  {
  }

  lemma VerdictsStep(s: State, step: Step)
    requires VerdictsOk(s)
    ensures VerdictsOk(Exec(s, step))
  {
    if Enabled(s, step) {
      var s' := Exec(s, step);
      AuditsGrow(s.core, ActionOf(s, step));
      if step.Analyse? {
        hide Supports;
        assert forall p :: 0 <= p < |s.published| ==> s'.published[p] == s.published[p];
      } else if step.Advance? {
        NextCallSourced(s, s.calls[step.c], step.env);
      }
    }
  }

  // ---- each acknowledgement and each decision is announced once ----

  /** What an announcement is about; a ticket is spent when it is created. */
  datatype Ticket = NoTicket | ForCreate(ref: Ref) | ForEdit(entry: Id) | ForDecision(entry: Id)

  function CallTicket(call: Call): Ticket {
    match call
    case AckCreate(ref) => ForCreate(ref)
    case AckEdit(_, entry) => ForEdit(entry)
    case Announce(_, entry, _) => ForDecision(entry)
    case _ => NoTicket
  }

  function MessageTicket(m: Message): Ticket {
    match m
    case Created(ref, resubmission) => if resubmission.None? then ForCreate(ref) else ForEdit(resubmission.value)
    case StatusChanged(_, entry, _) => ForDecision(entry)
    case _ => NoTicket
  }

  ghost predicate Spent(c: Core, t: Ticket) {
    match t
    case NoTicket => true
    case ForCreate(ref) => ref.eid < c.db.nextId
    case ForEdit(entry) => entry < c.db.nextId
    case ForDecision(entry) => EverDecided(c.log, entry)
  }

  ghost predicate DecisionLogged(log: seq<Event>, ref: Ref, entry: Id, status: Status) {
    exists k :: 0 <= k < |log| && log[k].Decided? && log[k].id == entry && log[k].ref == ref
                && status == Outcome(log[k].decision, log[k].escalated)
  }

  ghost predicate CallTrue(c: Core, call: Call) {
    match call
    case AckEdit(ref, entry) => ref.etype != Company && exists escalated :: EverOpened(c.log, entry, ref, escalated)
    case Announce(ref, entry, status) => DecisionLogged(c.log, ref, entry, status)
    case _ => true
  }

  ghost predicate MessageTrue(c: Core, m: Message) {
    match m
    case Created(ref, resubmission) =>
      resubmission.Some? ==> ref.etype != Company && exists escalated ::
          EverOpened(c.log, resubmission.value, ref, escalated)
    case StatusChanged(ref, entry, status) => DecisionLogged(c.log, ref, entry, status)
    case _ => true
  }

  ghost predicate TicketsOk(s: State) {
    && (forall i :: 0 <= i < |s.calls| ==> Spent(s.core, CallTicket(s.calls[i])))
    && (forall i :: 0 <= i < |s.outbox| ==> Spent(s.core, MessageTicket(s.outbox[i])))
    && (forall i, j :: 0 <= i < j < |s.calls| && CallTicket(s.calls[i]) != NoTicket ==>
          CallTicket(s.calls[i]) != CallTicket(s.calls[j]))
    && (forall i, j :: 0 <= i < j < |s.outbox| && MessageTicket(s.outbox[i]) != NoTicket ==>
          MessageTicket(s.outbox[i]) != MessageTicket(s.outbox[j]))
    && (forall i, j :: 0 <= i < |s.calls| && 0 <= j < |s.outbox| && CallTicket(s.calls[i]) != NoTicket ==>
          CallTicket(s.calls[i]) != MessageTicket(s.outbox[j]))
  }

  ghost predicate AnnouncementsTrue(s: State) {
    && (forall i :: 0 <= i < |s.calls| ==> CallTrue(s.core, s.calls[i]))
    && (forall i :: 0 <= i < |s.outbox| ==> MessageTrue(s.core, s.outbox[i]))
  }

  lemma LogStep(c: Core, a: Action)
    ensures Act(c, a).log == c.log || exists e :: Act(c, a).log == c.log + [e]
  {
  }

  lemma SpentStays(c: Core, a: Action, t: Ticket)
    requires Spent(c, t)
    ensures Spent(Act(c, a), t)
  {
    ActStable(c, a);
    DecidedStays(c, a);
  }

  lemma DecidedStays(c: Core, a: Action)
    ensures forall id :: EverDecided(c.log, id) ==> EverDecided(Act(c, a).log, id)
  {
    LogStep(c, a);
    if Act(c, a).log != c.log {
      var e :| Act(c, a).log == c.log + [e];
      forall id | EverDecided(c.log, id) ensures EverDecided(Act(c, a).log, id) { DecidedSnoc(c.log, e, id); }
    }
  }

  /** Winning a review decides an entry no earlier event decided. */
  lemma WinIsFirst(c: Core, req: Request, seen: Entry, env: Env)
    requires RowsMatch(c) && SeenOk(c.db, req.id, seen) && ReviewWins(c.db, req.id, seen.ref)
    ensures !EverDecided(c.log, req.id)
    ensures EverDecided(Act(c, CallAction(c.db, ReviewCommit(req, seen), env)).log, req.id)
  {
    var id := req.id;
    assert RowMatches(c.log, id, c.db.queue[id]);
    DecidedSnoc(c.log, Decided(id, c.db.queue[id].ref, req.decision, c.db.queue[id].escalated, req.actor), id);
  }

  /** The ticket a call holds after its step: none, or one that had not been spent before,
      and then the call held none. */
  lemma NextTicket(c: Core, call: Call, env: Env)
    requires RowsMatch(c) && CallOk(c.db, call)
    ensures var t' := CallTicket(NextCall(c.db, call, env));
            t' != NoTicket ==>
              && CallTicket(call) == NoTicket && !Spent(c, t')
              && Spent(Act(c, CallAction(c.db, call, env)), t')
  {
    if call.ReviewCommit? {
      if ReviewWins(c.db, call.req.id, call.seen.ref) { WinIsFirst(c, call.req, call.seen, env); }
    } else if call.EditCommit? {
    } else {
      assert CallTicket(NextCall(c.db, call, env)) == NoTicket;
    }
  }

  /** A step publishes at most one message, the one its call held the ticket for. */
  lemma EmittedTicket(c: Core, call: Call)
    ensures |Emitted(c.db, call)| <= 1
    ensures forall m :: m in Emitted(c.db, call) ==> MessageTicket(m) == CallTicket(call)
  {
  }

  lemma TicketsAdvance(s: State, step: Step)
    requires Inv(s) && step.Advance? && Enabled(s, step)
    ensures TicketsOk(Exec(s, step))
  {
    var s' := Exec(s, step);
    var c, a := step.c, ActionOf(s, step);
    var call := s.calls[c];
    NextTicket(s.core, call, step.env);
    EmittedTicket(s.core, call);
    forall i | 0 <= i < |s'.calls| ensures Spent(s'.core, CallTicket(s'.calls[i])) {
      if i != c { SpentStays(s.core, a, CallTicket(s.calls[i])); }
    }
    forall j | 0 <= j < |s'.outbox| ensures Spent(s'.core, MessageTicket(s'.outbox[j])) {
      if j < |s.outbox| { SpentStays(s.core, a, MessageTicket(s.outbox[j])); }
      else { assert s'.outbox[j] in Emitted(s.core.db, call); SpentStays(s.core, a, CallTicket(call)); }
    }
    forall i, j | 0 <= i < j < |s'.calls| && CallTicket(s'.calls[i]) != NoTicket
      ensures CallTicket(s'.calls[i]) != CallTicket(s'.calls[j])
    {
      if i == c { assert Spent(s.core, CallTicket(s.calls[j])); }
      if j == c { assert Spent(s.core, CallTicket(s.calls[i])); }
    }
    OutboxAdvance(s, step);
  }

  lemma OutboxAdvance(s: State, step: Step)
    requires Inv(s) && step.Advance? && Enabled(s, step)
    ensures var s' := Exec(s, step);
      && (forall i, j :: 0 <= i < j < |s'.outbox| && MessageTicket(s'.outbox[i]) != NoTicket ==>
            MessageTicket(s'.outbox[i]) != MessageTicket(s'.outbox[j]))
      && (forall i, j :: 0 <= i < |s'.calls| && 0 <= j < |s'.outbox| && CallTicket(s'.calls[i]) != NoTicket ==>
            CallTicket(s'.calls[i]) != MessageTicket(s'.outbox[j]))
  {
    var s', c := Exec(s, step), step.c;
    var call := s.calls[c];
    NextTicket(s.core, call, step.env);
    EmittedTicket(s.core, call);
    forall j | |s.outbox| <= j < |s'.outbox|
      ensures MessageTicket(s'.outbox[j]) == CallTicket(call) && j == |s.outbox|
    {
      assert s'.outbox[j] in Emitted(s.core.db, call);
    }
    forall i, j | 0 <= i < |s'.calls| && 0 <= j < |s'.outbox| && CallTicket(s'.calls[i]) != NoTicket
      ensures CallTicket(s'.calls[i]) != MessageTicket(s'.outbox[j])
    {
      if i == c && j < |s.outbox| { assert Spent(s.core, MessageTicket(s.outbox[j])); }
      if i == c && j >= |s.outbox| { assert CallTicket(call) == NoTicket; }
    }
  }

  lemma TicketsStep(s: State, step: Step)
    requires Inv(s)
    ensures TicketsOk(Exec(s, step))
  {
    if Enabled(s, step) {
      if step.Advance? {
        TicketsAdvance(s, step);
      } else {
        var s', a := Exec(s, step), ActionOf(s, step);
        forall i | 0 <= i < |s.calls| ensures Spent(s'.core, CallTicket(s.calls[i])) {
          SpentStays(s.core, a, CallTicket(s.calls[i]));
        }
        forall j | 0 <= j < |s.outbox| ensures Spent(s'.core, MessageTicket(s.outbox[j])) {
          SpentStays(s.core, a, MessageTicket(s.outbox[j]));
        }
        if step.SubmitNew? {
          assert !Spent(s.core, CallTicket(s'.calls[|s.calls|]));
        }
      }
    }
  }

  // ---- announcements say what happened ----

  lemma TrueStays(c: Core, a: Action, call: Call, m: Message)
    ensures CallTrue(c, call) ==> CallTrue(Act(c, a), call)
    ensures MessageTrue(c, m) ==> MessageTrue(Act(c, a), m)
  {
    LogStep(c, a);
    if Act(c, a).log != c.log {
      var e :| Act(c, a).log == c.log + [e];
      assert forall k :: 0 <= k < |c.log| ==> (c.log + [e])[k] == c.log[k];
      assert forall id, ref, escalated :: EverOpened(c.log, id, ref, escalated) ==>
          EverOpened(c.log + [e], id, ref, escalated);
    }
  }

  lemma NextCallTrue(c: Core, call: Call, env: Env)
    requires CallOk(c.db, call) && CallTrue(c, call)
    ensures CallTrue(Act(c, CallAction(c.db, call, env)), NextCall(c.db, call, env))
    ensures forall m :: m in Emitted(c.db, call) ==> MessageTrue(c, m)
  {
    var c' := Act(c, CallAction(c.db, call, env));
    match call
    case EditCommit(ref, _, content, at) =>
      if Landing(c.db, ref, at).Some? {
        assert c'.log[|c.log|]
               == Opened(c.db.nextId, ref, Escalates(c.db.queue, ref), Landing(c.db, ref, at) == Some(ref));
        assert EverOpened(c'.log, c.db.nextId, ref, Escalates(c.db.queue, ref));
      }
    case ReviewCommit(req, seen) =>
      if ReviewWins(c.db, req.id, seen.ref) {
        assert c'.log[|c.log|] == Decided(req.id, seen.ref, req.decision, seen.escalated, req.actor);
      }
    case _ =>
  }

  lemma AnnouncementsStep(s: State, step: Step)
    requires Inv(s)
    ensures AnnouncementsTrue(Exec(s, step))
  {
    if Enabled(s, step) {
      var s', a := Exec(s, step), ActionOf(s, step);
      if step.Advance? { NextCallTrue(s.core, s.calls[step.c], step.env); }
      forall i | 0 <= i < |s'.calls| ensures CallTrue(s'.core, s'.calls[i]) {
        if i < |s.calls| && s'.calls[i] == s.calls[i] { TrueStays(s.core, a, s.calls[i], SlaBreach(0)); }
      }
      forall j | 0 <= j < |s'.outbox| ensures MessageTrue(s'.core, s'.outbox[j]) {
        TrueStays(s.core, a, Done, s'.outbox[j]);
        if j >= |s.outbox| { assert s'.outbox[j] in Emitted(s.core.db, s.calls[step.c]); }
      }
    }
  }

  // ---- the invariant ----

  ghost predicate Inv(s: State) {
    CoreInv(s.core) && CallsOk(s) && VerdictsOk(s) && TicketsOk(s) && AnnouncementsTrue(s)
  }

  lemma ExecCore(s: State, step: Step)
    ensures Exec(s, step).core == if Enabled(s, step) then Act(s.core, ActionOf(s, step)) else s.core
  {
  }

  lemma {:induction false} InvStep(s: State, step: Step)
    requires Inv(s)
    ensures Inv(Exec(s, step))
  {
    hide CoreInv, CallsOk, VerdictsOk, TicketsOk, AnnouncementsTrue, Exec, Honest;
    StepHonest(s, step);
    CoreStep(s.core, ActionOf(s, step));
    ExecCore(s, step);
    CallsStep(s, step);
    VerdictsStep(s, step);
    TicketsStep(s, step);
    AnnouncementsStep(s, step);
  }

  /** Every state of every run satisfies the invariant. */
  lemma {:induction false} RunInv(steps: seq<Step>)
    ensures Inv(Run(steps))
  {
    if steps != [] {
      RunInv(steps[..|steps| - 1]);
      InvStep(Run(steps[..|steps| - 1]), steps[|steps| - 1]);
    }
  }

  // ---- the parts of the invariant, one at a time ----

  lemma RunExplained(steps: seq<Step>)
    ensures Fresh(Run(steps).core) && AllExplained(Run(steps).core.db)
  {
    RunInv(steps);
  }

  lemma RunLog(steps: seq<Step>)
    ensures LogOk(Run(steps).core.log)
  {
    RunInv(steps);
  }

  lemma RunRows(steps: seq<Step>)
    ensures RowsMatch(Run(steps).core)
  {
    RunInv(steps);
  }

  lemma RunTickets(steps: seq<Step>)
    ensures TicketsOk(Run(steps))
  {
    RunInv(steps);
  }

  lemma RunCalls(steps: seq<Step>)
    ensures Fresh(Run(steps).core) && CallsOk(Run(steps))
  {
    RunInv(steps);
  }

  lemma RunHonest(steps: seq<Step>, step: Step)
    ensures Honest(Run(steps).core.db, ActionOf(Run(steps), step))
  {
    RunInv(steps);
    StepHonest(Run(steps), step);
  }
}
