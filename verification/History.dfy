/**
 What the log of committed events records: escalation, decisions, claims and auto-approval
 audits, each tied to the tables it was written with.
 */
module History {
  import opened Wrappers
  import opened Queue
  import opened Lifecycle

  // ---- reading the log ----

  /** How many decisions about `ref` the log holds. */
  function Decisions(log: seq<Event>, ref: Ref): nat {
    if log == [] then 0 else
    var last := log[|log| - 1];
    Decisions(log[..|log| - 1], ref) + if last.Decided? && last.ref == ref then 1 else 0
  }

  ghost predicate EverDecided(log: seq<Event>, id: Id) {
    exists k :: 0 <= k < |log| && log[k].Decided? && log[k].id == id
  }

  ghost predicate DecidedAs(log: seq<Event>, id: Id, d: Decision) {
    exists k :: 0 <= k < |log| && log[k].Decided? && log[k].id == id && log[k].decision == d
  }

  ghost predicate EverOpened(log: seq<Event>, id: Id, ref: Ref, escalated: bool) {
    Opened(id, ref, escalated, true) in log || Opened(id, ref, escalated, false) in log
  }

  /** Who holds entry `id` after replaying its claims and releases. */
  function Holder(log: seq<Event>, id: Id): Option<Person> {
    if log == [] then None else
    var last := log[|log| - 1];
    if last.Claimed? && last.id == id then Some(last.who)
    else if last.Released? && last.id == id then None
    else Holder(log[..|log| - 1], id)
  }

  /** The entries the auto-approval actor decided, in order. */
  function AutoDecided(log: seq<Event>): seq<Id> {
    if log == [] then [] else
    var last := log[|log| - 1];
    AutoDecided(log[..|log| - 1]) + if last.Decided? && last.actor.AutoApproval? then [last.id] else []
  }

  function AuditedIds(audits: seq<Audit>): seq<Id> {
    seq(|audits|, i requires 0 <= i < |audits| => audits[i].entry)
  }

  lemma DecisionsGrow(log: seq<Event>, i: nat, j: nat, ref: Ref)
    requires i <= j <= |log|
    ensures Decisions(log[..i], ref) <= Decisions(log[..j], ref)
  {
    if i < j {
      assert log[..j][..j - 1] == log[..j - 1];
      DecisionsGrow(log, i, j - 1, ref);
    }
  }

  // ---- what every event must satisfy, given what came before ----

  ghost predicate EventOk(before: seq<Event>, e: Event) {
    match e
    case Opened(id, ref, escalated, live) =>
      && (live ==> (escalated <==> Decisions(before, ref) >= LIFETIME_RESUBMISSION_CAP))
      && (!live ==> ref.etype == OverallReview)
      && (forall k :: 0 <= k < |before| && before[k].Opened? ==> before[k].id < id)
    case Decided(id, ref, decision, escalated, actor) =>
      && EverOpened(before, id, ref, escalated)
      && !EverDecided(before, id)
      && (escalated && decision != Flag ==> actor.Admin?)
    case Claimed(id, who) => Holder(before, id) == None && !EverDecided(before, id)
    case Released(id, who) => Holder(before, id) == Some(who)
  }

  ghost predicate LogOk(log: seq<Event>) {
    forall k :: 0 <= k < |log| ==> EventOk(log[..k], log[k])
  }

  // ---- how the log explains the tables ----

  /** Everything the log says about entry `id` agrees with its row. */
  ghost predicate RowMatches(log: seq<Event>, id: Id, row: Entry) {
    && EverOpened(log, id, row.ref, row.escalated)
    && (row.decision.Some? <==> EverDecided(log, id))
    && (row.decision.Some? ==> DecidedAs(log, id, row.decision.value))
    && row.claimedBy == Holder(log, id)
  }

  ghost predicate RowsMatch(c: Core) {
    forall id :: id in c.db.queue ==> RowMatches(c.log, id, c.db.queue[id])
  }

  ghost predicate RefsFresh(c: Core) {
    forall k :: 0 <= k < |c.log| && (c.log[k].Opened? || c.log[k].Decided?) ==> c.log[k].ref.eid < c.db.nextId
  }

  ghost predicate CountsMatch(c: Core) {
    forall ref :: ref in c.db.entities ==> |ReviewedOf(c.db.queue, ref)| == Decisions(c.log, ref)
  }

  ghost predicate AuditOk(db: Db, a: Audit) {
    && a.entry in db.queue
    && db.queue[a.entry].decision == Some(Approve)
    && !db.queue[a.entry].escalated
    && db.queue[a.entry].ref == a.input.ref
  }

  ghost predicate AuditsMatch(c: Core) {
    && AuditedIds(c.db.audits) == AutoDecided(c.log)
    && (forall i :: 0 <= i < |c.db.audits| ==> AuditOk(c.db, c.db.audits[i]))
  }

  ghost predicate CoreInv(c: Core) {
    Fresh(c) && AllExplained(c.db) && Recorded(c)
  }

  ghost predicate Recorded(c: Core) {
    LogOk(c.log) && RefsFresh(c) && RowsMatch(c) && CountsMatch(c) && AuditsMatch(c)
  }

  // ---- one more event ----

  lemma SnocPrefix(log: seq<Event>, e: Event)
    ensures (log + [e])[..|log + [e]| - 1] == log && (log + [e])[|log + [e]| - 1] == e
  {
  }

  lemma DecidedSnoc(log: seq<Event>, e: Event, id: Id)
    ensures EverDecided(log + [e], id) <==> EverDecided(log, id) || (e.Decided? && e.id == id)
    ensures forall d :: DecidedAs(log, id, d) ==> DecidedAs(log + [e], id, d)
    ensures e.Decided? && e.id == id ==> DecidedAs(log + [e], id, e.decision)
  {
    var l := log + [e];
    forall d | DecidedAs(log, id, d) ensures DecidedAs(l, id, d) {
      var k :| 0 <= k < |log| && log[k].Decided? && log[k].id == id && log[k].decision == d;
      assert l[k] == log[k];
    }
    if EverDecided(log, id) {
      var k :| 0 <= k < |log| && log[k].Decided? && log[k].id == id;
      assert l[k] == log[k];
    }
    if e.Decided? && e.id == id { assert l[|log|].Decided? && l[|log|].id == id; }
  }

  lemma LogGrows(log: seq<Event>, e: Event)
    requires LogOk(log) && EventOk(log, e)
    ensures LogOk(log + [e])
  {
    forall k | 0 <= k < |log + [e]| ensures EventOk((log + [e])[..k], (log + [e])[k]) {
      assert (log + [e])[..k] == log[..k];
      if k == |log| { assert log[..k] == log; }
    }
  }

  /** An event about another entry leaves a row matched. */
  lemma RowFrame(log: seq<Event>, e: Event, id: Id, row: Entry)
    requires RowMatches(log, id, row) && e.id != id
    ensures RowMatches(log + [e], id, row)
  {
    SnocPrefix(log, e);
    DecidedSnoc(log, e, id);
  }

  lemma NoHolder(log: seq<Event>, id: Id)
    requires forall k :: 0 <= k < |log| ==> log[k].id != id
    ensures Holder(log, id) == None
  {
  }

  lemma NoDecisions(log: seq<Event>, ref: Ref)
    requires forall k :: 0 <= k < |log| && log[k].Decided? ==> log[k].ref != ref
    ensures Decisions(log, ref) == 0
  {
  }

  lemma RefsGrow(c: Core, c': Core, e: Event)
    requires RefsFresh(c) && c'.log == c.log + [e] && c.db.nextId <= c'.db.nextId
    requires e.Opened? || e.Decided? ==> e.ref.eid < c'.db.nextId
    ensures RefsFresh(c')
  {
  }

  /** An event that is not a decision changes no count and no audit. */
  lemma QuietEvent(log: seq<Event>, e: Event)
    requires !e.Decided?
    ensures forall ref :: Decisions(log + [e], ref) == Decisions(log, ref)
    ensures AutoDecided(log + [e]) == AutoDecided(log)
  {
  }

  lemma SameReviewed(q: map<Id, Entry>, q': map<Id, Entry>, r: Ref)
    requires forall id :: (id in q && q[id].ref == r && q[id].decision.Some?)
                          <==> (id in q' && q'[id].ref == r && q'[id].decision.Some?)
    ensures ReviewedOf(q, r) == ReviewedOf(q', r)
  {
  }

  lemma AuditsKept(db: Db, db': Db)
    requires db'.audits == db.audits
    requires forall i :: 0 <= i < |db.audits| ==> AuditOk(db, db.audits[i])
    requires forall id :: id in db.queue && Audited(db, id) ==>
      && id in db'.queue && db'.queue[id].decision == db.queue[id].decision
      && db'.queue[id].escalated == db.queue[id].escalated && db'.queue[id].ref == db.queue[id].ref
    ensures forall i :: 0 <= i < |db'.audits| ==> AuditOk(db', db'.audits[i])
  {
  }

  // ---- opening an entry ----

  /** The queue gained the entry `e` opens and lost only undecided entries. */
  ghost predicate Opens(c: Core, db': Db, e: Event) {
    && e.Opened? && c.db.nextId <= e.id < db'.nextId && e.ref.eid < db'.nextId
    && e.id in db'.queue
    && db'.queue[e.id].ref == e.ref && db'.queue[e.id].escalated == e.escalated
    && db'.queue[e.id].decision.None? && db'.queue[e.id].claimedBy.None?
    && (forall id :: id in db'.queue && id != e.id ==> id in c.db.queue && db'.queue[id] == c.db.queue[id])
    && (forall id :: id in c.db.queue && c.db.queue[id].decision.Some? ==> id in db'.queue)
    && (forall r :: r in db'.entities ==> r in c.db.entities || (r == e.ref && r.eid >= c.db.nextId))
    && db'.audits == c.db.audits
  }

  lemma OpenRows(c: Core, db': Db, e: Event)
    requires Fresh(c) && RowsMatch(c) && Opens(c, db', e)
    ensures RowsMatch(Core(db', c.log + [e]))
  {
    forall id | id in db'.queue ensures RowMatches(c.log + [e], id, db'.queue[id]) {
      if id == e.id {
        NoHolder(c.log, id);
        SnocPrefix(c.log, e);
        DecidedSnoc(c.log, e, id);
        assert (c.log + [e])[|c.log|] == e;
      } else {
        RowFrame(c.log, e, id, db'.queue[id]);
      }
    }
  }

  lemma OpenCounts(c: Core, db': Db, e: Event)
    requires Fresh(c) && CountsMatch(c) && RefsFresh(c) && Opens(c, db', e)
    ensures CountsMatch(Core(db', c.log + [e]))
  {
    QuietEvent(c.log, e);
    forall r | r in db'.entities ensures |ReviewedOf(db'.queue, r)| == Decisions(c.log, r) {
      SameReviewed(c.db.queue, db'.queue, r);
      if r !in c.db.entities {
        NoDecisions(c.log, r);
        assert ReviewedOf(c.db.queue, r) == {};
      }
    }
  }

  lemma OpenAudits(c: Core, db': Db, e: Event)
    requires Fresh(c) && AuditsMatch(c) && Opens(c, db', e)
    ensures AuditsMatch(Core(db', c.log + [e]))
  {
  }

  lemma OpenOk(c: Core, e: Event)
    requires Fresh(c) && CountsMatch(c) && RefsFresh(c) && e.Opened? && e.id >= c.db.nextId
    requires if e.live then e.ref in c.db.entities || e.ref.eid >= c.db.nextId else e.ref.etype == OverallReview
    requires e.live ==> e.escalated == (e.ref in c.db.entities && Escalates(c.db.queue, e.ref))
    ensures EventOk(c.log, e)
  {
    if e.live && e.ref !in c.db.entities { NoDecisions(c.log, e.ref); }
  }

  lemma OpenRecorded(c: Core, db': Db, e: Event)
    requires Fresh(c) && Recorded(c) && Opens(c, db', e) && EventOk(c.log, e)
    ensures Recorded(Core(db', c.log + [e]))
  {
    hide Fresh, LogOk, RowsMatch, CountsMatch, AuditsMatch, RefsFresh, EventOk;
    LogGrows(c.log, e);
    RefsGrow(c, Core(db', c.log + [e]), e);
    OpenRows(c, db', e);
    OpenCounts(c, db', e);
    OpenAudits(c, db', e);
  }

  lemma SubmitOpens(c: Core, a: Action)
    requires Fresh(c) && a.Submit?
    ensures Opens(c, SubmitTx(c.db, a.etype, a.owner, a.content, a.flag, a.deadline, a.at),
                  Opened(c.db.nextId + 1, Ref(a.etype, c.db.nextId), false, true))
  {
  }

  lemma EditOpens(c: Core, target: Ref, seen: Ref, content: Content, deadline: int, live: bool)
    requires Fresh(c) && target in c.db.entities && seen.eid < c.db.nextId
    ensures Opens(c, EditTx(c.db, target, seen, content, deadline),
                  Opened(c.db.nextId, seen, Escalates(c.db.queue, seen), live))
  {
    hide Escalates;
  }

  // ---- deciding an entry ----

  /** The row of `e` became decided and nothing else about the queue changed. */
  ghost predicate Decides(c: Core, db': Db, e: Event) {
    && e.Decided? && e.id in c.db.queue
    && c.db.queue[e.id].ref == e.ref && c.db.queue[e.id].escalated == e.escalated && c.db.queue[e.id].decision.None?
    && db'.queue.Keys == c.db.queue.Keys
    && (forall j :: j in db'.queue && j != e.id ==> db'.queue[j] == c.db.queue[j])
    && db'.queue[e.id].(flagReason := c.db.queue[e.id].flagReason) == c.db.queue[e.id].(decision := Some(e.decision))
    && db'.entities.Keys == c.db.entities.Keys
    && db'.nextId == c.db.nextId
  }

  lemma DecideRows(c: Core, db': Db, e: Event)
    requires RowsMatch(c) && Decides(c, db', e)
    ensures RowsMatch(Core(db', c.log + [e]))
  {
    forall j | j in db'.queue ensures RowMatches(c.log + [e], j, db'.queue[j]) {
      assert RowMatches(c.log, j, c.db.queue[j]);
      if j == e.id {
        SnocPrefix(c.log, e);
        DecidedSnoc(c.log, e, j);
      } else {
        RowFrame(c.log, e, j, db'.queue[j]);
      }
    }
  }

  lemma DecideCounts(c: Core, db': Db, e: Event)
    requires CountsMatch(c) && Decides(c, db', e)
    ensures CountsMatch(Core(db', c.log + [e]))
  {
    hide ReviewedOf;
    SnocPrefix(c.log, e);
    forall r | r in db'.entities ensures |ReviewedOf(db'.queue, r)| == Decisions(c.log + [e], r) {
      if r == e.ref {
        OneMoreReviewed(c, db', e);
      } else {
        SameReviewed(c.db.queue, db'.queue, r);
      }
    }
  }

  lemma OneMoreReviewed(c: Core, db': Db, e: Event)
    requires Decides(c, db', e)
    ensures |ReviewedOf(db'.queue, e.ref)| == |ReviewedOf(c.db.queue, e.ref)| + 1
  {
    assert ReviewedOf(db'.queue, e.ref) == ReviewedOf(c.db.queue, e.ref) + {e.id};
  }

  lemma DecideAudits(c: Core, db': Db, e: Event, audit: Option<AuditInput>)
    requires AuditsMatch(c) && Decides(c, db', e)
    requires audit.Some? <==> e.actor.AutoApproval?
    requires audit.Some? ==> e.decision == Approve && !e.escalated && audit.value.ref == e.ref
    requires db'.audits == if audit.Some? then c.db.audits + [Audit(e.id, audit.value)] else c.db.audits
    ensures AuditsMatch(Core(db', c.log + [e]))
  {
  }

  lemma DecideRecorded(c: Core, db': Db, e: Event, audit: Option<AuditInput>)
    requires Fresh(c) && Recorded(c) && Decides(c, db', e)
    requires e.escalated && e.decision != Flag ==> e.actor.Admin?
    requires audit.Some? <==> e.actor.AutoApproval?
    requires audit.Some? ==> e.decision == Approve && audit.value.ref == e.ref
    requires db'.audits == if audit.Some? then c.db.audits + [Audit(e.id, audit.value)] else c.db.audits
    ensures Recorded(Core(db', c.log + [e]))
  {
    hide LogOk, CountsMatch, AuditsMatch, RefsFresh;
    assert RowMatches(c.log, e.id, c.db.queue[e.id]);
    LogGrows(c.log, e);
    RefsGrow(c, Core(db', c.log + [e]), e);
    DecideRows(c, db', e);
    DecideCounts(c, db', e);
    DecideAudits(c, db', e, audit);
  }

  // ---- claims, releases, stamps ----

  lemma SubstanceCounts(c: Core, db': Db)
    requires CountsMatch(c) && AuditsMatch(c) && SameSubstance(c.db, db')
    ensures CountsMatch(c.(db := db')) && AuditsMatch(c.(db := db'))
  {
    forall r | r in db'.entities ensures |ReviewedOf(db'.queue, r)| == Decisions(c.log, r) {
      SameReviewed(c.db.queue, db'.queue, r);
    }
    AuditsKept(c.db, db');
  }

  lemma HolderRows(c: Core, id: Id, e: Event, row: Entry)
    requires RowsMatch(c) && id in c.db.queue && (e.Claimed? || e.Released?) && e.id == id
    requires row == c.db.queue[id].(claimedBy := if e.Claimed? then Some(e.who) else None)
    ensures RowsMatch(Core(SetEntry(c.db, id, row), c.log + [e]))
  {
    var db' := SetEntry(c.db, id, row);
    forall j | j in db'.queue ensures RowMatches(c.log + [e], j, db'.queue[j]) {
      assert RowMatches(c.log, j, c.db.queue[j]);
      if j == id {
        SnocPrefix(c.log, e);
        DecidedSnoc(c.log, e, id);
      } else {
        RowFrame(c.log, e, j, db'.queue[j]);
      }
    }
  }

  lemma QuietMatches(c: Core, e: Event)
    requires CountsMatch(c) && AuditsMatch(c) && !e.Decided?
    ensures CountsMatch(c.(log := c.log + [e])) && AuditsMatch(c.(log := c.log + [e]))
  {
  }

  lemma HolderRecorded(c: Core, id: Id, e: Event, row: Entry)
    requires Fresh(c) && Recorded(c) && id in c.db.queue && (e.Claimed? || e.Released?) && e.id == id
        && EventOk(c.log, e)
    requires row == c.db.queue[id].(claimedBy := if e.Claimed? then Some(e.who) else None)
    ensures Recorded(Core(SetEntry(c.db, id, row), c.log + [e]))
  {
    hide Fresh, LogOk, RowsMatch, CountsMatch, AuditsMatch, RefsFresh, EventOk;
    var db' := SetEntry(c.db, id, row);
    LogGrows(c.log, e);
    RefsGrow(c, Core(db', c.log + [e]), e);
    HolderRows(c, id, e, row);
    SubstanceCounts(c, db');
    QuietMatches(Core(db', c.log), e);
  }

  lemma StampRecorded(c: Core, a: Action)
    requires Recorded(c) && Annotates(a) && !a.Claim? && !a.Release?
    ensures Recorded(Act(c, a))
  {
    hide LogOk, CountsMatch, AuditsMatch, RefsFresh, RowsMatch, SameSubstance;
    AnnotateKeepsSubstance(c, a);
    StampRows(c, a);
    SubstanceCounts(c, Act(c, a).db);
  }

  lemma StampRows(c: Core, a: Action)
    requires Recorded(c) && Annotates(a) && !a.Claim? && !a.Release?
    ensures Act(c, a).log == c.log && RowsMatch(Act(c, a)) && RefsFresh(Act(c, a))
  {
    var db' := Act(c, a).db;
    forall id | id in db'.queue ensures RowMatches(c.log, id, db'.queue[id]) {
      assert RowMatches(c.log, id, c.db.queue[id]);
    }
  }

  // ---- deletions ----

  lemma RemovalRecorded(c: Core, db': Db)
    requires Recorded(c)
    requires db'.entities.Keys <= c.db.entities.Keys && db'.audits == c.db.audits && db'.nextId == c.db.nextId
    requires db'.queue.Keys <= c.db.queue.Keys && forall id :: id in db'.queue ==> db'.queue[id] == c.db.queue[id]
    requires forall id :: id in c.db.queue && id !in db'.queue ==>
        c.db.queue[id].ref !in db'.entities && !Audited(c.db, id)
    ensures Recorded(c.(db := db'))
  {
    forall r | r in db'.entities ensures |ReviewedOf(db'.queue, r)| == Decisions(c.log, r) {
      SameReviewed(c.db.queue, db'.queue, r);
    }
    AuditsKept(c.db, db');
  }

  lemma RemoveActions(c: Core, a: Action)
    requires Recorded(c) && Honest(c.db, a) && (a.Remove? || a.RemoveOther? || a.RawDelete? || a.DropOrphan?)
    ensures Recorded(Act(c, a))
  {
    hide LogOk, CountsMatch, AuditsMatch, RefsFresh, RowsMatch;
    RemovalRecorded(c, Act(c, a).db);
  }

  /** The core machine keeps its invariant under every action its callers may issue. */
  lemma {:induction false} CoreStep(c: Core, a: Action)
    requires CoreInv(c) && Honest(c.db, a)
    ensures CoreInv(Act(c, a))
  {
    hide Recorded, Fresh, AllExplained, Honest;
    HonestIsFresh(c, a);
    FreshStep(c, a);
    AllExplainedStep(c, a);
    RecordedStep(c, a);
  }

  lemma HonestIsFresh(c: Core, a: Action)
    requires Honest(c.db, a)
    ensures a.Overwrite? ==> a.seen.eid < c.db.nextId
  {
  }

  lemma RecordedStep(c: Core, a: Action)
    requires Fresh(c) && Recorded(c) && Honest(c.db, a)
    ensures Recorded(Act(c, a))
  {
    hide Recorded, Fresh;
    match a
    case Submit(_, _, _, _, _, _) => OpenStep(c, a);
    case Resubmit(_, _, _) => OpenStep(c, a);
    case Overwrite(_, _, _, _) => OpenStep(c, a);
    case Review(_, _, _, _, _, _, _) => DecideStep(c, a);
    case Claim(_, _) => HolderStep(c, a);
    case Release(_, _) => HolderStep(c, a);
    case Remove(_) => RemoveActions(c, a);
    case RemoveOther(_, _) => RemoveActions(c, a);
    case RawDelete(_) => RemoveActions(c, a);
    case DropOrphan(_) => RemoveActions(c, a);
    case _ => StampRecorded(c, a);
  }

  lemma OpenStep(c: Core, a: Action)
    requires Fresh(c) && Recorded(c) && Honest(c.db, a) && (a.Submit? || a.Resubmit? || a.Overwrite?)
    ensures Recorded(Act(c, a))
  {
    hide LogOk, RowsMatch, CountsMatch, AuditsMatch, RefsFresh, Opens, EventOk, Escalates;
    var db, db' := c.db, Act(c, a).db;
    if a.Submit? && Vacant(db, a.etype, a.at) {
      var e := Opened(db.nextId + 1, Ref(a.etype, db.nextId), false, true);
      SubmitOpens(c, a);
      OpenOk(c, e);
      OpenRecorded(c, db', e);
    } else if a.Resubmit? && a.ref in db.entities {
      var e := Opened(db.nextId, a.ref, Escalates(db.queue, a.ref), true);
      EditOpens(c, a.ref, a.ref, a.content, a.deadline, true);
      OpenOk(c, e);
      OpenRecorded(c, db', e);
    } else if a.Overwrite? && a.target in db.entities {
      var e := Opened(db.nextId, a.seen, Escalates(db.queue, a.seen), false);
      EditOpens(c, a.target, a.seen, a.content, a.deadline, false);
      OpenOk(c, e);
      OpenRecorded(c, db', e);
    }
  }

  lemma DecideStep(c: Core, a: Action)
    requires Fresh(c) && Recorded(c) && Honest(c.db, a) && a.Review?
    ensures Recorded(Act(c, a))
  {
    hide Fresh, LogOk, RowsMatch, CountsMatch, AuditsMatch, RefsFresh;
    if ReviewWins(c.db, a.id, a.ref) {
      DecideRecorded(c, Act(c, a).db, Decided(a.id, a.ref, a.decision, c.db.queue[a.id].escalated, a.actor), a.audit);
    }
  }

  lemma HolderStep(c: Core, a: Action)
    requires Fresh(c) && Recorded(c) && (a.Claim? || a.Release?)
    ensures Recorded(Act(c, a))
  {
    hide Fresh, LogOk, CountsMatch, AuditsMatch, RefsFresh;
    if a.Claim? && ClaimWins(c.db, a.id) {
      assert RowMatches(c.log, a.id, c.db.queue[a.id]);
      HolderRecorded(c, a.id, Claimed(a.id, a.who), c.db.queue[a.id].(claimedBy := Some(a.who)));
    } else if a.Release? && ReleaseWins(c.db, a.id, a.who) {
      assert RowMatches(c.log, a.id, c.db.queue[a.id]);
      HolderRecorded(c, a.id, Released(a.id, a.who), c.db.queue[a.id].(claimedBy := None));
    }
  }
}
