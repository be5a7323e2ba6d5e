/**
 What the transactions keep, whatever their order: only an entity's newest queue entry can be
 open, and unless the entity is pending that entry explains its status. As long as no edit of
 another review lands on it, the newest entry explains a pending status and the content too.
 */
module Lifecycle {
  import opened Wrappers
  import opened Queue

  /** Every id in use was handed out earlier. */
  ghost predicate Fresh(c: Core) {
    && (forall id :: id in c.db.queue ==> id < c.db.nextId && c.db.queue[id].ref.eid < c.db.nextId)
    && (forall ref :: ref in c.db.entities ==> ref.eid < c.db.nextId)
    && (forall p :: p in c.db.reviewAt ==>
        c.db.reviewAt[p].eid < c.db.nextId && c.db.reviewAt[p].etype == OverallReview)
    && (forall k :: 0 <= k < |c.log| ==> c.log[k].id < c.db.nextId)
  }

  /** What a caller of a transaction has established before issuing it. */
  ghost predicate Honest(db: Db, a: Action) {
    match a
    case Review(id, ref, decision, status, _, actor, audit) =>
      && (id in db.queue ==>
            && db.queue[id].ref == ref
            && status == Outcome(decision, db.queue[id].escalated)
            && (db.queue[id].escalated && decision != Flag ==> actor.Admin?)
            && (audit.Some? ==> audit.value.ref == ref))
      && (audit.Some? <==> actor.AutoApproval?)
      && (audit.Some? ==> decision == Approve)
    case DropOrphan(id) => id in db.queue ==> db.queue[id].ref !in db.entities
    case Overwrite(_, seen, _, _) => seen.eid < db.nextId && seen !in db.entities && seen.etype == OverallReview
    case RemoveOther(_, seen) => seen !in db.entities && seen.etype == OverallReview
    case _ => true
  }

  /** An edit of another review rewrites `ref`. */
  predicate Overwrites(a: Action, ref: Ref) {
    a.Overwrite? && a.target == ref
  }

  function StatusOf(e: Entry): Status {
    if e.decision.None? then Pending else Outcome(e.decision.value, e.escalated)
  }

  /** Entry `n` is the newest of entity `ref`, everything older is decided, and `n` explains a
      status other than pending; when `full`, it explains any status and the content as well. */
  ghost predicate ExplainedBy(full: bool, e: Entity, q: map<Id, Entry>, ref: Ref, n: Id) {
    && n in q && q[n].ref == ref
    && (forall j :: j in q && q[j].ref == ref ==> j <= n && (j != n ==> q[j].decision.Some?))
    && (e.status == StatusOf(q[n]) || (!full && e.status == Pending))
    && (full ==> q[n].content == e.content)
  }

  ghost predicate Explained(full: bool, e: Entity, q: map<Id, Entry>, ref: Ref) {
    exists n :: ExplainedBy(full, e, q, ref, n)
  }

  /** `ref`, if it is there, is explained. */
  ghost predicate ExplainedIn(full: bool, db: Db, ref: Ref) {
    ref in db.entities ==> Explained(full, db.entities[ref], db.queue, ref)
  }

  ghost predicate AllExplained(db: Db) {
    forall ref :: ref in db.entities ==> Explained(false, db.entities[ref], db.queue, ref)
  }

  lemma FreshStep(c: Core, a: Action)
    requires Fresh(c) && (a.Overwrite? ==> a.seen.eid < c.db.nextId)
    ensures Fresh(Act(c, a))
    ensures c.db.nextId <= Act(c, a).db.nextId
  {
    hide Escalates, CanRemove;
  }

  lemma SubmitExplained(full: bool, db: Db, a: Action, r: Ref)
    requires Fresh(Core(db, [])) && ExplainedIn(full, db, r) && a.Submit?
    ensures ExplainedIn(full, SubmitTx(db, a.etype, a.owner, a.content, a.flag, a.deadline, a.at), r)
  {
    var db' := SubmitTx(db, a.etype, a.owner, a.content, a.flag, a.deadline, a.at);
    if r in db'.entities {
      var n: Id;
      if r == Ref(a.etype, db.nextId) {
        n := db.nextId + 1;
      } else {
        n :| ExplainedBy(full, db.entities[r], db.queue, r, n);
      }
      assert ExplainedBy(full, db'.entities[r], db'.queue, r, n);
    }
  }

  lemma ResubmitExplained(full: bool, db: Db, ref: Ref, content: Content, deadline: int, r: Ref)
    requires Fresh(Core(db, [])) && ExplainedIn(full, db, r) && ref in db.entities
    ensures ExplainedIn(full, EditTx(db, ref, ref, content, deadline), r)
  {
    var db' := EditTx(db, ref, ref, content, deadline);
    if r in db'.entities {
      var n: Id;
      if r == ref {
        n := db.nextId;
      } else {
        n :| ExplainedBy(full, db.entities[r], db.queue, r, n);
      }
      assert ExplainedBy(full, db'.entities[r], db'.queue, r, n);
    }
  }

  /** An edit of another review leaves the entries of `r` alone; only a rewritten `r` loses
      more than a non-pending status. */
  lemma OverwriteExplained(full: bool, db: Db, target: Ref, seen: Ref, content: Content, deadline: int, r: Ref)
    requires Fresh(Core(db, [])) && ExplainedIn(full, db, r) && target in db.entities && seen !in db.entities
    requires r == target ==> !full
    ensures ExplainedIn(full, EditTx(db, target, seen, content, deadline), r)
  {
    var db' := EditTx(db, target, seen, content, deadline);
    if r in db'.entities {
      var n :| ExplainedBy(full, db.entities[r], db.queue, r, n);
      assert ExplainedBy(full, db'.entities[r], db'.queue, r, n);
    }
  }

  lemma RemoveExplained(full: bool, db: Db, db': Db, r: Ref)
    requires ExplainedIn(full, db, r)
    requires db'.entities.Keys <= db.entities.Keys
    requires forall ref :: ref in db'.entities ==> db'.entities[ref] == db.entities[ref]
    requires db'.queue.Keys <= db.queue.Keys && forall id :: id in db'.queue ==> db'.queue[id] == db.queue[id]
    requires forall id :: id in db.queue && id !in db'.queue ==> db.queue[id].ref !in db'.entities
    ensures ExplainedIn(full, db', r)
  {
    if r in db'.entities {
      var n :| ExplainedBy(full, db.entities[r], db.queue, r, n);
      assert ExplainedBy(full, db'.entities[r], db'.queue, r, n);
    }
  }

  lemma ReviewExplained(full: bool, db: Db, a: Action, r: Ref)
    requires ExplainedIn(full, db, r) && a.Review? && Honest(db, a) && ReviewWins(db, a.id, a.ref)
    ensures ExplainedIn(full, ReviewTx(db, a.id, a.ref, a.decision, a.status, a.flag, a.audit), r)
  {
    var db' := ReviewTx(db, a.id, a.ref, a.decision, a.status, a.flag, a.audit);
    if r in db'.entities {
      var n :| ExplainedBy(full, db.entities[r], db.queue, r, n);
      assert r == a.ref ==> n == a.id;
      assert ExplainedBy(full, db'.entities[r], db'.queue, r, n);
    }
  }

  /** Only claims, stamps, verdicts and the id counter differ. */
  ghost predicate SameSubstance(db: Db, db': Db) {
    && db'.queue.Keys == db.queue.Keys
    && (forall id :: id in db.queue ==>
          && db'.queue[id].ref == db.queue[id].ref
          && db'.queue[id].content == db.queue[id].content
          && db'.queue[id].escalated == db.queue[id].escalated
          && db'.queue[id].decision == db.queue[id].decision)
    && db'.entities.Keys == db.entities.Keys
    && (forall r :: r in db.entities ==>
          db'.entities[r].status == db.entities[r].status && db'.entities[r].content == db.entities[r].content)
    && db'.audits == db.audits
  }

  predicate Annotates(a: Action) {
    a.Claim? || a.Release? || a.StampWarned? || a.StampBreached? || a.StoreVerdict? || a.Name? || a.Skip?
  }

  lemma SetEntryKeepsSubstance(db: Db, id: Id, e: Entry)
    requires id in db.queue
    requires var was := db.queue[id];
      e.ref == was.ref && e.content == was.content && e.escalated == was.escalated && e.decision == was.decision
    ensures SameSubstance(db, SetEntry(db, id, e))
  {
  }

  lemma NothingChanged(db: Db)
    ensures SameSubstance(db, db)
  {
  }

  lemma ClaimKeepsSubstance(c: Core, id: Id, who: Person)
    ensures SameSubstance(c.db, Act(c, Claim(id, who)).db)
  {
    hide SameSubstance, SetEntry;
    NothingChanged(c.db);
    if ClaimWins(c.db, id) { SetEntryKeepsSubstance(c.db, id, c.db.queue[id].(claimedBy := Some(who))); }
  }

  lemma ReleaseKeepsSubstance(c: Core, id: Id, who: Person)
    ensures SameSubstance(c.db, Act(c, Release(id, who)).db)
  {
    hide SameSubstance, SetEntry;
    NothingChanged(c.db);
    if ReleaseWins(c.db, id, who) { SetEntryKeepsSubstance(c.db, id, c.db.queue[id].(claimedBy := None)); }
  }

  lemma StampKeepsSubstance(c: Core, a: Action)
    requires a.StampWarned? || a.StampBreached?
    ensures SameSubstance(c.db, Act(c, a).db)
  {
    hide SameSubstance, SetEntry;
    NothingChanged(c.db);
    if a.id in c.db.queue {
      SetEntryKeepsSubstance(c.db, a.id, c.db.queue[a.id].(warned := true));
      SetEntryKeepsSubstance(c.db, a.id, c.db.queue[a.id].(breached := true));
    }
  }

  lemma RestKeepsSubstance(c: Core, a: Action)
    requires a.StoreVerdict? || a.Name? || a.Skip?
    ensures SameSubstance(c.db, Act(c, a).db)
  {
  }

  lemma AnnotateKeepsSubstance(c: Core, a: Action)
    requires Annotates(a)
    ensures SameSubstance(c.db, Act(c, a).db)
  {
    hide SameSubstance, SetEntry;
    match a
    case Claim(id, who) => ClaimKeepsSubstance(c, id, who);
    case Release(id, who) => ReleaseKeepsSubstance(c, id, who);
    case StampWarned(_) => StampKeepsSubstance(c, a);
    case StampBreached(_) => StampKeepsSubstance(c, a);
    case _ => RestKeepsSubstance(c, a);
  }

  lemma SubstanceExplained(full: bool, db: Db, db': Db, r: Ref)
    requires ExplainedIn(full, db, r) && SameSubstance(db, db')
    ensures ExplainedIn(full, db', r)
  {
    if r in db'.entities {
      var n :| ExplainedBy(full, db.entities[r], db.queue, r, n);
      assert ExplainedBy(full, db'.entities[r], db'.queue, r, n);
    }
  }

  /** No action costs an entity its explanation, except that a foreign edit reduces a full one. */
  lemma {:induction false} ExplainedStep(full: bool, c: Core, a: Action, r: Ref)
    requires Fresh(c) && ExplainedIn(full, c.db, r) && Honest(c.db, a)
    requires full ==> !Overwrites(a, r)
    ensures ExplainedIn(full, Act(c, a).db, r)
  {
    hide ExplainedIn, CanRemove, Escalates;
    var db, db' := c.db, Act(c, a).db;
    match a
    case Submit(_, _, _, _, _, at) => if Vacant(db, a.etype, at) { SubmitExplained(full, db, a, r); }
    case Resubmit(ref, content, deadline) =>
      if ref in db.entities { ResubmitExplained(full, db, ref, content, deadline, r); }
    case Overwrite(target, seen, content, deadline) =>
      if target in db.entities { OverwriteExplained(full, db, target, seen, content, deadline, r); }
    case Remove(_) => RemoveExplained(full, db, db', r);
    case RemoveOther(_, _) => RemoveExplained(full, db, db', r);
    case RawDelete(_) => RemoveExplained(full, db, db', r);
    case DropOrphan(_) => RemoveExplained(full, db, db', r);
    case Review(id, ref, _, _, _, _, _) =>
      if ReviewWins(db, id, ref) { ReviewExplained(full, db, a, r); }
    case _ =>
      AnnotateKeepsSubstance(c, a);
      SubstanceExplained(full, db, db', r);
  }

  lemma AllExplainedStep(c: Core, a: Action)
    requires Fresh(c) && AllExplained(c.db) && Honest(c.db, a)
    ensures AllExplained(Act(c, a).db)
  {
    hide Act, Honest, Fresh, Explained;
    forall r | r in Act(c, a).db.entities ensures Explained(false, Act(c, a).db.entities[r], Act(c, a).db.queue, r) {
      assert ExplainedIn(false, c.db, r);
      ExplainedStep(false, c, a, r);
    }
  }

  // ---- what it means for a reader ----

  ghost predicate Newest(t: map<Id, Entry>, n: Id) {
    n in t && forall j :: j in t ==> j <= n
  }

  /** The status rule, said without naming a witness. */
  ghost predicate StatusRule(e: Entity, t: map<Id, Entry>) {
    && (forall i, j :: i in t && j in t && t[i].decision.None? && t[j].decision.None? ==> i == j)
    && (e.status == Pending <==> exists i :: i in t && t[i].decision.None?)
    && (exists n :: Newest(t, n))
    && (forall n :: Newest(t, n) ==> e.content == t[n].content)
    && (forall n :: Newest(t, n) && t[n].decision.Some? ==>
          e.status == if t[n].decision == Some(Reject) && t[n].escalated then PermanentlyRejected
                      else match t[n].decision.value
                           case Approve => Approved case Reject => Rejected case Flag => Flagged)
  }

  /** The rule is what a full explanation means. */
  lemma {:induction false} RuleIffExplained(e: Entity, q: map<Id, Entry>, ref: Ref)
    ensures StatusRule(e, Thread(q, ref)) <==> Explained(true, e, q, ref)
  {
    var t := Thread(q, ref);
    assert forall j :: j in t <==> j in q && q[j].ref == ref;
    if Explained(true, e, q, ref) {
      var n :| ExplainedBy(true, e, q, ref, n);
      assert n in t && Newest(t, n);
      assert forall m :: Newest(t, m) ==> m == n;
    }
    if StatusRule(e, t) {
      var n :| Newest(t, n);
      assert ExplainedBy(true, e, q, ref, n);
    }
  }

  /** What survives even an edit of another review: one open entry at most, and then the entity
      is pending; and a status other than pending comes from the newest entry. */
  ghost predicate LooseRule(e: Entity, t: map<Id, Entry>) {
    && (forall i, j :: i in t && j in t && t[i].decision.None? && t[j].decision.None? ==> i == j)
    && ((exists i :: i in t && t[i].decision.None?) ==> e.status == Pending)
    && (exists n :: Newest(t, n))
    && (forall n :: Newest(t, n) && e.status != Pending ==> t[n].decision.Some? && e.status == StatusOf(t[n]))
  }

  lemma ExplainedMeansLooseRule(e: Entity, q: map<Id, Entry>, ref: Ref)
    requires Explained(false, e, q, ref)
    ensures LooseRule(e, Thread(q, ref))
  {
    var t := Thread(q, ref);
    var n :| ExplainedBy(false, e, q, ref, n);
    assert n in t && Newest(t, n);
    assert forall m :: Newest(t, m) ==> m == n;
  }

  /** A candidate's delete goes through exactly when the entity exists and none of its entries
      was ever auto-approved: the audit table's foreign key refuses the rest. */
  lemma {:induction false} DeleteSucceedsIff(db: Db, ref: Ref)
    requires forall i :: 0 <= i < |db.audits| ==> db.audits[i].entry in db.queue
    ensures (ref !in Act(Core(db, []), Remove(ref)).db.entities && ref in db.entities)
            <==> (ref in db.entities && forall id :: id in Thread(db.queue, ref) ==> !Audited(db, id))
  {
    assert forall id :: id in Thread(db.queue, ref) <==> id in db.queue && db.queue[id].ref == ref;
  }
}
