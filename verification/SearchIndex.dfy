/**
 The moderators' search index: a document per pending entity, written after each commit on a
 best-effort basis, repaired by the queue view, and never trusted by search itself. Each
 service call is atomic.
 */
module SearchIndex {
  import opened Wrappers
  import opened Queue
  import opened Lifecycle
  import opened Grouping
  import opened Listing

  /** The documents are keyed by entity. */
  datatype Desk = Desk(db: Db, docs: set<Ref>)

  const QUEUE_ENTRY_CAP := 500

  /** The entities with an entry waiting for review. */
  function PendingRefs(queue: map<Id, Entry>): set<Ref> {
    set id | id in queue && Waits(queue, id) :: queue[id].ref
  }

  predicate Waits(queue: map<Id, Entry>, id: Id) {
    id in queue && queue[id].decision.None?
  }

  /** The document writes that follow an action, if they reach the index. */
  function Reindexed(db: Db, a: Action, docs: set<Ref>): set<Ref> {
    match a
    case Submit(etype, _, _, _, _, at) => if Vacant(db, etype, at) then docs + {Ref(etype, db.nextId)} else docs
    case Resubmit(ref, _, _) => if ref in db.entities then docs + {ref} else docs
    case Remove(ref) => if CanRemove(db, ref) then docs - {ref} else docs
    case Review(id, ref, _, _, _, _, _) => if ReviewWins(db, id, ref) then docs - {ref} else docs
    case DropOrphan(id) => if id in db.queue && !Audited(db, id) then docs - {db.queue[id].ref} else docs
    case _ => docs
  }

  /** `landed` says whether the index could be written. A raw delete bypasses every service. */
  datatype Call = Does(action: Action, landed: bool)

  function Exec(d: Desk, c: Call): Desk {
    if !HonestNow(d.db, c.action) then d else
    Desk(Act(Core(d.db, []), c.action).db, if c.landed then Reindexed(d.db, c.action, d.docs) else d.docs)
  }

  /** What a service call establishes before its transaction, there being nobody to interfere.
      The row it writes is the row it read. */
  predicate HonestNow(db: Db, a: Action) {
    match a
    case Review(id, ref, decision, status, _, actor, audit) =>
      && id in db.queue && db.queue[id].ref == ref && ref in db.entities
      && status == Outcome(decision, db.queue[id].escalated)
      && (db.queue[id].escalated && decision != Flag ==> actor.Admin?)
      && (audit.Some? <==> actor.AutoApproval?)
      && (audit.Some? ==> audit.value.ref == ref && decision == Approve)
    case DropOrphan(id) => Waits(db.queue, id) && db.queue[id].ref !in db.entities
    case Overwrite(_, _, _, _) => false
    case RemoveOther(_, _) => false
    case _ => true
  }

  const Opening := Desk(EmptyDb, {})

  function Run(calls: seq<Call>): Desk {
    if calls == [] then Opening else Exec(Run(calls[..|calls| - 1]), calls[|calls| - 1])
  }

  // ---- exact while nothing is lost ----

  /** No two entries of one entity wait for review, whether or not the entity is still there. */
  ghost predicate OneOpen(queue: map<Id, Entry>) {
    forall i, j :: Waits(queue, i) && Waits(queue, j) && queue[i].ref == queue[j].ref ==> i == j
  }

  ghost predicate Sound(db: Db) {
    Fresh(Core(db, [])) && OneOpen(db.queue)
  }

  /** Nothing waits that did not wait before, except an entry `n` that is alone. */
  ghost predicate OnlyNew(q: map<Id, Entry>, q': map<Id, Entry>, n: Id) {
    forall id :: Waits(q', id) ==>
      && (id != n ==> Waits(q, id) && q[id].ref == q'[id].ref)
      && (Waits(q', n) && q'[id].ref == q'[n].ref ==> id == n)
  }

  lemma NewAlone(q: map<Id, Entry>, q': map<Id, Entry>, n: Id)
    requires OneOpen(q) && OnlyNew(q, q', n)
    ensures OneOpen(q')
  {
  }

  lemma EditWaits(db: Db, ref: Ref, content: Content, deadline: int)
    requires Fresh(Core(db, []))
    ensures OnlyNew(db.queue, Reopened(db, ref, content, deadline), db.nextId)
  {
    hide Escalates;
  }

  lemma OtherWaits(db: Db, a: Action)
    requires Fresh(Core(db, [])) && !a.Resubmit? && !a.Overwrite?
    ensures OnlyNew(db.queue, Act(Core(db, []), a).db.queue, if a.Submit? then db.nextId + 1 else db.nextId)
  {
    hide EditTx, CanRemove, AuditsBlock, Audited, Vacated, Vacant, Thread;
  }

  lemma OneOpenStep(db: Db, a: Action)
    requires Sound(db)
    ensures OneOpen(Act(Core(db, []), a).db.queue)
  {
    hide OneOpen, OnlyNew, Fresh, Reopened;
    var q' := Act(Core(db, []), a).db.queue;
    if a.Resubmit? {
      EditWaits(db, a.ref, a.content, a.deadline);
      if q' != db.queue { NewAlone(db.queue, q', db.nextId); }
    } else if a.Overwrite? {
      EditWaits(db, a.seen, a.content, a.deadline);
      if q' != db.queue { NewAlone(db.queue, q', db.nextId); }
    } else {
      OtherWaits(db, a);
      NewAlone(db.queue, q', if a.Submit? then db.nextId + 1 else db.nextId);
    }
  }

  lemma ExecSound(d: Desk, c: Call)
    requires Sound(d.db)
    ensures Sound(Exec(d, c).db)
  {
    hide OneOpen, Act;
    if HonestNow(d.db, c.action) {
      FreshStep(Core(d.db, []), c.action);
      OneOpenStep(d.db, c.action);
    }
  }

  lemma {:induction false} RunSound(calls: seq<Call>)
    ensures Sound(Run(calls).db)
  {
    if calls == [] {
    } else {
      hide Sound, Exec;
      RunSound(calls[..|calls| - 1]);
      ExecSound(Run(calls[..|calls| - 1]), calls[|calls| - 1]);
    }
  }

  /** `ref` has gained an entry that waits, nothing else has changed. */
  lemma PendingPlus(q: map<Id, Entry>, q': map<Id, Entry>, ref: Ref, added: Id)
    requires Waits(q', added) && q'[added].ref == ref
    requires forall id :: Waits(q', id) ==> q'[id].ref == ref || (Waits(q, id) && q[id].ref == q'[id].ref)
    requires forall id :: Waits(q, id) && q[id].ref != ref ==> Waits(q', id) && q'[id].ref == q[id].ref
    ensures PendingRefs(q') == PendingRefs(q) + {ref}
  {
  }

  /** `ref` has no entry left that waits, nothing else has changed. */
  lemma PendingMinus(q: map<Id, Entry>, q': map<Id, Entry>, ref: Ref)
    requires forall id :: Waits(q', id) ==> Waits(q, id) && q[id].ref == q'[id].ref && q[id].ref != ref
    requires forall id :: Waits(q, id) && q[id].ref != ref ==> Waits(q', id) && q'[id].ref == q[id].ref
    ensures PendingRefs(q') == PendingRefs(q) - {ref}
  {
  }

  lemma ReviewPending(db: Db, a: Action)
    requires Sound(db) && a.Review? && HonestNow(db, a) && ReviewWins(db, a.id, a.ref)
    ensures PendingRefs(Act(Core(db, []), a).db.queue) == PendingRefs(db.queue) - {a.ref}
  {
    hide Fresh, PendingRefs;
    PendingMinus(db.queue, ReviewTx(db, a.id, a.ref, a.decision, a.status, a.flag, a.audit).queue, a.ref);
  }

  lemma DropPending(db: Db, id: Id)
    requires Sound(db) && Waits(db.queue, id)
    ensures PendingRefs(db.queue - {id}) == PendingRefs(db.queue) - {db.queue[id].ref}
  {
    hide Fresh, PendingRefs;
    PendingMinus(db.queue, db.queue - {id}, db.queue[id].ref);
  }

  lemma SubmitPending(db: Db, a: Action)
    requires Sound(db) && a.Submit? && Vacant(db, a.etype, a.at)
    ensures PendingRefs(Act(Core(db, []), a).db.queue) == PendingRefs(db.queue) + {Ref(a.etype, db.nextId)}
  {
    hide OneOpen, PendingRefs;
    PendingPlus(db.queue, SubmitTx(db, a.etype, a.owner, a.content, a.flag, a.deadline, a.at).queue,
                Ref(a.etype, db.nextId), db.nextId + 1);
  }

  lemma ResubmitPending(db: Db, a: Action)
    requires Sound(db) && a.Resubmit? && a.ref in db.entities
    ensures PendingRefs(Act(Core(db, []), a).db.queue) == PendingRefs(db.queue) + {a.ref}
  {
    hide Escalates, OneOpen, PendingRefs;
    PendingPlus(db.queue, EditTx(db, a.ref, a.ref, a.content, a.deadline).queue, a.ref, db.nextId);
  }

  lemma RemovePending(db: Db, ref: Ref)
    ensures PendingRefs(RemoveTx(db, ref, ref).queue) == PendingRefs(db.queue) - {ref}
  {
    hide PendingRefs;
    PendingMinus(db.queue, RemoveTx(db, ref, ref).queue, ref);
  }

  lemma OtherPending(db: Db, a: Action)
    requires Annotates(a)
    ensures PendingRefs(Act(Core(db, []), a).db.queue) == PendingRefs(db.queue)
  {
    AnnotateKeepsSubstance(Core(db, []), a);
    hide Act;
  }

  lemma ExecPending(d: Desk, c: Call)
    requires Sound(d.db) && c.landed && d.docs == PendingRefs(d.db.queue)
    ensures Exec(d, c).docs == PendingRefs(Exec(d, c).db.queue)
  {
    hide PendingRefs, Sound, CanRemove, ReviewWins, Audited, Vacant;
    var a := c.action;
    if HonestNow(d.db, a) {
      match a
      case Submit(_, _, _, _, _, _) => if Vacant(d.db, a.etype, a.at) { SubmitPending(d.db, a); }
      case Resubmit(ref, _, _) => if ref in d.db.entities { ResubmitPending(d.db, a); }
      case Remove(ref) => if CanRemove(d.db, ref) { RemovePending(d.db, ref); }
      case Review(id, ref, _, _, _, _, _) => if ReviewWins(d.db, id, ref) { ReviewPending(d.db, a); }
      case DropOrphan(id) => DropPending(d.db, id);
      case RawDelete(_) =>
      case Overwrite(_, _, _, _) =>
      case RemoveOther(_, _) =>
      case _ => OtherPending(d.db, a);
    }
  }

  /** As long as every index write lands, the documents are exactly the entities that have an
      unreviewed entry, even when entities were erased behind the services' back. */
  lemma {:induction false} DocsArePending(calls: seq<Call>)
    requires forall i :: 0 <= i < |calls| ==> calls[i].landed
    ensures Run(calls).docs == PendingRefs(Run(calls).db.queue)
  {
    if calls == [] {
    } else {
      hide PendingRefs, Sound, Exec;
      DocsArePending(calls[..|calls| - 1]);
      RunSound(calls[..|calls| - 1]);
      ExecPending(Run(calls[..|calls| - 1]), calls[|calls| - 1]);
    }
  }

  // ---- repaired by the queue view ----

  /** The queue query without filters: the most urgent unreviewed entries, at most the cap. */
  ghost predicate QueueQuery(rows: seq<Row>, queue: map<Id, Entry>) {
    && (forall i :: 0 <= i < |rows| ==> var row := rows[i];
          row.id in queue && queue[row.id].decision.None? && queue[row.id].ref == row.ref
              && queue[row.id].slaDeadline == row.deadline)
    && (forall i, j :: 0 <= i < j < |rows| ==> rows[i].id != rows[j].id && rows[i].deadline <= rows[j].deadline)
    && |rows| <= QUEUE_ENTRY_CAP
    && (|rows| < QUEUE_ENTRY_CAP || |PendingIds(queue)| <= QUEUE_ENTRY_CAP ==>
          forall id :: id in PendingIds(queue) ==> exists i :: 0 <= i < |rows| && rows[i].id == id)
  }

  function PendingIds(queue: map<Id, Entry>): set<Id> {
    set id | id in queue && queue[id].decision.None?
  }

  /** The entities found by the lookups behind the view. */
  function FoundRefs(es: seq<Enriched>): set<Ref> {
    set i | 0 <= i < |es| && es[i].entity.Some? :: es[i].row.ref
  }

  function GoneRefs(rows: seq<Row>, process: map<Ref, Process>, failed: set<EntityType>): set<Ref> {
    set i | 0 <= i < |rows| && Gone(process, failed, rows[i]) :: rows[i].ref
  }

  class ModerationQueueSearchService {
    var docs: set<Ref>

    constructor (docs: set<Ref>)
      ensures this.docs == docs
    {
      this.docs := docs;
    }

    method IndexEntry(ref: Ref)
      modifies this
      ensures docs == old(docs) + {ref}
    {
      docs := docs + {ref};
    }

    method RemoveEntry(ref: Ref)
      modifies this
      ensures docs == old(docs) - {ref}
    {
      docs := docs - {ref};
    }

    /** The self-heal of `listPending`: index again every entry whose entity was found. */
    method Reindex(enriched: seq<Enriched>)
      modifies this
      ensures docs == old(docs) + FoundRefs(enriched)
    {
      for i := 0 to |enriched|
        invariant docs == old(docs) + set j | 0 <= j < i && enriched[j].entity.Some? :: enriched[j].row.ref
      {
        if enriched[i].entity.Some? {
          IndexEntry(enriched[i].row.ref);
        }
      }
    }

    /** What `enrichEntries` does to the index: the documents of the dropped entries go. */
    method RemoveGone(rows: seq<Row>, process: map<Ref, Process>, failed: set<EntityType>)
      modifies this
      ensures docs == old(docs) - GoneRefs(rows, process, failed)
    {
      for i := 0 to |rows|
        invariant docs == old(docs) - set j | 0 <= j < i && Gone(process, failed, rows[j]) :: rows[j].ref
      {
        if Gone(process, failed, rows[i]) {
          RemoveEntry(rows[i].ref);
        }
      }
    }

    /** What one load of the queue does to the index. */
    method Load(rows: seq<Row>, process: map<Ref, Process>, failed: set<EntityType>, enriched: seq<Enriched>)
      modifies this
      ensures docs == old(docs) - GoneRefs(rows, process, failed) + FoundRefs(enriched)
    {
      RemoveGone(rows, process, failed);
      Reindex(enriched);
    }

    /** `search` after its lookups: put the entries back into the order of the hits. */
    method InHitOrder(hits: seq<Ref>, enriched: seq<Enriched>) returns (found: seq<Enriched>)
      ensures found == Sorted(enriched, hits)
    {
      found := [];
      for i := 0 to |enriched|
        invariant found == Sorted(enriched[..i], hits)
      {
        assert enriched[..i + 1][..i] == enriched[..i];
        found := Insert(found, enriched[i], hits);
      }
      assert enriched[..|enriched|] == enriched;
    }
  }

  /** What one load of the unfiltered queue leaves, of at most 500 pending entries, after any
      loss of index writes, any erasure and any failed fetches. Among the types whose fetch
      worked: no pending entry whose entity is gone, and a document of every one left, with no
      other document if no stale one was there before. A type whose fetch failed keeps its pending
      entries and exactly the documents it had. */
  lemma {:induction false} QueueViewRestoresDocs(calls: seq<Call>, rows: seq<Row>, process: map<Ref, Process>,
        failed: set<EntityType>, reviewed: seq<Reviewed>)
    requires var db := Run(calls).db;
      && process.Keys == db.entities.Keys
      && QueueQuery(rows, db.queue) && |PendingIds(db.queue)| <= 500
    ensures var d := Run(calls);
      var queue' := d.db.queue - GoneIds(rows, process, failed);
      var docs' := d.docs - GoneRefs(rows, process, failed) + FoundRefs(Enrich(rows, process, failed, reviewed));
      && (forall id :: Waits(queue', id) && queue'[id].ref.etype !in failed ==> queue'[id].ref in d.db.entities)
      && (forall ref :: ref in PendingRefs(queue') && ref.etype !in failed ==> ref in docs')
      && (d.docs <= PendingRefs(d.db.queue) ==>
            forall ref: Ref :: ref.etype !in failed ==> (ref in docs' <==> ref in PendingRefs(queue')))
      && (forall ref: Ref :: ref.etype in failed ==>
            && (ref in docs' <==> ref in d.docs)
            && (ref in PendingRefs(queue') <==> ref in PendingRefs(d.db.queue)))
  {
    var queue := Run(calls).db.queue;
    hide Run, Enrich, GoneIds;
    forall id: Id | Waits(queue, id)
      ensures exists i :: 0 <= i < |rows| && rows[i].id == id && rows[i].ref == queue[id].ref
    {
      assert id in PendingIds(queue);
    }
    forall i: nat | i < |rows|
      ensures Waits(queue, rows[i].id) && queue[rows[i].id].ref == rows[i].ref
      ensures rows[i].id in GoneIds(rows, process, failed) <==> Gone(process, failed, rows[i])
      ensures Found(process, failed, rows[i]).Some? ==>
        rows[i].ref in FoundRefs(Enrich(rows, process, failed, reviewed))
    {
      DroppedIffGone(rows, process, failed, i);
      if Found(process, failed, rows[i]).Some? { EnrichFinds(rows, process, failed, reviewed, i); }
    }
    FoundAreRows(rows, process, failed, reviewed);
    var queue' := queue - GoneIds(rows, process, failed);
    assert forall i :: 0 <= i < |rows| && !Gone(process, failed, rows[i]) ==> Waits(queue', rows[i].id);
  }

  lemma {:induction false} FoundAreRows(rows: seq<Row>, process: map<Ref, Process>, failed: set<EntityType>,
        reviewed: seq<Reviewed>)
    ensures forall ref :: ref in FoundRefs(Enrich(rows, process, failed, reviewed)) ==>
      ref in process && ref.etype !in failed && exists i :: 0 <= i < |rows| && rows[i].ref == ref
  {
    var es, kept := Enrich(rows, process, failed, reviewed), Kept(rows, process, failed);
    RestInOrder(rows, process, failed, reviewed);
    KeptRows(rows, process, failed);
    assert forall i :: 0 <= i < |es| ==> es[i].row == kept[i] && kept[i] in kept;
  }

  lemma {:induction false} EnrichFinds(rows: seq<Row>, process: map<Ref, Process>, failed: set<EntityType>,
        reviewed: seq<Reviewed>, i: nat)
    requires i < |rows| && Found(process, failed, rows[i]).Some?
    ensures Enriched(rows[i], Found(process, failed, rows[i]), Having(reviewed, PriorRef, rows[i].ref))
            in Enrich(rows, process, failed, reviewed)
  {
    if i < |rows| - 1 {
      EnrichFinds(rows[..|rows| - 1], process, failed, reviewed, i);
    }
  }

  // ---- search believes the tables, not the index ----

  function Position(hits: seq<Ref>, ref: Ref): nat {
    if hits == [] || hits[0] == ref then 0 else 1 + Position(hits[1..], ref)
  }

  function Insert(sorted: seq<Enriched>, e: Enriched, hits: seq<Ref>): seq<Enriched> {
    if sorted != [] && Position(hits, sorted[|sorted| - 1].row.ref) > Position(hits, e.row.ref)
    then Insert(sorted[..|sorted| - 1], e, hits) + [sorted[|sorted| - 1]]
    else sorted + [e]
  }

  /** A stable sort by the position of the entry's entity among the hits. */
  function Sorted(es: seq<Enriched>, hits: seq<Ref>): seq<Enriched> {
    if es == [] then [] else Insert(Sorted(es[..|es| - 1], hits), es[|es| - 1], hits)
  }

  function PositionOf(e: Enriched, hits: seq<Ref>): nat { Position(hits, e.row.ref) }

  predicate InOrder(es: seq<Enriched>, hits: seq<Ref>) {
    forall i, j :: 0 <= i < j < |es| ==> PositionOf(es[i], hits) < PositionOf(es[j], hits)
  }

  lemma {:induction false} InsertKeeps(sorted: seq<Enriched>, e: Enriched, hits: seq<Ref>)
    requires InOrder(sorted, hits) && forall x :: x in sorted ==> PositionOf(x, hits) != PositionOf(e, hits)
    ensures InOrder(Insert(sorted, e, hits), hits)
    ensures forall x :: x in Insert(sorted, e, hits) <==> x in sorted || x == e
  {
    hide Position;
    if sorted != [] && PositionOf(sorted[|sorted| - 1], hits) > PositionOf(e, hits) {
      var init, last := sorted[..|sorted| - 1], sorted[|sorted| - 1];
      InsertKeeps(init, e, hits);
      assert sorted == init + [last];
      var s := Insert(init, e, hits);
      forall i | 0 <= i < |s| ensures PositionOf(s[i], hits) < PositionOf(last, hits) {
        assert s[i] in s;
      }
    } else {
      assert forall i :: 0 <= i < |sorted| ==> sorted[i] in sorted;
    }
  }

  lemma {:induction false} SortedKeeps(es: seq<Enriched>, hits: seq<Ref>)
    requires forall i, j :: 0 <= i < j < |es| ==> PositionOf(es[i], hits) != PositionOf(es[j], hits)
    ensures InOrder(Sorted(es, hits), hits)
    ensures forall x :: x in Sorted(es, hits) <==> x in es
  {
    hide Position, Insert;
    if es != [] {
      var init, last := es[..|es| - 1], es[|es| - 1];
      SortedKeeps(init, hits);
      assert es == init + [last];
      InsertKeeps(Sorted(init, hits), last, hits);
    }
  }

  lemma {:induction false} PositionFinds(hits: seq<Ref>, ref: Ref)
    requires ref in hits
    ensures Position(hits, ref) < |hits| && hits[Position(hits, ref)] == ref
  {
    if hits[0] != ref { PositionFinds(hits[1..], ref); }
  }

  /** The lookup behind a search: the unreviewed entries of the hits, in no particular order. */
  ghost predicate Lookup(rows: seq<Row>, queue: map<Id, Entry>, hits: seq<Ref>) {
    && (forall i :: 0 <= i < |rows| ==> var row := rows[i];
          row.id in queue && queue[row.id].decision.None? && queue[row.id].ref == row.ref && row.ref in hits)
    && (forall i, j :: 0 <= i < j < |rows| ==> rows[i].id != rows[j].id)
    && (forall id :: id in queue && queue[id].decision.None? && queue[id].ref in hits ==>
          exists i :: 0 <= i < |rows| && rows[i].id == id)
  }

  /** Search answers with unreviewed entries only, at most one per hit and in the order of the
      hits, and leaves out no other hit than one whose entity a fetch found gone. */
  ghost predicate Faithful(found: seq<Enriched>, db: Db, hits: seq<Ref>, failed: set<EntityType>) {
    && (forall i :: 0 <= i < |found| ==> var row := found[i].row;
          Waits(db.queue, row.id) && db.queue[row.id].ref == row.ref && row.ref in hits)
    && (forall i, j :: 0 <= i < j < |found| ==> Position(hits, found[i].row.ref) < Position(hits, found[j].row.ref))
    && (forall id :: Waits(db.queue, id) && db.queue[id].ref in hits ==>
          ((exists i :: 0 <= i < |found| && found[i].row.id == id)
           <==> db.queue[id].ref in db.entities || db.queue[id].ref.etype in failed))
  }

  predicate Distinct(rows: seq<Row>) {
    forall i, j :: 0 <= i < j < |rows| ==> rows[i].ref != rows[j].ref
  }

  lemma {:induction false} KeptAreDistinct(rows: seq<Row>, process: map<Ref, Process>, failed: set<EntityType>)
    requires Distinct(rows)
    ensures Distinct(Kept(rows, process, failed))
  {
    if rows != [] {
      var before, last := rows[..|rows| - 1], rows[|rows| - 1];
      KeptAreDistinct(before, process, failed);
      KeptRows(before, process, failed);
      var kept := Kept(before, process, failed);
      forall i | 0 <= i < |kept| ensures kept[i].ref != last.ref {
        assert kept[i] in kept;
        var j :| 0 <= j < |before| && before[j] == kept[i];
        assert rows[j].ref != last.ref;
      }
      assert kept + [] == kept;
    }
  }

  /** However stale the index, whatever fetches fail and whatever was erased: search is faithful. */
  lemma {:induction false} SearchIsFaithful(calls: seq<Call>, hits: seq<Ref>, rows: seq<Row>,
        process: map<Ref, Process>, failed: set<EntityType>, reviewed: seq<Reviewed>)
    requires process.Keys == Run(calls).db.entities.Keys && Lookup(rows, Run(calls).db.queue, hits)
    ensures Faithful(Sorted(Enrich(rows, process, failed, reviewed), hits), Run(calls).db, hits, failed)
  {
    RunSound(calls);
    var db := Run(calls).db;
    var es, kept := Enrich(rows, process, failed, reviewed), Kept(rows, process, failed);
    hide Run, Fresh, Enrich, Kept, Position, Sorted;
    RestInOrder(rows, process, failed, reviewed);
    KeptRows(rows, process, failed);
    forall i, j | 0 <= i < j < |rows| ensures rows[i].ref != rows[j].ref {
      assert Waits(db.queue, rows[i].id) && Waits(db.queue, rows[j].id);
    }
    KeptAreDistinct(rows, process, failed);
    forall i, j | 0 <= i < j < |es| ensures PositionOf(es[i], hits) != PositionOf(es[j], hits) {
      assert kept[i] in kept && kept[j] in kept;
      PositionFinds(hits, kept[i].ref);
      PositionFinds(hits, kept[j].ref);
    }
    SortedKeeps(es, hits);
    SortedIsFaithful(es, rows, db, process, hits, failed);
  }

  lemma SortedIsFaithful(es: seq<Enriched>, rows: seq<Row>, db: Db, process: map<Ref, Process>, hits: seq<Ref>,
        failed: set<EntityType>)
    requires process.Keys == db.entities.Keys && Lookup(rows, db.queue, hits)
    requires var kept := Kept(rows, process, failed);
      && |es| == |kept| && (forall i :: 0 <= i < |es| ==> es[i].row == kept[i])
      && forall row :: row in kept <==> row in rows && !Gone(process, failed, row)
    requires InOrder(Sorted(es, hits), hits) && forall x :: x in Sorted(es, hits) <==> x in es
    ensures Faithful(Sorted(es, hits), db, hits, failed)
  {
    hide Sorted, Position, Kept;
    var found, kept := Sorted(es, hits), Kept(rows, process, failed);
    forall i | 0 <= i < |found|
      ensures found[i].row in rows && !Gone(process, failed, found[i].row)
    {
      assert found[i] in es;
      var k :| 0 <= k < |es| && es[k] == found[i];
      assert kept[k] in kept;
    }
    forall id | Waits(db.queue, id) && db.queue[id].ref in hits
      && (db.queue[id].ref in db.entities || db.queue[id].ref.etype in failed)
      ensures exists i :: 0 <= i < |found| && found[i].row.id == id
    {
      var k :| 0 <= k < |rows| && rows[k].id == id;
      assert rows[k] in kept;
      var i :| 0 <= i < |kept| && kept[i] == rows[k];
      assert es[i] in found;
    }
  }
}
