/**
 The moderator's queue view: enrich the unreviewed entries with what their entities hold, drop
 the ones whose entity is gone, attach earlier reviews, group by submission.
 */
module Listing {
  import opened Wrappers
  import opened Queue
  import opened Grouping

  type Process = nat

  /** One row of the queue query, and one already reviewed entry with the time of its review. */
  datatype Row = Row(id: Id, ref: Ref, deadline: int)
  datatype Reviewed = Reviewed(id: Id, ref: Ref, decision: Decision, at: int)

  /** The group an entity belongs to: its interview process, or a company request of its own. */
  datatype GroupKey = Submission(process: Process) | CompanyRequest(company: Id) | Unknown(entry: Id)

  datatype Enriched = Enriched(row: Row, entity: Option<GroupKey>, priorReviews: seq<Reviewed>)

  /** Ids are unique across tables, so an id alone identifies an entity. */
  predicate UniqueIds(entities: map<Ref, Process>, rows: seq<Row>) {
    && (forall r, s :: r in entities && s in entities && r.eid == s.eid ==> r == s)
    && (forall i, r :: 0 <= i < |rows| && r in entities && r.eid == rows[i].ref.eid ==> r == rows[i].ref)
  }

  function GroupKeyOf(entities: map<Ref, Process>, ref: Ref): GroupKey
    requires ref in entities
  {
    if ref.etype == Company then CompanyRequest(ref.eid) else Submission(entities[ref])
  }

  // ---- what the view should hold ----

  /** The fetch of its type worked, and did not find it. */
  predicate Gone(entities: map<Ref, Process>, failed: set<EntityType>, row: Row) {
    row.ref.etype !in failed && row.ref !in entities
  }

  function Found(entities: map<Ref, Process>, failed: set<EntityType>, row: Row): Option<GroupKey> {
    if row.ref.etype !in failed && row.ref in entities then Some(GroupKeyOf(entities, row.ref)) else None
  }

  function PriorRef(r: Reviewed): Ref { r.ref }

  function Enrich(rows: seq<Row>, entities: map<Ref, Process>, failed: set<EntityType>,
        reviewed: seq<Reviewed>): seq<Enriched> {
    if rows == [] then [] else
    var before, row := Enrich(rows[..|rows| - 1], entities, failed, reviewed), rows[|rows| - 1];
    if Gone(entities, failed, row) then before
    else before + [Enriched(row, Found(entities, failed, row), Having(reviewed, PriorRef, row.ref))]
  }

  function GoneIds(rows: seq<Row>, entities: map<Ref, Process>, failed: set<EntityType>): set<Id> {
    set i | 0 <= i < |rows| && Gone(entities, failed, rows[i]) :: rows[i].id
  }

  function KeyOf(e: Enriched): GroupKey {
    if e.entity.Some? then e.entity.value else Unknown(e.row.id)
  }

  /** What the query for reviewed entries answers: each reviewed entry of `refs` once, newest
      first. `reviewedAt` is the column of the same name. */
  ghost predicate ReviewedQuery(reviewed: seq<Reviewed>, queue: map<Id, Entry>, reviewedAt: map<Id, int>,
      refs: set<Ref>)
  {
    && (forall r :: r in reviewed ==>
          && r.ref in refs && r.id in ReviewedOf(queue, r.ref) && queue[r.id].decision == Some(r.decision)
          && r.id in reviewedAt && reviewedAt[r.id] == r.at)
    && (forall i, j :: 0 <= i < j < |reviewed| ==>
          reviewed[i].id != reviewed[j].id && reviewed[i].at >= reviewed[j].at)
    && (forall ref, id :: ref in refs && id in ReviewedOf(queue, ref) ==> exists r :: r in reviewed && r.id == id)
  }

  // ---- how it is built ----

  class QueueReader {
    var entities: map<Ref, Process>
    var queue: map<Id, Entry>

    constructor (entities: map<Ref, Process>, queue: map<Id, Entry>)
      ensures this.entities == entities && this.queue == queue
    {
      this.entities, this.queue := entities, queue;
    }

    /** The four batch fetches, merged into one map by id; a failed batch contributes nothing. */
    method EntityById(rows: seq<Row>, failed: set<EntityType>) returns (byId: map<Id, GroupKey>)
      requires UniqueIds(entities, rows)
      ensures forall i :: 0 <= i < |rows| ==>
        (if rows[i].ref.eid in byId then Some(byId[rows[i].ref.eid]) else None) == Found(entities, failed, rows[i])
    {
      byId := map[];
      for i := 0 to |rows|
        invariant forall k :: k in byId ==>
          exists r :: r in entities && r.eid == k && r.etype !in failed && byId[k] == GroupKeyOf(entities, r)
        invariant forall j :: 0 <= j < i && rows[j].ref.etype !in failed && rows[j].ref in entities ==>
            rows[j].ref.eid in byId
      {
        var ref := rows[i].ref;
        if ref.etype !in failed && ref in entities {
          byId := byId[ref.eid := GroupKeyOf(entities, ref)];
        }
      }
    }

    /** Sort the rows into survivors and orphans. */
    method Partition(rows: seq<Row>, failed: set<EntityType>)
      returns (surviving: seq<Enriched>, orphaned: set<Id>)
      requires UniqueIds(entities, rows)
      ensures orphaned == GoneIds(rows, entities, failed)
      ensures surviving == Enrich(rows, entities, failed, [])
    {
      var byId := EntityById(rows, failed);
      surviving, orphaned := [], {};
      for i := 0 to |rows|
        invariant orphaned == GoneIds(rows[..i], entities, failed)
        invariant surviving == Enrich(rows[..i], entities, failed, [])
      {
        var row := rows[i];
        assert rows[..i + 1] == rows[..i] + [row] && rows[..i + 1][..i] == rows[..i];
        GoneSnoc(rows[..i], row, entities, failed);
        var entity := if row.ref.eid in byId then Some(byId[row.ref.eid]) else None;
        if entity.None? && row.ref.etype !in failed {
          orphaned := orphaned + {row.id};
        } else {
          surviving := surviving + [Enriched(row, entity, [])];
        }
      }
      assert rows[..|rows|] == rows;
    }

    /** `enrichEntries`: `reviewed` lists the already reviewed entries, newest first. */
    method EnrichEntries(rows: seq<Row>, failed: set<EntityType>, reviewed: seq<Reviewed>)
      returns (enriched: seq<Enriched>)
      requires UniqueIds(entities, rows)
      modifies this`queue
      ensures enriched == Enrich(rows, entities, failed, reviewed)
      ensures queue == old(queue) - GoneIds(rows, entities, failed)
    {
      hide Enrich, GoneIds, WithPriors;
      var surviving, orphaned := Partition(rows, failed);
      queue := queue - orphaned;
      enriched := FetchPriorReviews(surviving, reviewed);
      EnrichInTwoSteps(rows, entities, failed, reviewed);
    }

    /** `fetchPriorReviews`, and the final pass that attaches what it found. */
    method FetchPriorReviews(surviving: seq<Enriched>, reviewed: seq<Reviewed>) returns (enriched: seq<Enriched>)
      ensures enriched == WithPriors(surviving, reviewed)
    {
      var order, byKey := FillMap(reviewed, PriorRef);
      enriched := [];
      for i := 0 to |surviving|
        invariant enriched == WithPriors(surviving[..i], reviewed)
      {
        var ref := surviving[i].row.ref;
        NotYetOrKey(reviewed, ref);
        enriched := enriched + [surviving[i].(priorReviews := if ref in byKey then byKey[ref] else [])];
        assert surviving[..i + 1][..i] == surviving[..i];
      }
      assert surviving[..|surviving|] == surviving;
    }

    /** `listPending` after its query. */
    method ListPending(rows: seq<Row>, failed: set<EntityType>, reviewed: seq<Reviewed>)
      returns (groups: seq<Group<GroupKey, Enriched>>)
      requires UniqueIds(entities, rows)
      modifies this`queue
      ensures groups == GroupBy(Enrich(rows, entities, failed, reviewed), KeyOf)
      ensures queue == old(queue) - GoneIds(rows, entities, failed)
    {
      var enriched := EnrichEntries(rows, failed, reviewed);
      groups := GroupRows(enriched, KeyOf);
    }
  }

  function WithPriors(es: seq<Enriched>, reviewed: seq<Reviewed>): seq<Enriched> {
    if es == [] then [] else
    var last := es[|es| - 1];
    WithPriors(es[..|es| - 1], reviewed) + [last.(priorReviews := Having(reviewed, PriorRef, last.row.ref))]
  }

  lemma NotYetOrKey(reviewed: seq<Reviewed>, ref: Ref)
    ensures ref !in Firsts(reviewed, PriorRef) ==> Having(reviewed, PriorRef, ref) == []
  {
  }

  lemma GoneSnoc(rows: seq<Row>, row: Row, entities: map<Ref, Process>, failed: set<EntityType>)
    ensures GoneIds(rows + [row], entities, failed)
            == GoneIds(rows, entities, failed) + if Gone(entities, failed, row) then {row.id} else {}
  {
    var all := rows + [row];
    forall id | id in GoneIds(rows, entities, failed) ensures id in GoneIds(all, entities, failed) {
      var i :| 0 <= i < |rows| && Gone(entities, failed, rows[i]) && rows[i].id == id;
      assert all[i] == rows[i];
    }
    if Gone(entities, failed, row) { assert all[|rows|] == row; }
  }

  lemma {:induction false} EnrichInTwoSteps(rows: seq<Row>, entities: map<Ref, Process>,
        failed: set<EntityType>, reviewed: seq<Reviewed>)
    ensures WithPriors(Enrich(rows, entities, failed, []), reviewed) == Enrich(rows, entities, failed, reviewed)
  {
    if rows != [] {
      var before, row := rows[..|rows| - 1], rows[|rows| - 1];
      EnrichInTwoSteps(before, entities, failed, reviewed);
      if !Gone(entities, failed, row) {
        var es, e := Enrich(before, entities, failed, []), Enriched(row, Found(entities, failed, row), []);
        assert Enrich(rows, entities, failed, [])[..|es|] == es;
      }
    }
  }

  // ---- what a moderator can rely on ----

  /** Whatever fetches fail, an entry is dropped exactly when its entity is really gone and the
      fetch of its type could tell. */
  lemma DroppedIffGone(rows: seq<Row>, entities: map<Ref, Process>, failed: set<EntityType>, i: nat)
    requires i < |rows| && forall j, k :: 0 <= j < k < |rows| ==> rows[j].id != rows[k].id
    ensures rows[i].id in GoneIds(rows, entities, failed) <==> rows[i].ref !in entities && rows[i].ref.etype !in failed
    ensures rows[i].ref in entities ==> rows[i].id !in GoneIds(rows, entities, failed)
  {
  }

  function Kept(rows: seq<Row>, entities: map<Ref, Process>, failed: set<EntityType>): seq<Row> {
    if rows == [] then [] else
    var row := rows[|rows| - 1];
    Kept(rows[..|rows| - 1], entities, failed) + if Gone(entities, failed, row) then [] else [row]
  }

  /** The rest are listed in query order, each with every earlier review of its entity. */
  lemma {:induction false} RestInOrder(rows: seq<Row>, entities: map<Ref, Process>, failed: set<EntityType>,
        reviewed: seq<Reviewed>)
    ensures var es := Enrich(rows, entities, failed, reviewed);
      && |es| == |Kept(rows, entities, failed)|
      && forall i :: 0 <= i < |es| ==>
           && es[i].row == Kept(rows, entities, failed)[i]
           && es[i].priorReviews == Having(reviewed, PriorRef, es[i].row.ref)
           && (es[i].entity.Some? <==> es[i].row.ref in entities && es[i].row.ref.etype !in failed)
           && es[i].entity == Found(entities, failed, es[i].row)
  {
    if rows != [] {
      RestInOrder(rows[..|rows| - 1], entities, failed, reviewed);
    }
  }

  lemma {:induction false} HavingIsSublist(reviewed: seq<Reviewed>, ref: Ref)
    requires forall i, j :: 0 <= i < j < |reviewed| ==>
      reviewed[i].id != reviewed[j].id && reviewed[i].at >= reviewed[j].at
    ensures var own := Having(reviewed, PriorRef, ref);
      && (forall r :: r in own <==> r in reviewed && r.ref == ref)
      && forall i, j :: 0 <= i < j < |own| ==> own[i].id != own[j].id && own[i].at >= own[j].at
  {
    if reviewed != [] {
      var before, last := reviewed[..|reviewed| - 1], reviewed[|reviewed| - 1];
      HavingIsSublist(before, ref);
      var own := Having(before, PriorRef, ref);
      forall i | 0 <= i < |own| ensures own[i].id != last.id && own[i].at >= last.at {
        assert own[i] in own;
        var k :| 0 <= k < |before| && before[k] == own[i];
        assert reviewed[k] == own[i];
      }
      assert forall r :: r in reviewed <==> r in before || r == last;
    }
  }

  lemma OwnHistory(reviewed: seq<Reviewed>, queue: map<Id, Entry>, reviewedAt: map<Id, int>, refs: set<Ref>, ref: Ref)
    requires ReviewedQuery(reviewed, queue, reviewedAt, refs) && ref in refs
    ensures ReviewedQuery(Having(reviewed, PriorRef, ref), queue, reviewedAt, {ref})
  {
    HavingIsSublist(reviewed, ref);
    hide Having;
    var own := Having(reviewed, PriorRef, ref);
    forall id | id in ReviewedOf(queue, ref) ensures exists r :: r in own && r.id == id {
      var r :| r in reviewed && r.id == id;
      assert r in own;
    }
  }

  function RefsOf(rows: seq<Row>): set<Ref> {
    set i | 0 <= i < |rows| :: rows[i].ref
  }

  /** Asked about the rows that are kept, after the others were deleted, the query gives every
      listed row exactly the reviewed entries of its entity, newest first. */
  lemma {:induction false} FullHistory(rows: seq<Row>, entities: map<Ref, Process>, failed: set<EntityType>,
        reviewed: seq<Reviewed>, queue: map<Id, Entry>, reviewedAt: map<Id, int>)
    requires forall i :: 0 <= i < |rows| ==> rows[i].id in queue && queue[rows[i].id].decision.None?
    requires ReviewedQuery(reviewed, queue - GoneIds(rows, entities, failed), reviewedAt,
                           RefsOf(Kept(rows, entities, failed)))
    ensures var es := Enrich(rows, entities, failed, reviewed);
      forall i :: 0 <= i < |es| ==> ReviewedQuery(es[i].priorReviews, queue, reviewedAt, {es[i].row.ref})
  {
    var es, kept := Enrich(rows, entities, failed, reviewed), Kept(rows, entities, failed);
    var queue' := queue - GoneIds(rows, entities, failed);
    RestInOrder(rows, entities, failed, reviewed);
    forall i | 0 <= i < |es| ensures ReviewedQuery(es[i].priorReviews, queue, reviewedAt, {es[i].row.ref}) {
      var ref := kept[i].ref;
      OwnHistory(reviewed, queue', reviewedAt, RefsOf(kept), ref);
      assert ReviewedOf(queue', ref) == ReviewedOf(queue, ref);
    }
  }

  lemma {:induction false} KeptRows(rows: seq<Row>, entities: map<Ref, Process>, failed: set<EntityType>)
    ensures forall row :: row in Kept(rows, entities, failed) <==> row in rows && !Gone(entities, failed, row)
  {
    if rows != [] {
      KeptRows(rows[..|rows| - 1], entities, failed);
      assert forall row :: row in rows <==> row in rows[..|rows| - 1] || row == rows[|rows| - 1];
    }
  }

  /** Two listed entries share a group exactly when they belong to one interview process, or are
      about the same company; an entry whose entity could not be fetched is alone. */
  lemma {:induction false} SameGroupIff(rows: seq<Row>, entities: map<Ref, Process>, failed: set<EntityType>,
        reviewed: seq<Reviewed>, i: nat, j: nat)
    requires i < |Enrich(rows, entities, failed, reviewed)| && j < |Enrich(rows, entities, failed, reviewed)|
    ensures var es := Enrich(rows, entities, failed, reviewed); var a, b := es[i].row, es[j].row;
      KeyOf(es[i]) == KeyOf(es[j]) <==>
        if a.ref in entities && a.ref.etype !in failed && b.ref in entities && b.ref.etype !in failed then
          if a.ref.etype == Company || b.ref.etype == Company then a.ref == b.ref
          else entities[a.ref] == entities[b.ref]
        else
          a.id == b.id && (a.ref !in entities || a.ref.etype in failed) && (b.ref !in entities || b.ref.etype in failed)
  {
    RestInOrder(rows, entities, failed, reviewed);
    hide Enrich;
  }

  function DeadlineOf(e: Enriched): int { e.row.deadline }

  lemma {:induction false} EnrichKeepsOrder(rows: seq<Row>, entities: map<Ref, Process>,
        failed: set<EntityType>, reviewed: seq<Reviewed>)
    requires forall i, j :: 0 <= i < j < |rows| ==> rows[i].deadline <= rows[j].deadline
    ensures SortedBy(Enrich(rows, entities, failed, reviewed), DeadlineOf)
    ensures rows != [] ==> forall e :: e in Enrich(rows, entities, failed, reviewed) ==>
        e.row.deadline <= rows[|rows| - 1].deadline
  {
    if rows != [] {
      var before := rows[..|rows| - 1];
      EnrichKeepsOrder(before, entities, failed, reviewed);
      var es := Enrich(before, entities, failed, reviewed);
      assert forall i :: 0 <= i < |es| ==> es[i] in es;
      assert forall e :: e in es ==> before != [];
    }
  }

  ghost predicate ByUrgency(groups: seq<Group<GroupKey, Enriched>>) {
    && (forall g, h :: 0 <= g < h < |groups| ==> groups[g].key != groups[h].key)
    && (forall g :: 0 <= g < |groups| ==> groups[g].items != [])
    && (forall g, h, e :: 0 <= g <= h < |groups| && e in groups[h].items ==>
          groups[g].items[0].row.deadline <= e.row.deadline)
  }

  /** The groups hold each listed entry exactly once, no two share a key, every group starts
      with its most urgent entry, and the groups come in the order of their most urgent entries. */
  lemma {:induction false} GroupsByUrgency(rows: seq<Row>, entities: map<Ref, Process>,
        failed: set<EntityType>, reviewed: seq<Reviewed>)
    requires forall i, j :: 0 <= i < j < |rows| ==> rows[i].deadline <= rows[j].deadline
    ensures var es := Enrich(rows, entities, failed, reviewed);
      ByUrgency(GroupBy(es, KeyOf)) && Contents(es, KeyOf, Firsts(es, KeyOf)) == multiset(es)
  {
    hide Enrich, Having, Firsts, Contents;
    var es := Enrich(rows, entities, failed, reviewed);
    var groups := GroupBy(es, KeyOf);
    EnrichKeepsOrder(rows, entities, failed, reviewed);
    GroupsPartition(es, KeyOf);
    FirstsAreDistinct(es, KeyOf);
    forall g, h | 0 <= g <= h < |groups|
      ensures groups[g].items != []
      ensures forall e :: e in groups[h].items ==> groups[g].items[0].row.deadline <= e.row.deadline
    {
      GroupsAreSorted(es, KeyOf, DeadlineOf, g, h);
    }
    assert forall g :: 0 <= g < |groups| ==> g <= g && groups[g].items != [];
  }
}
