/**
 The paged list of a company's approved reviews: one query ranks the processes and cuts the
 page, a second, later one fetches that page's ratings. No two ratings share a creation time.
 */
module CompanyReviews {
  import opened Grouping

  type Process = nat

  datatype Rating = Rating(id: nat, process: Process, createdAt: int)

  function ProcessOf(r: Rating): Process { r.process }

  /** The approved ratings of the company, as any query ordered by creation time lists them. */
  predicate NewestFirst(rows: seq<Rating>) {
    forall i, j :: 0 <= i < j < |rows| ==> rows[i].createdAt > rows[j].createdAt
  }

  /** MAX(created_at) over a group. */
  function Latest(rows: seq<Rating>): int
    requires rows != []
  {
    if |rows| == 1 then rows[0].createdAt else
    var rest := Latest(rows[1..]);
    if rest > rows[0].createdAt then rest else rows[0].createdAt
  }

  function LatestOf(rows: seq<Rating>, p: Process): int
    requires Having(rows, ProcessOf, p) != []
  {
    Latest(Having(rows, ProcessOf, p))
  }

  /** The processes with a rating, grouped and ordered by their latest rating, latest first. */
  ghost predicate Ranks(ranking: seq<Process>, rows: seq<Rating>) {
    && (forall i, j :: 0 <= i < j < |ranking| ==> ranking[i] != ranking[j])
    && (forall p :: p in ranking <==> Having(rows, ProcessOf, p) != [])
    && (forall i, j :: 0 <= i < j < |ranking| ==> LatestOf(rows, ranking[i]) > LatestOf(rows, ranking[j]))
  }

  function Min(a: nat, b: nat): nat { if a < b then a else b }

  /** OFFSET (page - 1) * size LIMIT size. */
  function Slice<T>(s: seq<T>, page: nat, size: nat): seq<T>
    requires page >= 1
  {
    Offsets(page, size, |s|);
    s[Min((page - 1) * size, |s|)..Min((page - 1) * size + size, |s|)]
  }

  lemma Offsets(page: nat, size: nat, n: nat)
    requires page >= 1
    ensures 0 <= (page - 1) * size
    ensures Min((page - 1) * size, n) <= Min((page - 1) * size + size, n) <= n
  {
  }

  /** The second query: every rating of the given processes. */
  function RatingsOf(rows: seq<Rating>, processes: seq<Process>): seq<Rating> {
    if rows == [] then [] else
    var last := rows[|rows| - 1];
    RatingsOf(rows[..|rows| - 1], processes) + if last.process in processes then [last] else []
  }

  /** `rows` are the approved ratings the first query sees, `later` those the second sees. */
  method FindApprovedReviews(rows: seq<Rating>, ranking: seq<Process>, later: seq<Rating>, page: nat, pageSize: nat)
    returns (total: nat, items: seq<Group<Process, Rating>>)
    requires NewestFirst(rows) && Ranks(ranking, rows) && page >= 1
    ensures total == |GroupBy(rows, ProcessOf)|
    ensures items == Reordered(later, Slice(Firsts(rows, ProcessOf), page, pageSize))
    ensures later == rows ==> items == Slice(GroupBy(rows, ProcessOf), page, pageSize)
  {
    hide Having, NewestFirst, Slice, LatestOf, RatingsOf, Firsts, Ranks, Reordered;
    RankingIsFirstAppearance(rows, ranking);
    OneSnapshot(rows, ranking, page, pageSize);
    total := |ranking|;
    var processIds := Slice(ranking, page, pageSize);
    NothingReordered(later);
    if processIds == [] {
      return total, [];
    }
    var ratings := RatingsOf(later, processIds);
    var order, groupsByProcess := FillMap(ratings, ProcessOf);
    items := [];
    for i := 0 to |processIds|
      invariant items == Reordered(later, processIds[..i])
    {
      var id := processIds[i];
      PageKeepsGroups(later, processIds, id);
      PresentHasKey(ratings, id);
      NextReordered(later, processIds, i);
      if id in groupsByProcess {
        items := items + [Group(id, groupsByProcess[id])];
      }
    }
    assert processIds[..|processIds|] == processIds;
  }

  /** The groups found for `processes`, in that order. */
  function Reordered(later: seq<Rating>, processes: seq<Process>): seq<Group<Process, Rating>> {
    if processes == [] then [] else
    var p := processes[|processes| - 1];
    Reordered(later, processes[..|processes| - 1]) +
      if Having(later, ProcessOf, p) != [] then [Group(p, Having(later, ProcessOf, p))] else []
  }

  lemma NothingReordered(later: seq<Rating>)
    ensures Reordered(later, []) == []
  {
  }

  lemma NextReordered(later: seq<Rating>, processes: seq<Process>, i: nat)
    requires i < |processes|
    ensures var p := processes[i];
      Reordered(later, processes[..i + 1])
      == Reordered(later, processes[..i]) +
         if Having(later, ProcessOf, p) != [] then [Group(p, Having(later, ProcessOf, p))] else []
  {
    hide Having;
    assert processes[..i + 1][..i] == processes[..i];
  }

  lemma OneSnapshot(rows: seq<Rating>, ranking: seq<Process>, page: nat, size: nat)
    requires NewestFirst(rows) && Ranks(ranking, rows) && page >= 1 && ranking == Firsts(rows, ProcessOf)
    ensures Reordered(rows, Slice(ranking, page, size)) == Slice(GroupBy(rows, ProcessOf), page, size)
  {
    hide NewestFirst, Firsts, Having;
    var ids := Slice(ranking, page, size);
    forall p | p in ids ensures Having(rows, ProcessOf, p) != [] { RankedHasRatings(rows, ranking, p); }
    AllFound(rows, ids);
  }

  lemma {:induction false} AllFound(rows: seq<Rating>, processes: seq<Process>)
    requires forall p :: p in processes ==> Having(rows, ProcessOf, p) != []
    ensures Reordered(rows, processes) == Wanted(rows, processes)
  {
    hide Having;
    if processes != [] {
      AllFound(rows, processes[..|processes| - 1]);
      assert processes[|processes| - 1] in processes;
    }
  }

  /** The whole groups of these processes. */
  function Wanted(rows: seq<Rating>, processes: seq<Process>): seq<Group<Process, Rating>> {
    seq(|processes|, i requires 0 <= i < |processes| => Group(processes[i], Having(rows, ProcessOf, processes[i])))
  }

  lemma RankedHasRatings(rows: seq<Rating>, ranking: seq<Process>, id: Process)
    requires Ranks(ranking, rows) && id in ranking
    ensures Having(rows, ProcessOf, id) != []
  {
  }

  lemma PresentHasKey(rows: seq<Rating>, id: Process)
    ensures id in Firsts(rows, ProcessOf) <==> Having(rows, ProcessOf, id) != []
  {
    if id in Firsts(rows, ProcessOf) {
      var i := FirstsComeFrom(rows, ProcessOf, id);
      RowIsFiled(rows, ProcessOf, i);
    } else {
      NotYet(rows, ProcessOf, id);
    }
  }

  /** Fetching only the page's processes loses nothing of any of them. */
  lemma {:induction false} PageKeepsGroups(rows: seq<Rating>, processes: seq<Process>, p: Process)
    ensures Having(RatingsOf(rows, processes), ProcessOf, p)
            == if p in processes then Having(rows, ProcessOf, p) else []
  {
    if rows != [] {
      var before, last := rows[..|rows| - 1], rows[|rows| - 1];
      PageKeepsGroups(before, processes, p);
      HavingSnoc(RatingsOf(before, processes), last, ProcessOf, p);
      assert RatingsOf(before, processes) + [] == RatingsOf(before, processes);
    }
  }

  // ---- ranking by MAX is the order of first appearance ----

  lemma {:induction false} LatestIsFirst(rows: seq<Rating>)
    requires rows != [] && NewestFirst(rows)
    ensures Latest(rows) == rows[0].createdAt
  {
    if |rows| > 1 {
      assert NewestFirst(rows[1..]);
      LatestIsFirst(rows[1..]);
      assert rows[0].createdAt > rows[1].createdAt;
    }
  }

  lemma {:induction false} HavingNewestFirst(rows: seq<Rating>, p: Process)
    requires NewestFirst(rows)
    ensures NewestFirst(Having(rows, ProcessOf, p))
  {
    if rows != [] {
      var before := rows[..|rows| - 1];
      HavingNewestFirst(before, p);
      OnlyOwnRows(before, ProcessOf, p);
      forall i | 0 <= i < |Having(before, ProcessOf, p)|
        ensures Having(before, ProcessOf, p)[i].createdAt > rows[|rows| - 1].createdAt
      {
        assert Having(before, ProcessOf, p)[i] in before;
      }
    }
  }

  /** The process of an earlier group has the later latest rating. */
  lemma {:induction false} FirstsAreRanked(rows: seq<Rating>)
    requires NewestFirst(rows)
    ensures Ranks(Firsts(rows, ProcessOf), rows)
  {
    var keys := Firsts(rows, ProcessOf);
    FirstsAreDistinct(rows, ProcessOf);
    forall p ensures p in keys <==> Having(rows, ProcessOf, p) != [] {
      PresentHasKey(rows, p);
    }
    forall g, h | 0 <= g < h < |keys| ensures LatestOf(rows, keys[g]) > LatestOf(rows, keys[h]) {
      LaterGroupIsOlder(rows, g, h);
    }
  }

  lemma LaterGroupIsOlder(rows: seq<Rating>, g: nat, h: nat)
    requires NewestFirst(rows) && g < h < |Firsts(rows, ProcessOf)|
    ensures var keys := Firsts(rows, ProcessOf);
      && Having(rows, ProcessOf, keys[g]) != [] && Having(rows, ProcessOf, keys[h]) != []
      && LatestOf(rows, keys[g]) > LatestOf(rows, keys[h])
  {
    var keys := Firsts(rows, ProcessOf);
    var i := FirstItem(rows, ProcessOf, g);
    var j := FirstItem(rows, ProcessOf, h);
    FirstsAreDistinct(rows, ProcessOf);
    HavingNewestFirst(rows, keys[g]);
    HavingNewestFirst(rows, keys[h]);
    LatestIsFirst(Having(rows, ProcessOf, keys[g]));
    LatestIsFirst(Having(rows, ProcessOf, keys[h]));
    assert i < j;
  }

  predicate Descends(s: seq<Process>, value: map<Process, int>) {
    && (forall p :: p in s ==> p in value)
    && (forall i, j :: 0 <= i < j < |s| ==> value[s[i]] > value[s[j]])
  }

  lemma NonemptyHasMember(s: seq<Process>)
    ensures s != [] ==> exists p :: p in s
  {
    if s != [] { assert s[0] in s; }
  }

  /** Only one sequence lists these processes in descending order. */
  lemma {:induction false} DescentIsUnique(a: seq<Process>, b: seq<Process>, value: map<Process, int>)
    requires Descends(a, value) && Descends(b, value)
    requires (forall p :: p in a ==> p in b) && (forall p :: p in b ==> p in a)
    ensures a == b
  {
    if a == [] {
      NonemptyHasMember(b);
    } else {
      assert a[0] in b;
      assert b[0] in a;
      assert value[a[0]] <= value[b[0]] && value[b[0]] <= value[a[0]];
      var k :| 0 <= k < |a| && a[k] == b[0];
      assert k == 0;
      TailMembers(a, b, value);
      TailMembers(b, a, value);
      DescentIsUnique(a[1..], b[1..], value);
    }
  }

  lemma TailMembers(a: seq<Process>, b: seq<Process>, value: map<Process, int>)
    requires a != [] && b != [] && a[0] == b[0] && Descends(a, value) && forall p :: p in a ==> p in b
    ensures forall p :: p in a[1..] ==> p in b[1..]
  {
    forall p | p in a[1..] ensures p in b[1..] {
      assert p in a && p != a[0];
      assert p in b;
    }
  }

  lemma RankingDescends(rows: seq<Rating>, ranking: seq<Process>, value: map<Process, int>)
    requires Ranks(ranking, rows)
    requires forall p :: p in ranking ==>
        p in value && Having(rows, ProcessOf, p) != [] && value[p] == LatestOf(rows, p)
    ensures Descends(ranking, value)
  {
    hide LatestOf, Having;
  }

  lemma {:induction false} RankingIsFirstAppearance(rows: seq<Rating>, ranking: seq<Process>)
    requires NewestFirst(rows) && Ranks(ranking, rows)
    ensures ranking == Firsts(rows, ProcessOf)
  {
    FirstsAreRanked(rows);
    hide LatestOf, Having, NewestFirst, Firsts;
    var keys := Firsts(rows, ProcessOf);
    var value := map p | p in ranking :: LatestOf(rows, p);
    RankingDescends(rows, ranking, value);
    RankingDescends(rows, keys, value);
    hide Ranks;
    DescentIsUnique(ranking, keys, value);
  }

  lemma RatingsOfNewestFirst(rows: seq<Rating>, processes: seq<Process>)
    requires NewestFirst(rows)
    ensures NewestFirst(RatingsOf(rows, processes))
    ensures forall r :: r in RatingsOf(rows, processes) ==> r in rows && r.process in processes
  {
  }

  lemma SliceStarts<T>(s: seq<T>, page: nat, size: nat) returns (lo: nat)
    requires page >= 1
    ensures lo + |Slice(s, page, size)| <= |s| && Slice(s, page, size) == s[lo..lo + |Slice(s, page, size)|]
  {
    lo := Min((page - 1) * size, |s|);
    Offsets(page, size, |s|);
  }

  // ---- the queries apart ----

  /** Those of the processes that the second query still finds, in the same order. */
  function Present(later: seq<Rating>, processes: seq<Process>): seq<Process> {
    if processes == [] then [] else
    var p := processes[|processes| - 1];
    Present(later, processes[..|processes| - 1]) + if Having(later, ProcessOf, p) != [] then [p] else []
  }

  /** By the ratings the second query sees, the processes it finds are still in ranking order. */
  ghost predicate StillRanked(later: seq<Rating>, processes: seq<Process>) {
    forall i, j ::
      (0 <= i < j < |processes|
       && Having(later, ProcessOf, processes[i]) != [] && Having(later, ProcessOf, processes[j]) != []) ==>
        LatestOf(later, processes[i]) > LatestOf(later, processes[j])
  }

  lemma {:induction false} PresentMembers(later: seq<Rating>, processes: seq<Process>)
    ensures forall p :: p in Present(later, processes) <==> p in processes && Having(later, ProcessOf, p) != []
  {
    hide Having;
    if processes != [] {
      PresentMembers(later, processes[..|processes| - 1]);
      assert processes == processes[..|processes| - 1] + [processes[|processes| - 1]];
    }
  }

  lemma {:induction false} ReorderedArePresent(later: seq<Rating>, processes: seq<Process>)
    ensures Reordered(later, processes) == Wanted(later, Present(later, processes))
  {
    hide Having;
    if processes != [] { ReorderedArePresent(later, processes[..|processes| - 1]); }
  }

  ghost predicate Dates(value: map<Process, int>, later: seq<Rating>, processes: seq<Process>) {
    forall p :: p in processes && Having(later, ProcessOf, p) != [] ==> p in value && value[p] == LatestOf(later, p)
  }

  lemma DescendsSnoc(s: seq<Process>, p: Process, value: map<Process, int>)
    ensures Descends(s + [p], value)
            <==> Descends(s, value) && p in value && forall q :: q in s ==> q in value && value[q] > value[p]
  {
    var all := s + [p];
    if Descends(all, value) {
      forall q | q in all ensures q in value { }
      forall i, j | 0 <= i < j < |s| ensures value[s[i]] > value[s[j]] {
        assert all[i] == s[i] && all[j] == s[j];
      }
      forall q | q in s ensures value[q] > value[p] {
        var i :| 0 <= i < |s| && s[i] == q;
        assert all[i] == q && all[|s|] == p;
      }
      assert forall q :: q in s ==> q in all;
    }
  }

  lemma StillRankedSnoc(later: seq<Rating>, processes: seq<Process>, p: Process)
    ensures StillRanked(later, processes + [p])
            <==> StillRanked(later, processes)
                 && (Having(later, ProcessOf, p) != [] ==>
                       forall q :: q in processes && Having(later, ProcessOf, q) != [] ==>
                         LatestOf(later, q) > LatestOf(later, p))
  {
    hide LatestOf, Having;
    var all := processes + [p];
    assert all[|processes|] == p && forall i :: 0 <= i < |processes| ==> all[i] == processes[i];
    if StillRanked(later, all) && Having(later, ProcessOf, p) != [] {
      forall q | q in processes && Having(later, ProcessOf, q) != []
        ensures LatestOf(later, q) > LatestOf(later, p)
      {
        var i :| 0 <= i < |processes| && processes[i] == q;
        assert all[i] == q;
      }
    }
  }

  lemma PresentSnoc(later: seq<Rating>, processes: seq<Process>, p: Process)
    ensures Present(later, processes + [p])
            == if Having(later, ProcessOf, p) != [] then Present(later, processes) + [p] else Present(later, processes)
  {
    hide Having;
    assert (processes + [p])[..|processes|] == processes;
  }

  lemma DatesBefore(value: map<Process, int>, later: seq<Rating>, before: seq<Process>, p: Process)
    requires Dates(value, later, before + [p])
    ensures Dates(value, later, before)
  {
    hide LatestOf, Having;
    assert forall q :: q in before ==> q in before + [p];
  }

  lemma {:induction false} PresentDescendsIff(later: seq<Rating>, processes: seq<Process>, value: map<Process, int>)
    requires Dates(value, later, processes)
    ensures Descends(Present(later, processes), value) <==> StillRanked(later, processes)
  {
    if processes == [] {
    } else {
      hide LatestOf, StillRanked, Descends, Having, Present, Dates;
      var before, p := processes[..|processes| - 1], processes[|processes| - 1];
      assert processes == before + [p];
      DatesBefore(value, later, before, p);
      PresentDescendsIff(later, before, value);
      PresentSnoc(later, before, p);
      StillRankedSnoc(later, before, p);
      if Having(later, ProcessOf, p) != [] {
        DescendsSnoc(Present(later, before), p, value);
        OldestYet(later, before, p, value);
      }
    }
  }

  lemma OldestYet(later: seq<Rating>, before: seq<Process>, p: Process, value: map<Process, int>)
    requires Dates(value, later, before + [p]) && Having(later, ProcessOf, p) != []
    ensures p in value
    ensures (forall q :: q in Present(later, before) ==> q in value && value[q] > value[p])
            <==> (forall q :: q in before && Having(later, ProcessOf, q) != [] ==>
                    LatestOf(later, q) > LatestOf(later, p))
  {
    PresentMembers(later, before);
    hide LatestOf, Present, Having;
    assert p in before + [p] && forall q :: q in before ==> q in before + [p];
  }

  lemma FirstsDescend(ratings: seq<Rating>, value: map<Process, int>)
    requires NewestFirst(ratings) && Dates(value, ratings, Firsts(ratings, ProcessOf))
    ensures Descends(Firsts(ratings, ProcessOf), value)
  {
    FirstsAreRanked(ratings);
    hide NewestFirst, Firsts, LatestOf, Having;
  }

  lemma SameGroups(later: seq<Rating>, a: seq<Process>, b: seq<Process>)
    ensures Wanted(later, a) == Wanted(later, b) <==> a == b
  {
    hide Having;
    if Wanted(later, a) == Wanted(later, b) {
      assert |Wanted(later, a)| == |a| && |Wanted(later, b)| == |b|;
      forall i | 0 <= i < |a| ensures a[i] == b[i] {
        assert Wanted(later, a)[i].key == a[i] && Wanted(later, b)[i].key == b[i];
      }
    }
  }

  lemma FilledGroups(later: seq<Rating>, processes: seq<Process>)
    ensures var ratings := RatingsOf(later, processes);
      && GroupBy(ratings, ProcessOf) == Wanted(later, Firsts(ratings, ProcessOf))
      && forall p :: p in Firsts(ratings, ProcessOf) <==> p in processes && Having(later, ProcessOf, p) != []
  {
    var ratings := RatingsOf(later, processes);
    hide RatingsOf, Having, Firsts;
    forall p
      ensures p in Firsts(ratings, ProcessOf) <==> p in processes && Having(later, ProcessOf, p) != []
      ensures p in processes ==> Having(ratings, ProcessOf, p) == Having(later, ProcessOf, p)
    {
      PageKeepsGroups(later, processes, p);
      PresentHasKey(ratings, p);
    }
    var keys := Firsts(ratings, ProcessOf);
    assert forall i :: 0 <= i < |keys| ==> keys[i] in keys;
  }

  /** Whatever the second query sees, the final re-ordering leaves the order of its map alone
      exactly when the processes it finds are still ranked as the first query ranked them. */
  lemma {:induction false} ReorderingChangesNothingIff(later: seq<Rating>, ids: seq<Process>)
    requires NewestFirst(later)
    ensures Reordered(later, ids) == GroupBy(RatingsOf(later, ids), ProcessOf) <==> StillRanked(later, ids)
  {
    var ratings := RatingsOf(later, ids);
    var keys, found := Firsts(ratings, ProcessOf), Present(later, ids);
    RatingsOfNewestFirst(later, ids);
    FilledGroups(later, ids);
    ReorderedArePresent(later, ids);
    PresentMembers(later, ids);
    SameGroups(later, found, keys);
    hide NewestFirst, RatingsOf, Firsts, Present, Having, Latest;
    forall p | p in ids ensures Having(ratings, ProcessOf, p) == Having(later, ProcessOf, p) {
      PageKeepsGroups(later, ids, p);
    }
    var value := map p | p in keys :: LatestOf(later, p);
    assert Dates(value, ratings, keys) && Dates(value, later, ids);
    FirstsDescend(ratings, value);
    PresentDescendsIff(later, ids, value);
    hide Dates, LatestOf, StillRanked, GroupBy, Reordered;
    if StillRanked(later, ids) { DescentIsUnique(found, keys, value); }
  }

  lemma SliceStillRanked(rows: seq<Rating>, ranking: seq<Process>, page: nat, size: nat)
    requires Ranks(ranking, rows) && page >= 1
    ensures StillRanked(rows, Slice(ranking, page, size))
    ensures forall p :: p in Slice(ranking, page, size) ==> Having(rows, ProcessOf, p) != []
  {
    hide Slice, Latest, Having;
    var lo := SliceStarts(ranking, page, size);
    var ids := Slice(ranking, page, size);
    assert forall i :: 0 <= i < |ids| ==> ids[i] == ranking[lo + i] && ids[i] in ranking;
  }

  /** Over one snapshot it never changes the order: the map was filled in the order of the
      ranking already. */
  lemma {:induction false} ReorderingChangesNothing(rows: seq<Rating>, ranking: seq<Process>, page: nat, pageSize: nat)
    requires NewestFirst(rows) && Ranks(ranking, rows) && page >= 1
    ensures Firsts(RatingsOf(rows, Slice(ranking, page, pageSize)), ProcessOf) == Slice(ranking, page, pageSize)
  {
    hide NewestFirst, Slice, RatingsOf, Firsts, Having, GroupBy, Reordered, StillRanked, Ranks;
    var ids := Slice(ranking, page, pageSize);
    SliceStillRanked(rows, ranking, page, pageSize);
    ReorderingChangesNothingIff(rows, ids);
    AllFound(rows, ids);
    FilledGroups(rows, ids);
    SameGroups(rows, ids, Firsts(RatingsOf(rows, ids), ProcessOf));
  }

  // ---- the pages together ----

  /** Pages 1 to n, one after the other. */
  function Pages<T>(s: seq<T>, size: nat, n: nat): seq<T> {
    if n == 0 then [] else Pages(s, size, n - 1) + Slice(s, n, size)
  }

  lemma {:induction false} PagesArePrefix<T>(s: seq<T>, size: nat, n: nat)
    ensures n * size >= 0 && Pages(s, size, n) == s[..Min(n * size, |s|)]
  {
    if n > 0 {
      PagesArePrefix(s, size, n - 1);
      Offsets(n, size, |s|);
      assert n * size == (n - 1) * size + size;
    }
  }

  /** Rating `i` is listed in the group of its process. */
  ghost predicate Listed(rows: seq<Rating>, groups: seq<Group<Process, Rating>>, i: nat)
    requires i < |rows|
  {
    exists g :: 0 <= g < |groups| && groups[g].key == rows[i].process && rows[i] in groups[g].items
  }

  lemma RatingIsListed(rows: seq<Rating>, i: nat)
    requires i < |rows|
    ensures Listed(rows, GroupBy(rows, ProcessOf), i)
  {
    FirstsHave(rows, ProcessOf, i);
    RowIsFiled(rows, ProcessOf, i);
    hide Having, Firsts;
    var g :| 0 <= g < |Firsts(rows, ProcessOf)| && Firsts(rows, ProcessOf)[g] == rows[i].process;
    assert GroupBy(rows, ProcessOf)[g].key == rows[i].process;
  }

  /** Pages 1 to ceil(total / pageSize) list every process of the company once, with all its
      approved ratings, and every later page is empty. */
  lemma {:induction false} PagesCoverEachProcessOnce(rows: seq<Rating>, pageSize: nat, page: nat)
    requires pageSize >= 1 && page >= 1
    ensures var groups := GroupBy(rows, ProcessOf); var last := (|groups| + pageSize - 1) / pageSize;
      && Pages(groups, pageSize, last) == groups
      && (page > last ==> Slice(groups, page, pageSize) == [])
    ensures forall i, j :: 0 <= i < j < |GroupBy(rows, ProcessOf)| ==>
        GroupBy(rows, ProcessOf)[i].key != GroupBy(rows, ProcessOf)[j].key
    ensures forall i :: 0 <= i < |rows| ==> Listed(rows, GroupBy(rows, ProcessOf), i)
  {
    FirstsAreDistinct(rows, ProcessOf);
    forall i | 0 <= i < |rows| ensures Listed(rows, GroupBy(rows, ProcessOf), i) {
      RatingIsListed(rows, i);
    }
    var groups := GroupBy(rows, ProcessOf);
    CeilingCovers(|groups|, pageSize, page);
    PagesArePrefix(groups, pageSize, (|groups| + pageSize - 1) / pageSize);
  }

  lemma CeilingCovers(n: nat, size: nat, page: nat)
    requires size >= 1 && page >= 1
    ensures (n + size - 1) / size * size >= n
    ensures page > (n + size - 1) / size ==> (page - 1) * size >= n
  {
  }

}
