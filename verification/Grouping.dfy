/**
 Grouping rows with a map that remembers insertion order: the first row with a key opens its
 group, every row joins the group of its key.
 */
module Grouping {
  datatype Group<K, T> = Group(key: K, items: seq<T>)

  /** The keys in order of first appearance. */
  function Firsts<T, K(==)>(rows: seq<T>, key: T -> K): seq<K> {
    if rows == [] then [] else
    var before, k := Firsts(rows[..|rows| - 1], key), key(rows[|rows| - 1]);
    if k in before then before else before + [k]
  }

  /** The rows with key `k`, in row order. */
  function Having<T, K(==)>(rows: seq<T>, key: T -> K, k: K): seq<T> {
    if rows == [] then [] else
    var last := rows[|rows| - 1];
    Having(rows[..|rows| - 1], key, k) + if key(last) == k then [last] else []
  }

  function GroupBy<T, K(==)>(rows: seq<T>, key: T -> K): seq<Group<K, T>> {
    var keys := Firsts(rows, key);
    seq(|keys|, i requires 0 <= i < |keys| => Group(keys[i], Having(rows, key, keys[i])))
  }

  /** A Map filled in a loop: `order` is the order in which its keys were inserted. */
  method FillMap<T, K(==)>(rows: seq<T>, key: T -> K) returns (order: seq<K>, groups: map<K, seq<T>>)
    ensures order == Firsts(rows, key) && groups.Keys == set k | k in order
    ensures forall k :: k in groups ==> groups[k] == Having(rows, key, k)
  {
    groups, order := map[], [];
    for i := 0 to |rows|
      invariant order == Firsts(rows[..i], key)
      invariant groups.Keys == set k | k in order
      invariant Holds(groups, rows[..i], key)
    {
      hide Firsts, Having, Holds;
      var k := key(rows[i]);
      assert rows[..i + 1] == rows[..i] + [rows[i]];
      FirstsSnoc(rows[..i], rows[i], key);
      if k !in groups { NotYet(rows[..i], key, k); }
      HoldsSnoc(groups, rows[..i], rows[i], key);
      if k !in groups {
        groups := groups[k := []];
        order := order + [k];
      }
      groups := groups[k := groups[k] + [rows[i]]];
    }
    assert rows[..|rows|] == rows;
  }

  /** The map files under each of its keys the rows with that key. */
  ghost predicate Holds<T, K>(groups: map<K, seq<T>>, rows: seq<T>, key: T -> K) {
    forall k :: k in groups ==> groups[k] == Having(rows, key, k)
  }

  lemma FirstsSnoc<T, K>(rows: seq<T>, row: T, key: T -> K)
    ensures var keys, k := Firsts(rows, key), key(row);
      Firsts(rows + [row], key) == if k in keys then keys else keys + [k]
  {
    assert (rows + [row])[..|rows|] == rows;
  }

  lemma HavingSnoc<T, K>(rows: seq<T>, row: T, key: T -> K, k: K)
    ensures Having(rows + [row], key, k) == Having(rows, key, k) + if key(row) == k then [row] else []
  {
    assert (rows + [row])[..|rows|] == rows;
  }

  lemma HoldsSnoc<T, K>(groups: map<K, seq<T>>, rows: seq<T>, row: T, key: T -> K)
    requires Holds(groups, rows, key) && (key(row) !in groups ==> Having(rows, key, key(row)) == [])
    ensures var k := key(row);
      Holds(groups[k := (if k in groups then groups[k] else []) + [row]], rows + [row], key)
  {
    hide Having;
    var k := key(row);
    HavingSnoc(rows, row, key, k);
    forall j | j in groups ensures Having(rows + [row], key, j) == Having(rows, key, j) + if k == j then [row] else [] {
      HavingSnoc(rows, row, key, j);
    }
  }

  /** The Map's values, in insertion order. */
  method GroupRows<T, K(==)>(rows: seq<T>, key: T -> K) returns (result: seq<Group<K, T>>)
    ensures result == GroupBy(rows, key)
  {
    var order, groups := FillMap(rows, key);
    result := seq(|order|, i requires 0 <= i < |order| => Group(order[i], groups[order[i]]));
  }

  lemma {:induction false} FirstsHave<T, K>(rows: seq<T>, key: T -> K, i: nat)
    requires i < |rows|
    ensures key(rows[i]) in Firsts(rows, key)
  {
    if i < |rows| - 1 { FirstsHave(rows[..|rows| - 1], key, i); }
  }

  lemma {:induction false} FirstsComeFrom<T, K>(rows: seq<T>, key: T -> K, k: K) returns (i: nat)
    requires k in Firsts(rows, key)
    ensures i < |rows| && key(rows[i]) == k
  {
    if k in Firsts(rows[..|rows| - 1], key) {
      i := FirstsComeFrom(rows[..|rows| - 1], key, k);
    } else {
      i := |rows| - 1;
    }
  }

  /** No two groups share a key. */
  lemma {:induction false} FirstsAreDistinct<T, K>(rows: seq<T>, key: T -> K)
    ensures forall i, j :: 0 <= i < j < |Firsts(rows, key)| ==> Firsts(rows, key)[i] != Firsts(rows, key)[j]
  {
    if rows != [] { FirstsAreDistinct(rows[..|rows| - 1], key); }
  }

  lemma {:induction false} NotYet<T, K>(rows: seq<T>, key: T -> K, k: K)
    requires k !in Firsts(rows, key)
    ensures Having(rows, key, k) == []
  {
    if rows != [] {
      NotYet(rows[..|rows| - 1], key, k);
    }
  }

  /** Nothing is lost or duplicated within a group, and row order is kept: row `i` is found in
      the group of its key at the number of earlier rows with that key. */
  lemma {:induction false} RowIsFiled<T, K>(rows: seq<T>, key: T -> K, i: nat)
    requires i < |rows|
    ensures var k := key(rows[i]);
      |Having(rows[..i], key, k)| < |Having(rows, key, k)|
          && Having(rows, key, k)[|Having(rows[..i], key, k)|] == rows[i]
  {
    var before := rows[..|rows| - 1];
    if i < |before| {
      RowIsFiled(before, key, i);
      assert before[..i] == rows[..i];
    }
  }

  lemma {:induction false} OnlyOwnRows<T, K>(rows: seq<T>, key: T -> K, k: K)
    ensures forall x :: x in Having(rows, key, k) ==> x in rows && key(x) == k
  {
    if rows != [] {
      OnlyOwnRows(rows[..|rows| - 1], key, k);
    }
  }

  // ---- the groups partition the rows ----

  /** All items of all groups. */
  ghost function Contents<T, K>(rows: seq<T>, key: T -> K, keys: seq<K>): multiset<T> {
    if keys == [] then multiset{} else
    Contents(rows, key, keys[..|keys| - 1]) + multiset(Having(rows, key, keys[|keys| - 1]))
  }

  /** One more row changes only the group of its key. */
  lemma {:induction false} OneMoreRow<T, K>(rows: seq<T>, x: T, key: T -> K, keys: seq<K>)
    requires forall i, j :: 0 <= i < j < |keys| ==> keys[i] != keys[j]
    ensures Contents(rows + [x], key, keys)
            == Contents(rows, key, keys) + if key(x) in keys then multiset{x} else multiset{}
  {
    hide Having;
    if keys != [] {
      var rest, k := keys[..|keys| - 1], keys[|keys| - 1];
      OneMoreRow(rows, x, key, rest);
      HavingSnoc(rows, x, key, k);
      assert key(x) in keys <==> key(x) in rest || key(x) == k;
      if key(x) == k { assert multiset(Having(rows, key, k) + [x]) == multiset(Having(rows, key, k)) + multiset{x}; }
    }
  }

  /** The groups together hold every row exactly as often as it occurs. */
  lemma {:induction false} GroupsPartition<T, K>(rows: seq<T>, key: T -> K)
    ensures Contents(rows, key, Firsts(rows, key)) == multiset(rows)
  {
    hide Having, Firsts, Contents;
    if rows == [] {
      NoRows(rows, key);
    } else {
      var before, x := rows[..|rows| - 1], rows[|rows| - 1];
      GroupsPartition(before, key);
      FirstsAreDistinct(rows, key);
      FirstsHave(rows, key, |rows| - 1);
      assert rows == before + [x];
      FirstsSnoc(before, x, key);
      if key(x) !in Firsts(before, key) { NewGroupIsEmpty(before, key, key(x)); }
      OneMoreRow(before, x, key, Firsts(rows, key));
      MultisetSnoc(before, x);
    }
  }

  lemma NoRows<T, K>(rows: seq<T>, key: T -> K)
    requires rows == []
    ensures Contents(rows, key, Firsts(rows, key)) == multiset(rows)
  {
  }

  lemma MultisetSnoc<T>(rows: seq<T>, x: T)
    ensures multiset(rows + [x]) == multiset(rows) + multiset{x}
  {
  }

  lemma NewGroupIsEmpty<T, K>(rows: seq<T>, key: T -> K, k: K)
    requires k !in Firsts(rows, key)
    ensures Contents(rows, key, Firsts(rows, key) + [k]) == Contents(rows, key, Firsts(rows, key))
  {
    var keys := Firsts(rows, key);
    NotYet(rows, key, k);
    hide Having, Firsts;
    assert (keys + [k])[..|keys|] == keys;
  }

  // ---- the groups come in the order of their first rows ----

  /** The index of the row that opened group `g`. */
  lemma {:induction false} GroupOpens<T, K>(rows: seq<T>, key: T -> K, g: nat) returns (i: nat)
    requires g < |Firsts(rows, key)|
    ensures i < |rows| && key(rows[i]) == Firsts(rows, key)[g] && Firsts(rows[..i], key) == Firsts(rows, key)[..g]
  {
    var before := rows[..|rows| - 1];
    if g < |Firsts(before, key)| {
      i := GroupOpens(before, key, g);
      assert before[..i] == rows[..i];
    } else {
      i := |rows| - 1;
    }
  }

  /** A group's first item is its opening row. */
  lemma {:induction false} FirstItem<T, K>(rows: seq<T>, key: T -> K, g: nat) returns (i: nat)
    requires g < |GroupBy(rows, key)|
    ensures i < |rows| && GroupBy(rows, key)[g].items != [] && GroupBy(rows, key)[g].items[0] == rows[i]
    ensures forall j :: 0 <= j < i ==> key(rows[j]) in Firsts(rows, key)[..g]
    ensures key(rows[i]) == GroupBy(rows, key)[g].key
  {
    i := GroupOpens(rows, key, g);
    RowIsFiled(rows, key, i);
    FirstsAreDistinct(rows, key);
    NotYet(rows[..i], key, key(rows[i]));
    forall j | 0 <= j < i ensures key(rows[j]) in Firsts(rows, key)[..g] {
      FirstsHave(rows[..i], key, j);
    }
  }

  predicate SortedBy<T>(rows: seq<T>, rank: T -> int) {
    forall i, j :: 0 <= i < j < |rows| ==> rank(rows[i]) <= rank(rows[j])
  }

  /** When the rows are sorted, each group's first item ranks lowest in its group, and the groups
      are sorted by their first items. */
  lemma {:induction false} GroupsAreSorted<T, K>(rows: seq<T>, key: T -> K, rank: T -> int, g: nat, h: nat)
    requires SortedBy(rows, rank) && g <= h < |GroupBy(rows, key)|
    ensures GroupBy(rows, key)[g].items != [] && GroupBy(rows, key)[h].items != []
    ensures forall x :: x in GroupBy(rows, key)[h].items ==> rank(GroupBy(rows, key)[g].items[0]) <= rank(x)
  {
    var i := FirstItem(rows, key, g);
    var ignored := FirstItem(rows, key, h);
    FirstsAreDistinct(rows, key);
    var k := GroupBy(rows, key)[h].key;
    OnlyOwnRows(rows, key, k);
    forall x | x in GroupBy(rows, key)[h].items ensures rank(rows[i]) <= rank(x) {
      var j :| 0 <= j < |rows| && rows[j] == x;
      assert key(rows[j]) == Firsts(rows, key)[h];
      assert j >= i;
    }
  }
}
