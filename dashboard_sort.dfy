/**
 * The dashboard's client-side sort (frontend/src/pages/Dashboard.tsx):
 * `[...investments].sort(compare)`, where `compare` subtracts the two keys
 * (ROI percentage, or the distribution instant) and multiplies by +1 or -1
 * for the direction. `Array.prototype.sort` is stable, so the result is
 * the unique stable ordering under `compare`; this module computes it by
 * insertion and proves it ordered, a permutation of its input, and stable.
 */
module DashboardSort {
  import opened Schema

  datatype SortField = RoiPercent | NextDistributionDate
  datatype SortDirection = Asc | Desc
  datatype SortState = SortState(field: SortField, direction: SortDirection)

  /** The value `compare` subtracts for a row. */
  function Key(row: Investment, field: SortField): (k: real) {
    match field
    case RoiPercent => row.roiPercent
    case NextDistributionDate => row.nextDistribution as real
  }

  /**
   * The comparator: `(key(a) - key(b)) * multiplier`. It is negative exactly
   * when `a` belongs first in the chosen direction, and zero on a tie.
   */
  function Compare(a: Investment, b: Investment, s: SortState): (r: real)
    ensures s.direction == Asc ==> (r < 0.0 <==> Key(a, s.field) < Key(b, s.field))
    ensures s.direction == Desc ==> (r < 0.0 <==> Key(a, s.field) > Key(b, s.field))
    ensures r == 0.0 <==> Key(a, s.field) == Key(b, s.field)
  {
    var multiplier := if s.direction == Asc then 1.0 else -1.0;
    (Key(a, s.field) - Key(b, s.field)) * multiplier
  }

  /** `a` may stand before `b`: the comparator does not put `b` first. */
  predicate InOrder(a: Investment, b: Investment, s: SortState) {
    Compare(a, b, s) <= 0.0
  }

  /** What InOrder means in terms of the keys, per direction. */
  lemma InOrderMeaning(a: Investment, b: Investment, s: SortState)
    ensures s.direction == Asc ==> (InOrder(a, b, s) <==> Key(a, s.field) <= Key(b, s.field))
    ensures s.direction == Desc ==> (InOrder(a, b, s) <==> Key(a, s.field) >= Key(b, s.field))
    ensures Compare(a, b, s) == 0.0 <==> Key(a, s.field) == Key(b, s.field)
  {
  }

  predicate Sorted(rows: seq<Investment>, s: SortState) {
    forall i, j :: 0 <= i < j < |rows| ==> InOrder(rows[i], rows[j], s)
  }

  /** The rows of `rows` whose key is `k`, in their order. */
  function WithKey(rows: seq<Investment>, field: SortField, k: real): (r: seq<Investment>) {
    if rows == [] then []
    else if Key(rows[0], field) == k then [rows[0]] + WithKey(rows[1..], field, k)
    else WithKey(rows[1..], field, k)
  }

  /** Inserts `x` before the first row it is in order with. */
  function Insert(x: Investment, rows: seq<Investment>, s: SortState): (r: seq<Investment>) {
    if rows == [] then [x]
    else if InOrder(x, rows[0], s) then [x] + rows
    else [rows[0]] + Insert(x, rows[1..], s)
  }

  // ---------------------------------------------------------------------
  // Insert
  // ---------------------------------------------------------------------

  lemma {:induction false} InsertPermutes(x: Investment, rows: seq<Investment>, s: SortState)
    ensures multiset(Insert(x, rows, s)) == multiset(rows) + multiset{x}
  {
    if rows != [] && !InOrder(x, rows[0], s) {
      InsertPermutes(x, rows[1..], s);
      assert rows == [rows[0]] + rows[1..];
    }
  }

  lemma {:induction false} InsertSorted(x: Investment, rows: seq<Investment>, s: SortState)
    requires Sorted(rows, s)
    ensures Sorted(Insert(x, rows, s), s)
  {
    if rows == [] {
    } else if InOrder(x, rows[0], s) {
      var r := [x] + rows;
      forall i, j | 0 <= i < j < |r| ensures InOrder(r[i], r[j], s) {
        if i == 0 {
          assert r[j] == rows[j - 1];
          InOrderMeaning(x, rows[0], s);
          InOrderMeaning(rows[0], rows[j - 1], s);
          InOrderMeaning(x, rows[j - 1], s);
        } else {
          assert r[i] == rows[i - 1] && r[j] == rows[j - 1];
        }
      }
    } else {
      var rest := Insert(x, rows[1..], s);
      InsertSorted(x, rows[1..], s);
      InsertPermutes(x, rows[1..], s);
      var r := [rows[0]] + rest;
      forall i, j | 0 <= i < j < |r| ensures InOrder(r[i], r[j], s) {
        if i == 0 {
          var e := rest[j - 1];
          assert r[j] == e;
          assert e in multiset(rest);
          if e == x {
            InOrderMeaning(x, rows[0], s);
            InOrderMeaning(rows[0], x, s);
          } else {
            assert e in multiset(rows[1..]);
            var m :| 0 <= m < |rows[1..]| && rows[1..][m] == e;
            assert rows[m + 1] == e;
          }
        } else {
          assert r[i] == rest[i - 1] && r[j] == rest[j - 1];
        }
      }
    }
  }

  /** Rows skipped over by Insert have a different key, so ties are not passed. */
  lemma {:induction false} InsertWithKey(x: Investment, rows: seq<Investment>, s: SortState, k: real)
    ensures WithKey(Insert(x, rows, s), s.field, k) == WithKey([x] + rows, s.field, k)
  {
    if rows == [] {
    } else if InOrder(x, rows[0], s) {
    } else {
      InOrderMeaning(x, rows[0], s);
      InsertWithKey(x, rows[1..], s, k);
      var r := [rows[0]] + Insert(x, rows[1..], s);
      assert r[0] == rows[0] && r[1..] == Insert(x, rows[1..], s);
      assert ([x] + rows)[0] == x && ([x] + rows)[1..] == rows;
      assert ([x] + rows[1..])[0] == x && ([x] + rows[1..])[1..] == rows[1..];
    }
  }

  // ---------------------------------------------------------------------
  // Sort
  // ---------------------------------------------------------------------

  /**
   * Insertion sort: the first row is inserted into the sorted rest. The
   * result holds the same rows, ordered under the comparator.
   */
  function Sort(rows: seq<Investment>, s: SortState): (r: seq<Investment>)
    ensures multiset(r) == multiset(rows)
    ensures |r| == |rows|
    ensures Sorted(r, s)
  {
    if rows == [] then []
    else
      var rest := Sort(rows[1..], s);
      InsertPermutes(rows[0], rest, s);
      InsertSorted(rows[0], rest, s);
      assert rows == [rows[0]] + rows[1..];
      assert |Insert(rows[0], rest, s)| == |multiset(Insert(rows[0], rest, s))|;
      Insert(rows[0], rest, s)
  }

  /** Rows with equal keys come out in the order they went in. */
  lemma {:induction false} SortStable(rows: seq<Investment>, s: SortState)
    ensures forall k :: WithKey(Sort(rows, s), s.field, k) == WithKey(rows, s.field, k)
  {
    if rows != [] {
      SortStable(rows[1..], s);
      var t := [rows[0]] + Sort(rows[1..], s);
      assert t[0] == rows[0] && t[1..] == Sort(rows[1..], s);
      forall k ensures WithKey(Sort(rows, s), s.field, k) == WithKey(rows, s.field, k) {
        InsertWithKey(rows[0], Sort(rows[1..], s), s, k);
      }
    }
  }

  /** In comparator order, keys rise when ascending and fall when descending. */
  lemma SortedByKey(rows: seq<Investment>, s: SortState)
    requires Sorted(rows, s)
    ensures s.direction == Asc ==>
      forall i, j :: 0 <= i < j < |rows| ==> Key(rows[i], s.field) <= Key(rows[j], s.field)
    ensures s.direction == Desc ==>
      forall i, j :: 0 <= i < j < |rows| ==> Key(rows[i], s.field) >= Key(rows[j], s.field)
  {
    forall i, j | 0 <= i < j < |rows|
      ensures s.direction == Asc ==> Key(rows[i], s.field) <= Key(rows[j], s.field)
      ensures s.direction == Desc ==> Key(rows[i], s.field) >= Key(rows[j], s.field)
    {
      InOrderMeaning(rows[i], rows[j], s);
    }
  }

  /**
   * `sortedInvestments`: a new sequence (the input is a value and stays as
   * it was) holding the same rows, ordered by the key in the chosen
   * direction, with rows of equal key in their input order.
   */
  function SortedInvestments(investments: seq<Investment>, s: SortState): (r: seq<Investment>)
    ensures multiset(r) == multiset(investments)
    ensures |r| == |investments|
    ensures s.direction == Asc ==>
      forall i, j :: 0 <= i < j < |r| ==> Key(r[i], s.field) <= Key(r[j], s.field)
    ensures s.direction == Desc ==>
      forall i, j :: 0 <= i < j < |r| ==> Key(r[i], s.field) >= Key(r[j], s.field)
    ensures forall k :: WithKey(r, s.field, k) == WithKey(investments, s.field, k)
  {
    SortedByKey(Sort(investments, s), s);
    SortStable(investments, s);
    Sort(investments, s)
  }

  // ---------------------------------------------------------------------
  // Ascending against descending
  // ---------------------------------------------------------------------

  /** No two rows share a key. */
  predicate DistinctKeys(rows: seq<Investment>, field: SortField) {
    forall i, j :: 0 <= i < j < |rows| ==> Key(rows[i], field) != Key(rows[j], field)
  }

  /** The comparator puts every earlier row strictly first. */
  predicate StrictlySorted(rows: seq<Investment>, s: SortState) {
    forall i, j :: 0 <= i < j < |rows| ==> Compare(rows[i], rows[j], s) < 0.0
  }

  function Reverse(rows: seq<Investment>): (r: seq<Investment>)
    ensures |r| == |rows|
    ensures forall i :: 0 <= i < |rows| ==> r[i] == rows[|rows| - 1 - i]
  {
    seq(|rows|, i requires 0 <= i < |rows| => rows[|rows| - 1 - i])
  }

  lemma {:induction false} ReversePermutes(rows: seq<Investment>)
    ensures multiset(Reverse(rows)) == multiset(rows)
  {
    if rows != [] {
      ReversePermutes(rows[1..]);
      assert Reverse(rows) == Reverse(rows[1..]) + [rows[0]];
      assert rows == [rows[0]] + rows[1..];
    }
  }

  lemma {:induction false} InsertKeepsKeysDistinct(x: Investment, rows: seq<Investment>, s: SortState)
    requires DistinctKeys(rows, s.field)
    requires forall e :: e in rows ==> Key(e, s.field) != Key(x, s.field)
    ensures DistinctKeys(Insert(x, rows, s), s.field)
  {
    if rows == [] {
    } else if InOrder(x, rows[0], s) {
      var r := [x] + rows;
      forall i, j | 0 <= i < j < |r| ensures Key(r[i], s.field) != Key(r[j], s.field) {
        assert r[j] == rows[j - 1];
        if i > 0 {
          assert r[i] == rows[i - 1];
        }
      }
    } else {
      var rest := Insert(x, rows[1..], s);
      assert DistinctKeys(rows[1..], s.field) by {
        forall i, j | 0 <= i < j < |rows[1..]|
          ensures Key(rows[1..][i], s.field) != Key(rows[1..][j], s.field)
        {
          assert rows[1..][i] == rows[i + 1] && rows[1..][j] == rows[j + 1];
        }
      }
      InsertKeepsKeysDistinct(x, rows[1..], s);
      InsertPermutes(x, rows[1..], s);
      var r := [rows[0]] + rest;
      forall i, j | 0 <= i < j < |r| ensures Key(r[i], s.field) != Key(r[j], s.field) {
        if i == 0 {
          var e := rest[j - 1];
          assert r[j] == e;
          assert e in multiset(rest);
          if e != x {
            assert e in multiset(rows[1..]);
            var m :| 0 <= m < |rows[1..]| && rows[1..][m] == e;
            assert rows[m + 1] == e;
          }
        } else {
          assert r[i] == rest[i - 1] && r[j] == rest[j - 1];
        }
      }
    }
  }

  lemma {:induction false} SortKeepsKeysDistinct(rows: seq<Investment>, s: SortState)
    requires DistinctKeys(rows, s.field)
    ensures DistinctKeys(Sort(rows, s), s.field)
  {
    if rows != [] {
      var tail := rows[1..];
      assert DistinctKeys(tail, s.field) by {
        forall i, j | 0 <= i < j < |tail| ensures Key(tail[i], s.field) != Key(tail[j], s.field) {
          assert tail[i] == rows[i + 1] && tail[j] == rows[j + 1];
        }
      }
      SortKeepsKeysDistinct(tail, s);
      forall e | e in Sort(tail, s) ensures Key(e, s.field) != Key(rows[0], s.field) {
        assert e in multiset(Sort(tail, s));
        assert e in multiset(tail);
        var m :| 0 <= m < |tail| && tail[m] == e;
        assert rows[m + 1] == e;
      }
      InsertKeepsKeysDistinct(rows[0], Sort(tail, s), s);
    }
  }

  /** In a strictly sorted sequence the first row comes strictly before every other. */
  lemma FirstIsLeast(a: seq<Investment>, s: SortState, e: Investment)
    requires StrictlySorted(a, s)
    requires e in a && e != a[0]
    ensures Compare(a[0], e, s) < 0.0
  {
    var i :| 0 <= i < |a| && a[i] == e;
  }

  lemma StrictlySortedTail(a: seq<Investment>, s: SortState)
    requires StrictlySorted(a, s) && a != []
    ensures StrictlySorted(a[1..], s)
  {
    forall p, q | 0 <= p < q < |a[1..]| ensures Compare(a[1..][p], a[1..][q], s) < 0.0 {
      assert a[1..][p] == a[p + 1] && a[1..][q] == a[q + 1];
    }
  }

  /** Two strictly sorted arrangements of the same rows are the same sequence. */
  lemma {:induction false} StrictlySortedUnique(a: seq<Investment>, b: seq<Investment>, s: SortState)
    requires StrictlySorted(a, s) && StrictlySorted(b, s)
    requires multiset(a) == multiset(b)
    ensures a == b
    decreases |a|
  {
    if a == [] {
      assert |multiset(b)| == 0;
    } else {
      assert |b| == |multiset(b)| == |multiset(a)| == |a|;
      HeadsAgree(a, b, s);
      MultisetTail(a);
      MultisetTail(b);
      StrictlySortedTail(a, s);
      StrictlySortedTail(b, s);
      StrictlySortedUnique(a[1..], b[1..], s);
      assert a == [a[0]] + a[1..] && b == [b[0]] + b[1..];
    }
  }

  lemma MultisetTail(a: seq<Investment>)
    requires a != []
    ensures multiset(a[1..]) == multiset(a) - multiset{a[0]}
  {
    assert a == [a[0]] + a[1..];
  }

  lemma HeadsAgree(a: seq<Investment>, b: seq<Investment>, s: SortState)
    requires StrictlySorted(a, s) && StrictlySorted(b, s)
    requires multiset(a) == multiset(b) && a != [] && b != []
    ensures a[0] == b[0]
  {
    assert b[0] in multiset(b) && a[0] in multiset(a);
    var x, y := a[0], b[0];
    assert y in a && x in b;
    if x != y {
      FirstIsLeast(a, s, y);
      FirstIsLeast(b, s, x);
      assert false;
    }
  }

  /**
   * When no two rows share a key, the descending sort is the ascending one
   * reversed.
   */
  lemma DescendingReversesAscending(rows: seq<Investment>, field: SortField)
    requires DistinctKeys(rows, field)
    ensures SortedInvestments(rows, SortState(field, Desc))
         == Reverse(SortedInvestments(rows, SortState(field, Asc)))
  {
    var asc, desc := SortState(field, Asc), SortState(field, Desc);
    var up, down := Sort(rows, asc), Sort(rows, desc);
    SortKeepsKeysDistinct(rows, asc);
    SortKeepsKeysDistinct(rows, desc);
    assert StrictlySorted(down, desc) by {
      forall i, j | 0 <= i < j < |down| ensures Compare(down[i], down[j], desc) < 0.0 {
        InOrderMeaning(down[i], down[j], desc);
      }
    }
    var back := Reverse(up);
    assert StrictlySorted(back, desc) by {
      forall i, j | 0 <= i < j < |back| ensures Compare(back[i], back[j], desc) < 0.0 {
        var n := |up|;
        assert back[i] == up[n - 1 - i] && back[j] == up[n - 1 - j];
        InOrderMeaning(up[n - 1 - j], up[n - 1 - i], asc);
        InOrderMeaning(back[i], back[j], desc);
      }
    }
    ReversePermutes(up);
    StrictlySortedUnique(down, back, desc);
  }

  /** With a tie the claim fails: both directions keep tied rows in input order. */
  lemma TiesAreNotReversed(a: Investment, b: Investment)
    requires a != b && a.roiPercent == b.roiPercent
    ensures SortedInvestments([a, b], SortState(RoiPercent, Asc)) == [a, b]
    ensures SortedInvestments([a, b], SortState(RoiPercent, Desc)) == [a, b]
    ensures SortedInvestments([a, b], SortState(RoiPercent, Desc))
         != Reverse(SortedInvestments([a, b], SortState(RoiPercent, Asc)))
  {
    assert [a, b][1..] == [b];
    assert Reverse([a, b])[0] == b;
  }
}
