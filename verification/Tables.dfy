/** SQL tables as row sequences: DELETE ... WHERE and aggregate queries. */
module Tables {

  /** The rows a DELETE leaves behind, or a SELECT returns, in table order. */
  function Filter<T>(rows: seq<T>, keep: T -> bool): seq<T> {
    if rows == [] then []
    else (if keep(rows[0]) then [rows[0]] else []) + Filter(rows[1..], keep)
  }

  /** The number of leading rows the predicate rejects. */
  function Boundary<T>(rows: seq<T>, keep: T -> bool): (n: nat)
    ensures n <= |rows|
    ensures forall i :: 0 <= i < n ==> !keep(rows[i])
    ensures n < |rows| ==> keep(rows[n])
  {
    if rows == [] || keep(rows[0]) then 0 else 1 + Boundary(rows[1..], keep)
  }

  /** When rejected rows come first, filtering keeps exactly the rest. */
  lemma {:induction false} FilterSuffix<T>(rows: seq<T>, keep: T -> bool, n: nat)
    requires n <= |rows|
    requires forall i :: 0 <= i < n ==> !keep(rows[i])
    requires forall i :: n <= i < |rows| ==> keep(rows[i])
    ensures Filter(rows, keep) == rows[n..]
  {
    if rows != [] {
      FilterSuffix(rows[1..], keep, if n == 0 then 0 else n - 1);
      if n == 0 {
        assert rows == [rows[0]] + rows[1..];
      }
    }
  }

  /** When accepted rows come first, filtering keeps exactly that prefix. */
  lemma {:induction false} FilterPrefix<T>(rows: seq<T>, keep: T -> bool, n: nat)
    requires n <= |rows|
    requires forall i :: 0 <= i < n ==> keep(rows[i])
    requires forall i :: n <= i < |rows| ==> !keep(rows[i])
    ensures Filter(rows, keep) == rows[..n]
  {
    if rows != [] {
      FilterPrefix(rows[1..], keep, if n == 0 then 0 else n - 1);
      if n > 0 {
        assert rows[..n] == [rows[0]] + rows[1..][..n - 1];
      }
    }
  }

  lemma {:induction false} FilterConcat<T>(a: seq<T>, b: seq<T>, keep: T -> bool)
    ensures Filter(a + b, keep) == Filter(a, keep) + Filter(b, keep)
  {
    if a == [] {
      assert a + b == b;
    } else {
      FilterConcat(a[1..], b, keep);
      assert (a + b)[0] == a[0] && (a + b)[1..] == a[1..] + b;
    }
  }

  lemma {:induction false} FilterNone<T>(rows: seq<T>, keep: T -> bool)
    requires forall i :: 0 <= i < |rows| ==> !keep(rows[i])
    ensures Filter(rows, keep) == []
  {
    FilterSuffix(rows, keep, |rows|);
  }

  lemma {:induction false} FilterShrinks<T>(rows: seq<T>, keep: T -> bool)
    ensures |Filter(rows, keep)| <= |rows|
  {
    if rows != [] {
      FilterShrinks(rows[1..], keep);
    }
  }

  /** Rows kept only between two positions are at most that many. */
  lemma FilterBetween<T>(rows: seq<T>, keep: T -> bool, lo: nat, hi: nat)
    requires lo <= hi <= |rows|
    requires forall i :: 0 <= i < lo ==> !keep(rows[i])
    requires forall i :: hi <= i < |rows| ==> !keep(rows[i])
    ensures |Filter(rows, keep)| <= hi - lo
  {
    hide Filter;
    var head, middle, tail := rows[..lo], rows[lo..hi], rows[hi..];
    FilterNone(tail, keep);
    FilterNone(head, keep);
    FilterShrinks(middle, keep);
    FilterConcat(head, middle, keep);
    FilterConcat(head + middle, tail, keep);
    assert rows == head + middle + tail;
  }

  lemma {:induction false} FilterKeeps<T>(rows: seq<T>, keep: T -> bool)
    ensures forall i :: 0 <= i < |Filter(rows, keep)| ==> keep(Filter(rows, keep)[i])
  {
    if rows != [] {
      FilterKeeps(rows[1..], keep);
    }
  }

  lemma {:induction false} FilterFromRows<T>(rows: seq<T>, keep: T -> bool)
    ensures forall i :: 0 <= i < |Filter(rows, keep)| ==> Filter(rows, keep)[i] in rows
  {
    if rows != [] {
      FilterFromRows(rows[1..], keep);
    }
  }

  function Repeat<T>(value: T, count: nat): (s: seq<T>)
    ensures |s| == count && forall i :: 0 <= i < count ==> s[i] == value
  {
    seq(count, _ => value)
  }
}
