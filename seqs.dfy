/** Sequence helpers shared by the in-memory tables: a document collection is a
    sequence of records in insertion (natural) order. */
module Seqs {
  import opened Wrappers

  /** The elements of `s` satisfying `p`, in their original order (a `find` with a filter). */
  function Filter<T(!new)>(s: seq<T>, p: T -> bool): (r: seq<T>)
    ensures |r| <= |s|
    ensures forall x :: x in r <==> x in s && p(x)
    ensures forall x :: multiset(r)[x] == if p(x) then multiset(s)[x] else 0
  {
    if s == [] then []
    else
      assert s == [s[0]] + s[1..];
      (if p(s[0]) then [s[0]] else []) + Filter(s[1..], p)
  }

  /** Filtering keeps the order of the table: the kept elements of a front part
      come before those of the rest. */
  lemma {:induction false} FilterConcat<T(!new)>(a: seq<T>, b: seq<T>, p: T -> bool)
    ensures Filter(a + b, p) == Filter(a, p) + Filter(b, p)
  {
    if a == [] {
      assert a + b == b;
    } else {
      assert (a + b)[1..] == a[1..] + b;
      FilterConcat(a[1..], b, p);
    }
  }

  /** Dropping an element that fails `p` makes the result strictly shorter. */
  lemma {:induction false} FilterDrops<T(!new)>(s: seq<T>, p: T -> bool, i: nat)
    requires i < |s| && !p(s[i])
    ensures |Filter(s, p)| < |s|
  {
    if i > 0 {
      FilterDrops(s[1..], p, i - 1);
    }
  }

  /** The position of the first element satisfying `p` (what `FindOne` without a sort returns). */
  function FirstIndex<T>(s: seq<T>, p: T -> bool): (r: Option<nat>)
    ensures r.Some? ==> r.value < |s| && p(s[r.value])
    ensures r.Some? ==> forall j :: 0 <= j < r.value ==> !p(s[j])
    ensures r.None? <==> forall j :: 0 <= j < |s| ==> !p(s[j])
  {
    if s == [] then None
    else if p(s[0]) then Some(0)
    else match FirstIndex(s[1..], p)
      case None => None
      case Some(i) => Some(i + 1)
  }

  /** `s` without the element at position `i`. */
  function RemoveAt<T>(s: seq<T>, i: nat): (r: seq<T>)
    requires i < |s|
    ensures |r| == |s| - 1
    ensures forall j :: 0 <= j < i ==> r[j] == s[j]
    ensures forall j :: i <= j < |r| ==> r[j] == s[j + 1]
    ensures forall x :: x in r ==> x in s
    ensures forall j :: 0 <= j < |s| && j != i ==> s[j] in r
  {
    var r := s[..i] + s[i + 1..];
    assert forall j :: 0 <= j < |s| && j != i ==> s[j] == r[if j < i then j else j - 1];
    r
  }
}
