/** Lookups in ordered sequences, as JavaScript's `Array.prototype.indexOf` does them. */
module Sequences {

  /**
   Position of the first element equal to `x`, or -1 when there is none.
   */
  function IndexOf<T(==)>(s: seq<T>, x: T): (r: int)
    ensures -1 <= r < |s|
    ensures r == -1 <==> x !in s
    ensures 0 <= r ==> s[r] == x && forall j :: 0 <= j < r ==> s[j] != x
  {
    if s == [] then -1
    else if s[0] == x then 0
    else
      var k := IndexOf(s[1..], x);
      if k == -1 then -1 else k + 1
  }

  /** The first occurrence is unique: any position that holds `x` with no earlier `x` is it. */
  lemma IndexOfIsFirst<T>(s: seq<T>, x: T, k: int)
    requires 0 <= k < |s| && s[k] == x && forall j :: 0 <= j < k ==> s[j] != x
    ensures IndexOf(s, x) == k
  {
  }

  /** Appending an element that is not yet present puts its first occurrence at the end. */
  lemma IndexOfAppendFresh<T>(s: seq<T>, x: T)
    requires x !in s
    ensures IndexOf(s + [x], x) == |s|
  {
    IndexOfIsFirst(s + [x], x, |s|);
  }

  /** No element occurs twice. */
  predicate Distinct<T(==)>(s: seq<T>)
  {
    forall i, j :: 0 <= i < j < |s| ==> s[i] != s[j]
  }

  /**
   The sequence with the element at `from` taken out and put back so that it
   ends up at position `to`: how a single dragged item reorders a list.
   */
  function Move<T>(s: seq<T>, from: nat, to: nat): (r: seq<T>)
    requires from < |s| && to < |s|
    ensures |r| == |s|
  {
    var rest := s[..from] + s[from + 1..];
    rest[..to] + [s[from]] + rest[to..]
  }

  /** Where the element at position `j` of `Move(s, from, to)` came from. */
  function MoveSource(from: nat, to: nat, j: nat): (r: nat)
  {
    if j == to then from
    else
      var inRest := if j < to then j else j - 1;
      if inRest < from then inRest else inRest + 1
  }

  lemma MoveAt<T>(s: seq<T>, from: nat, to: nat, j: nat)
    requires from < |s| && to < |s| && j < |s|
    ensures MoveSource(from, to, j) < |s|
    ensures Move(s, from, to)[j] == s[MoveSource(from, to, j)]
  {
  }

  /** Moving one element keeps the elements distinct. */
  lemma MoveDistinct<T>(s: seq<T>, from: nat, to: nat)
    requires from < |s| && to < |s| && Distinct(s)
    ensures Distinct(Move(s, from, to))
  {
    var m := Move(s, from, to);
    forall i, j | 0 <= i < j < |m|
      ensures m[i] != m[j]
    {
      MoveAt(s, from, to, i);
      MoveAt(s, from, to, j);
    }
  }

  /** In a sequence without repetitions, the element at `k` is found at `k`. */
  lemma IndexOfDistinct<T>(s: seq<T>, k: nat)
    requires k < |s| && Distinct(s)
    ensures IndexOf(s, s[k]) == k
  {
    IndexOfIsFirst(s, s[k], k);
  }

  /**
   After `Move(s, from, to)` on a sequence without repetitions, the moved element
   is at `to`; the elements strictly between the two slots, and the one at `to`,
   slide one place towards `from`; all others stay where they were.
   */
  lemma IndexAfterMove<T>(s: seq<T>, from: nat, to: nat, k: nat)
    requires from < |s| && to < |s| && k < |s| && Distinct(s)
    ensures IndexOf(Move(s, from, to), s[k]) ==
            if k == from then to
            else if from < k <= to then k - 1
            else if to <= k < from then k + 1
            else k
  {
    var m := Move(s, from, to);
    var j := if k == from then to
             else if from < k <= to then k - 1
             else if to <= k < from then k + 1
             else k;
    MoveAt(s, from, to, j);
    MoveDistinct(s, from, to);
    IndexOfDistinct(m, j);
  }
}
