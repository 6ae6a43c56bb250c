/** Python list slicing with step 1, `l[start:stop]` and `l[start:stop] = v`.
    Bounds are integers: a negative bound counts from the end, and both are
    clamped to the list. Reading copies; assigning a list of another length
    changes the length of the list. */
module Slices {

  datatype Slice = Slice(start: int, stop: int)

  /** Where a bound `i` falls in a list of length `n`. */
  function Clamp(i: int, n: nat): (r: nat)
    ensures r <= n
    ensures 0 <= i <= n ==> r == i
  {
    if i < 0 then (if i + n < 0 then 0 else i + n)
    else if i > n then n
    else i
  }

  /** First index a slice covers in a list of length `n`. */
  function Lo(s: Slice, n: nat): (r: nat)
    ensures r <= n
  {
    Clamp(s.start, n)
  }

  /** One past the last index a slice covers; never below `Lo`. */
  function Hi(s: Slice, n: nat): (r: nat)
    ensures Lo(s, n) <= r <= n
  {
    var lo, hi := Lo(s, n), Clamp(s.stop, n);
    if hi < lo then lo else hi
  }

  /** The slice lies inside a list of length `n` as written. */
  predicate Within(s: Slice, n: nat) {
    0 <= s.start <= s.stop <= n
  }

  /** The number of elements a slice covers in a list of length `n`. */
  function Len(s: Slice, n: nat): nat {
    Hi(s, n) - Lo(s, n)
  }

  /** Two slices that share no index. */
  predicate Disjoint(a: Slice, b: Slice) {
    a.stop <= b.start || b.stop <= a.start
  }

  lemma WithinBounds(s: Slice, n: nat)
    requires Within(s, n)
    ensures Lo(s, n) == s.start && Hi(s, n) == s.stop && Len(s, n) == s.stop - s.start
  {
  }

  /** `l[s]`: a copy of the covered elements. */
  function Get<T>(l: seq<T>, s: Slice): (r: seq<T>)
    ensures |r| == Len(s, |l|)
    ensures forall i :: 0 <= i < |r| ==> r[i] == l[Lo(s, |l|) + i]
  {
    l[Lo(s, |l|)..Hi(s, |l|)]
  }

  /** `l[s] = v`: the covered elements are replaced by all of `v`. */
  function Set<T>(l: seq<T>, s: Slice, v: seq<T>): (r: seq<T>)
    ensures |r| == |l| - Len(s, |l|) + |v|
  {
    var lo, hi := Lo(s, |l|), Hi(s, |l|);
    seq(|l| - (hi - lo) + |v|, i requires 0 <= i < |l| - (hi - lo) + |v| =>
      if i < lo then l[i] else if i < lo + |v| then v[i - lo] else l[i - lo - |v| + hi])
  }

  /** Element by element: the prefix before the slice, then `v`, then the
      elements after the slice, shifted by the change of length. */
  lemma SetAt<T>(l: seq<T>, s: Slice, v: seq<T>, i: int)
    requires 0 <= i < |Set(l, s, v)|
    ensures var lo, hi := Lo(s, |l|), Hi(s, |l|);
      Set(l, s, v)[i] == if i < lo then l[i] else if i < lo + |v| then v[i - lo] else l[i - lo - |v| + hi]
  {
  }

  /** Assigning a list as long as the slice keeps the length and changes
      exactly the covered positions. */
  lemma SetSameLengthAt<T>(l: seq<T>, s: Slice, v: seq<T>, i: int)
    requires |v| == Len(s, |l|) && 0 <= i < |l|
    ensures |Set(l, s, v)| == |l|
    ensures var lo := Lo(s, |l|);
      Set(l, s, v)[i] == if lo <= i < lo + |v| then v[i - lo] else l[i]
  {
    SetAt(l, s, v, i);
  }

  /** The same, for a slice written inside the list. */
  lemma SetWithinAt<T>(l: seq<T>, s: Slice, v: seq<T>, i: int)
    requires Within(s, |l|) && |v| == s.stop - s.start && 0 <= i < |l|
    ensures |Set(l, s, v)| == |l|
    ensures Set(l, s, v)[i] == if s.start <= i < s.stop then v[i - s.start] else l[i]
  {
    WithinBounds(s, |l|);
    SetSameLengthAt(l, s, v, i);
  }

  /** Slice assignment splices: the list before the slice, then `v`, then
      the list after the slice. */
  lemma SetSplices<T>(l: seq<T>, s: Slice, v: seq<T>)
    ensures Set(l, s, v) == l[..Lo(s, |l|)] + v + l[Hi(s, |l|)..]
  {
    var lo, hi := Lo(s, |l|), Hi(s, |l|);
    var r, e := Set(l, s, v), l[..lo] + v + l[hi..];
    forall i | 0 <= i < |r|
      ensures r[i] == e[i]
    {
      SetAt(l, s, v, i);
    }
  }

  /** Reading back the slice just assigned gives the assigned list. */
  lemma GetAfterSet<T>(l: seq<T>, s: Slice, v: seq<T>)
    requires |v| == Len(s, |l|)
    ensures Get(Set(l, s, v), s) == v
  {
    var r := Set(l, s, v);
    forall j | 0 <= j < |v|
      ensures Get(r, s)[j] == v[j]
    {
      SetSameLengthAt(l, s, v, Lo(s, |l|) + j);
    }
  }

  /** Assigning a slice its own contents changes nothing. */
  lemma SetOwnContents<T>(l: seq<T>, s: Slice)
    ensures Set(l, s, Get(l, s)) == l
  {
    var lo, hi := Lo(s, |l|), Hi(s, |l|);
    assert l[..lo] + l[lo..hi] + l[hi..] == l;
  }
}
