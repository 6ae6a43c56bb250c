/** The region transforms that both generations of the engine apply to a
    channel (a list of integer samples) or to the first two channels of a
    stream. Each function is the slice reads and slice assignments the Python
    code performs; the lemmas beside it say what the result is sample by
    sample, which samples it leaves alone, and when it undoes itself. */
module Regions {
  import opened Slices
  import opened Arith

  /** A stream: its channels, each a list of samples. */
  type Stream = seq<seq<int>>

  // ---------------------------------------------------------------- Invert

  function Negated(xs: seq<int>): (r: seq<int>)
    ensures |r| == |xs|
  {
    seq(|xs|, i requires 0 <= i < |xs| => -xs[i])
  }

  /** `ch[s] = map(lambda x: x * -1, ch[s])` */
  function Invert(ch: seq<int>, s: Slice): seq<int> {
    Set(ch, s, Negated(Get(ch, s)))
  }

  lemma InvertAt(ch: seq<int>, s: Slice, i: int)
    requires 0 <= i < |ch|
    ensures |Invert(ch, s)| == |ch|
    ensures Invert(ch, s)[i] == if Lo(s, |ch|) <= i < Hi(s, |ch|) then -ch[i] else ch[i]
  {
    SetSameLengthAt(ch, s, Negated(Get(ch, s)), i);
  }

  /** Exactly the covered samples are negated, whatever the slice. */
  lemma InvertNegatesRegion(ch: seq<int>, s: Slice)
    ensures |Invert(ch, s)| == |ch|
    ensures forall i :: 0 <= i < |ch| ==>
      Invert(ch, s)[i] == if Lo(s, |ch|) <= i < Hi(s, |ch|) then -ch[i] else ch[i]
  {
    forall i | 0 <= i < |ch| {
      InvertAt(ch, s, i);
    }
  }

  lemma InvertInvolutive(ch: seq<int>, s: Slice)
    ensures Invert(Invert(ch, s), s) == ch
  {
    var once := Invert(ch, s);
    forall i | 0 <= i < |ch|
      ensures Invert(once, s)[i] == ch[i]
    {
      InvertAt(ch, s, i);
      InvertAt(once, s, i);
    }
  }

  // ---------------------------------------------------------------- Reverse

  /** `list(reversed(xs))` */
  function Reversed(xs: seq<int>): (r: seq<int>)
    ensures |r| == |xs|
  {
    seq(|xs|, i requires 0 <= i < |xs| => xs[|xs| - 1 - i])
  }

  /** `ch[s] = list(reversed(ch[s]))` */
  function Reverse(ch: seq<int>, s: Slice): seq<int> {
    Set(ch, s, Reversed(Get(ch, s)))
  }

  lemma ReverseAt(ch: seq<int>, s: Slice, i: int)
    requires 0 <= i < |ch|
    ensures |Reverse(ch, s)| == |ch|
    ensures var lo, hi := Lo(s, |ch|), Hi(s, |ch|);
      Reverse(ch, s)[i] == if lo <= i < hi then ch[lo + hi - 1 - i] else ch[i]
  {
    SetSameLengthAt(ch, s, Reversed(Get(ch, s)), i);
  }

  /** y is x with the samples in [lo, hi) in reverse order and nothing else moved. */
  ghost predicate Mirrored(x: seq<int>, y: seq<int>, lo: int, hi: int) {
    && |y| == |x|
    && 0 <= lo <= hi <= |x|
    && (forall i :: lo <= i < hi ==> y[i] == x[lo + hi - 1 - i])
    && (forall i :: 0 <= i < |x| && !(lo <= i < hi) ==> y[i] == x[i])
  }

  /** The covered samples appear in reverse order; the others stay. */
  lemma ReverseMirrorsRegion(ch: seq<int>, s: Slice)
    ensures Mirrored(ch, Reverse(ch, s), Lo(s, |ch|), Hi(s, |ch|))
  {
    var lo, hi := Lo(s, |ch|), Hi(s, |ch|);
    var r := Reverse(ch, s);
    forall i | lo <= i < hi
      ensures r[i] == ch[lo + hi - 1 - i]
    {
      ReverseAt(ch, s, i);
    }
    forall i | 0 <= i < |ch| && !(lo <= i < hi)
      ensures r[i] == ch[i]
    {
      ReverseAt(ch, s, i);
    }
  }

  lemma MirroredTwice(x: seq<int>, y: seq<int>, z: seq<int>, lo: int, hi: int)
    requires Mirrored(x, y, lo, hi) && Mirrored(y, z, lo, hi)
    ensures z == x
  {
    forall i | 0 <= i < |x|
      ensures z[i] == x[i]
    {
      if lo <= i < hi {
        assert z[i] == y[lo + hi - 1 - i];
      }
    }
  }

  lemma ReverseInvolutive(ch: seq<int>, s: Slice)
    ensures Reverse(Reverse(ch, s), s) == ch
  {
    var once := Reverse(ch, s);
    ReverseMirrorsRegion(ch, s);
    ReverseMirrorsRegion(once, s);
    MirroredTwice(ch, once, Reverse(once, s), Lo(s, |ch|), Hi(s, |ch|));
  }

  // ---------------------------------------------------------------- Swap

  /** `t = ch[a]; ch[a] = ch[b]; ch[b] = t`: both reads happen before either write. */
  function Swap(ch: seq<int>, a: Slice, b: Slice): seq<int> {
    Set(Set(ch, a, Get(ch, b)), b, Get(ch, a))
  }

  /** Two slices inside a list of length n, of one length, overlapping or not. */
  predicate Matched(a: Slice, b: Slice, n: nat) {
    Within(a, n) && Within(b, n) && a.stop - a.start == b.stop - b.start
  }

  /** Equal-length slices keep the channel length, even when they overlap. */
  lemma SwapKeepsLength(ch: seq<int>, a: Slice, b: Slice)
    requires Matched(a, b, |ch|)
    ensures |Swap(ch, a, b)| == |ch|
  {
    WithinBounds(a, |ch|);
    WithinBounds(b, |ch|);
    var first := Set(ch, a, Get(ch, b));
    assert |first| == |ch|;
    WithinBounds(b, |first|);
  }

  lemma SwapAt(ch: seq<int>, a: Slice, b: Slice, i: int)
    requires Matched(a, b, |ch|) && Disjoint(a, b) && 0 <= i < |ch|
    ensures |Swap(ch, a, b)| == |ch|
    ensures Swap(ch, a, b)[i] ==
      if a.start <= i < a.stop then ch[i - a.start + b.start]
      else if b.start <= i < b.stop then ch[i - b.start + a.start]
      else ch[i]
  {
    WithinBounds(a, |ch|);
    WithinBounds(b, |ch|);
    var first := Set(ch, a, Get(ch, b));
    SetWithinAt(ch, a, Get(ch, b), i);
    SetWithinAt(first, b, Get(ch, a), i);
  }

  /** y is x with the disjoint equal-length regions a and b exchanged. */
  ghost predicate Exchanged(x: seq<int>, y: seq<int>, a: Slice, b: Slice) {
    && Matched(a, b, |x|)
    && |y| == |x|
    && (forall i :: a.start <= i < a.stop ==> y[i] == x[i - a.start + b.start])
    && (forall i :: b.start <= i < b.stop ==> y[i] == x[i - b.start + a.start])
    && (forall i :: 0 <= i < |x| && !(a.start <= i < a.stop) && !(b.start <= i < b.stop) ==> y[i] == x[i])
  }

  /** Disjoint equal-length slices exchange their contents; nothing else moves. */
  lemma SwapExchanges(ch: seq<int>, a: Slice, b: Slice)
    requires Matched(a, b, |ch|) && Disjoint(a, b)
    ensures Exchanged(ch, Swap(ch, a, b), a, b)
  {
    SwapKeepsLength(ch, a, b);
    var r := Swap(ch, a, b);
    forall i | a.start <= i < a.stop
      ensures r[i] == ch[i - a.start + b.start]
    {
      SwapAt(ch, a, b, i);
    }
    forall i | b.start <= i < b.stop
      ensures r[i] == ch[i - b.start + a.start]
    {
      SwapAt(ch, a, b, i);
    }
    forall i | 0 <= i < |ch| && !(a.start <= i < a.stop) && !(b.start <= i < b.stop)
      ensures r[i] == ch[i]
    {
      SwapAt(ch, a, b, i);
    }
  }

  lemma ExchangedTwice(x: seq<int>, y: seq<int>, z: seq<int>, a: Slice, b: Slice)
    requires Matched(a, b, |x|) && Disjoint(a, b)
    requires Exchanged(x, y, a, b) && Exchanged(y, z, a, b)
    ensures z == x
  {
    forall i | 0 <= i < |x|
      ensures z[i] == x[i]
    {
      if a.start <= i < a.stop {
        assert z[i] == y[i - a.start + b.start];
      } else if b.start <= i < b.stop {
        assert z[i] == y[i - b.start + a.start];
      }
    }
  }

  lemma SwapInvolutive(ch: seq<int>, a: Slice, b: Slice)
    requires Matched(a, b, |ch|) && Disjoint(a, b)
    ensures Swap(Swap(ch, a, b), a, b) == ch
  {
    var once := Swap(ch, a, b);
    SwapExchanges(ch, a, b);
    SwapExchanges(once, a, b);
    ExchangedTwice(ch, once, Swap(once, a, b), a, b);
  }

  // ---------------------------------------------------------------- Dup

  /** `ch[b] = ch[a]` */
  function Dup(ch: seq<int>, a: Slice, b: Slice): seq<int> {
    Set(ch, b, Get(ch, a))
  }

  lemma DupAt(ch: seq<int>, a: Slice, b: Slice, i: int)
    requires Matched(a, b, |ch|) && 0 <= i < |ch|
    ensures |Dup(ch, a, b)| == |ch|
    ensures Dup(ch, a, b)[i] == if b.start <= i < b.stop then ch[i - b.start + a.start] else ch[i]
  {
    WithinBounds(a, |ch|);
    SetWithinAt(ch, b, Get(ch, a), i);
  }

  /** y is x with region b overwritten by the old contents of region a. */
  ghost predicate Copied(x: seq<int>, y: seq<int>, a: Slice, b: Slice) {
    && Matched(a, b, |x|)
    && |y| == |x|
    && (forall i :: b.start <= i < b.stop ==> y[i] == x[i - b.start + a.start])
    && (forall i :: 0 <= i < |x| && !(b.start <= i < b.stop) ==> y[i] == x[i])
  }

  /** Region b receives the old region a (even when they overlap); the rest stays. */
  lemma DupCopies(ch: seq<int>, a: Slice, b: Slice)
    requires Matched(a, b, |ch|)
    ensures Copied(ch, Dup(ch, a, b), a, b)
  {
    var r := Dup(ch, a, b);
    WithinBounds(a, |ch|);
    WithinBounds(b, |ch|);
    forall i | b.start <= i < b.stop
      ensures r[i] == ch[i - b.start + a.start]
    {
      DupAt(ch, a, b, i);
    }
    forall i | 0 <= i < |ch| && !(b.start <= i < b.stop)
      ensures r[i] == ch[i]
    {
      DupAt(ch, a, b, i);
    }
  }

  /** When the copy does not overwrite its source, copying again changes nothing. */
  lemma DupIdempotent(ch: seq<int>, a: Slice, b: Slice)
    requires Matched(a, b, |ch|) && Disjoint(a, b)
    ensures Dup(Dup(ch, a, b), a, b) == Dup(ch, a, b)
  {
    DupCopies(ch, a, b);
    var once := Dup(ch, a, b);
    forall i | 0 <= i < |ch|
      ensures Dup(once, a, b)[i] == once[i]
    {
      DupAt(once, a, b, i);
      if b.start <= i < b.stop {
        DupAt(ch, a, b, i - b.start + a.start);
      }
    }
  }

  // ---------------------------------------------------------------- Stutter

  /** `xs * n`: the list repeated n times, empty when n <= 0. */
  function Repeat(xs: seq<int>, n: int): (r: seq<int>)
    decreases n
  {
    if n <= 0 then [] else xs + Repeat(xs, n - 1)
  }

  lemma {:induction false} RepeatLength(xs: seq<int>, n: nat)
    ensures |Repeat(xs, n)| == n * |xs|
  {
    if n > 0 {
      RepeatLength(xs, n - 1);
    }
  }

  /** Position i of the repetition holds xs[i mod |xs|]. */
  lemma {:induction false} RepeatAt(xs: seq<int>, n: nat, i: int)
    requires 0 <= i < n * |xs|
    ensures |Repeat(xs, n)| == n * |xs|
    ensures Repeat(xs, n)[i] == xs[i % |xs|]
  {
    RepeatLength(xs, n);
    if i < |xs| {
      DivModUnique(i, |xs|, 0, i);
    } else {
      RepeatAt(xs, n - 1, i - |xs|);
      ModShift(i, |xs|);
    }
  }

  /** `int(round(L / float(c)))`: Python 2 rounds halves away from zero. */
  function RoundedQuotient(L: nat, c: int): int
    requires c != 0
  {
    if c > 0 then (2 * L + c) / (2 * c)
    else -((2 * L - c) / (-2 * c))
  }

  /** For positive c the result is the integer nearest to L / c, a tie
      going up: size - 1/2 <= L / c < size + 1/2. */
  lemma RoundedQuotientIsNearest(L: nat, c: int)
    requires c > 0
    ensures var size := RoundedQuotient(L, c);
      2 * c * size - c <= 2 * L < 2 * c * size + c
  {
    var q, m := 2 * L + c, 2 * c;
    assert q == m * (q / m) + q % m;
  }

  lemma RoundedQuotientBounds(L: nat, c: int)
    requires c > 0
    ensures 0 <= RoundedQuotient(L, c) <= L
  {
    var q, m := 2 * L + c, 2 * c;
    DivMono(0, q, m);
    DivModUnique(0, m, 0, 0);
    MulMono(2 * L + 1, 0, c - 1);
    assert q <= m * (L + 1) - 1;
    DivMono(q, m * (L + 1) - 1, m);
    DivModUnique(m * (L + 1) - 1, m, L, m - 1);
  }

  /** The new contents of a stuttered region:
      `size = round(len(full) / c); cut = full[0:size] * c; cut[0:len(full)]`. */
  function Stuttered(full: seq<int>, cuts: int): seq<int>
    requires cuts != 0
  {
    var size := RoundedQuotient(|full|, cuts);
    var cut := Repeat(Get(full, Slice(0, size)), cuts);
    Get(cut, Slice(0, |full|))
  }

  /** Position i holds full[i mod size]; the region is as long as the tiling,
      but never longer than before. */
  lemma StutteredAt(full: seq<int>, cuts: int)
    requires cuts > 0
    ensures var size, r := RoundedQuotient(|full|, cuts), Stuttered(full, cuts);
      && 0 <= size <= |full|
      && |r| == (if size * cuts < |full| then size * cuts else |full|)
      && forall i :: 0 <= i < |r| ==> r[i] == full[i % size]
  {
    var size := RoundedQuotient(|full|, cuts);
    RoundedQuotientBounds(|full|, cuts);
    var frag := Get(full, Slice(0, size));
    WithinBounds(Slice(0, size), |full|);
    assert frag == full[..size];
    RepeatLength(frag, cuts);
    var cut := Repeat(frag, cuts);
    assert |cut| == size * cuts;
    var r := Stuttered(full, cuts);
    forall i | 0 <= i < |r|
      ensures r[i] == full[i % size]
    {
      assert r[i] == cut[i];
      RepeatAt(frag, cuts, i);
    }
  }

  /** The region keeps its length exactly when the tiling reaches it. */
  lemma StutteredLength(full: seq<int>, cuts: int)
    requires cuts > 0
    ensures |Stuttered(full, cuts)| == |full| <==> RoundedQuotient(|full|, cuts) * cuts >= |full|
  {
    StutteredAt(full, cuts);
  }

  /** A negative cut count empties the region. */
  lemma StutteredNegative(full: seq<int>, cuts: int)
    requires cuts < 0
    ensures Stuttered(full, cuts) == []
  {
  }

  /** `Stutter(s, cuts).munge` on one channel. */
  function Stutter(ch: seq<int>, s: Slice, cuts: int): seq<int>
    requires cuts != 0
  {
    Set(ch, s, Stuttered(Get(ch, s), cuts))
  }

  // ---------------------------------------------------------------- FrameSmear

  function Sum(xs: seq<int>): int {
    if xs == [] then 0 else Sum(xs[..|xs| - 1]) + xs[|xs| - 1]
  }

  /** Reference for the smear: sample i becomes the floor of the mean of the
      first i + 1 original samples (Python 2 `/` on integers floors). */
  function Smeared(xs: seq<int>): (r: seq<int>)
    ensures |r| == |xs|
  {
    seq(|xs|, i requires 0 <= i < |xs| => Sum(xs[..i + 1]) / (i + 1))
  }

  lemma {:induction false} SumBounds(xs: seq<int>, lo: int, hi: int)
    requires forall k :: 0 <= k < |xs| ==> lo <= xs[k] <= hi
    ensures |xs| * lo <= Sum(xs) <= |xs| * hi
  {
    if xs != [] {
      var init, n := xs[..|xs| - 1], |xs| - 1;
      assert forall k :: 0 <= k < n ==> init[k] == xs[k];
      SumBounds(init, lo, hi);
      assert Sum(xs) == Sum(init) + xs[n];
      assert |xs| * lo == n * lo + lo && |xs| * hi == n * hi + hi;
    }
  }

  /** A running mean never leaves the range of the samples it averages, so a
      smeared 16-bit region stays 16-bit. */
  lemma SmearedWithin(xs: seq<int>, lo: int, hi: int)
    requires forall k :: 0 <= k < |xs| ==> lo <= xs[k] <= hi
    ensures forall i :: 0 <= i < |xs| ==> lo <= Smeared(xs)[i] <= hi
  {
    forall i | 0 <= i < |xs|
      ensures lo <= Smeared(xs)[i] <= hi
    {
      SumBounds(xs[..i + 1], lo, hi);
      MeanBounds(Sum(xs[..i + 1]), i + 1, lo, hi);
    }
  }

  /** `FrameSmear(s).munge` on one channel. */
  function Smear(ch: seq<int>, s: Slice): seq<int> {
    Set(ch, s, Smeared(Get(ch, s)))
  }

  lemma SmearAt(ch: seq<int>, s: Slice, i: int)
    requires 0 <= i < |ch|
    ensures |Smear(ch, s)| == |ch|
    ensures var lo, hi := Lo(s, |ch|), Hi(s, |ch|);
      Smear(ch, s)[i] == if lo <= i < hi then Sum(ch[lo..i + 1]) / (i - lo + 1) else ch[i]
  {
    var lo, hi := Lo(s, |ch|), Hi(s, |ch|);
    var g := Get(ch, s);
    SetSameLengthAt(ch, s, Smeared(g), i);
    if lo <= i < hi {
      assert g[..i - lo + 1] == ch[lo..i + 1];
    }
  }

  /** The covered samples become running means; the length and the rest stay. */
  lemma SmearAveragesRegion(ch: seq<int>, s: Slice)
    ensures |Smear(ch, s)| == |ch|
    ensures var lo, hi := Lo(s, |ch|), Hi(s, |ch|);
      forall i :: 0 <= i < |ch| ==>
        Smear(ch, s)[i] == if lo <= i < hi then Sum(ch[lo..i + 1]) / (i - lo + 1) else ch[i]
  {
    forall i | 0 <= i < |ch| {
      SmearAt(ch, s, i);
    }
  }

  // ---------------------------------------------------------------- stereo

  /** `FlipStereo(s).munge`: the slice moves from channel 0 to channel 1 and back. */
  function FlipStereo(st: Stream, s: Slice): Stream
    requires |st| >= 2
  {
    st[0 := Set(st[0], s, Get(st[1], s))][1 := Set(st[1], s, Get(st[0], s))]
  }

  lemma FlipStereoAt(st: Stream, s: Slice, i: int)
    requires |st| >= 2 && |st[0]| == |st[1]| && 0 <= i < |st[0]|
    ensures var r, lo, hi := FlipStereo(st, s), Lo(s, |st[0]|), Hi(s, |st[0]|);
      && |r| == |st| && |r[0]| == |st[0]| && |r[1]| == |st[1]|
      && r[0][i] == (if lo <= i < hi then st[1][i] else st[0][i])
      && r[1][i] == (if lo <= i < hi then st[0][i] else st[1][i])
  {
    SetSameLengthAt(st[0], s, Get(st[1], s), i);
    SetSameLengthAt(st[1], s, Get(st[0], s), i);
  }

  /** Whether sample i of the region [lo, hi) changes channel: every one of
      them, or only those at an even offset from lo. */
  predicate Moves(i: int, lo: int, hi: int, every: bool) {
    lo <= i < hi && (every || (i - lo) % 2 == 0)
  }

  /** y is the two-channel x with the moving samples exchanged between
      channels 0 and 1; every other sample and every other channel stays. */
  ghost predicate Crossed(x: Stream, y: Stream, lo: int, hi: int, every: bool) {
    && |x| >= 2 && |x[0]| == |x[1]|
    && |y| == |x| && |y[0]| == |x[0]| && |y[1]| == |x[1]|
    && (forall j :: 2 <= j < |x| ==> y[j] == x[j])
    && (forall i :: 0 <= i < |x[0]| && Moves(i, lo, hi, every) ==> y[0][i] == x[1][i] && y[1][i] == x[0][i])
    && (forall i :: 0 <= i < |x[0]| && !Moves(i, lo, hi, every) ==> y[0][i] == x[0][i] && y[1][i] == x[1][i])
  }

  /** Crossing the same samples twice restores the stream. */
  lemma CrossedTwice(x: Stream, y: Stream, z: Stream, lo: int, hi: int, every: bool)
    requires Crossed(x, y, lo, hi, every) && Crossed(y, z, lo, hi, every)
    ensures z == x
  {
    forall i | 0 <= i < |x[0]|
      ensures z[0][i] == x[0][i] && z[1][i] == x[1][i]
    {
      if Moves(i, lo, hi, every) {
        assert z[0][i] == y[1][i];
      } else {
        assert z[0][i] == y[0][i];
      }
    }
    assert z[0] == x[0];
    assert z[1] == x[1];
    forall j | 0 <= j < |x|
      ensures z[j] == x[j]
    {
    }
  }

  /** On two channels of one length the covered samples change channel;
      everything else, other channels included, stays. */
  lemma FlipStereoExchanges(st: Stream, s: Slice)
    requires |st| >= 2 && |st[0]| == |st[1]|
    ensures Crossed(st, FlipStereo(st, s), Lo(s, |st[0]|), Hi(s, |st[0]|), true)
  {
    var r, lo, hi := FlipStereo(st, s), Lo(s, |st[0]|), Hi(s, |st[0]|);
    forall i | 0 <= i < |st[0]| && Moves(i, lo, hi, true)
      ensures r[0][i] == st[1][i] && r[1][i] == st[0][i]
    {
      FlipStereoAt(st, s, i);
    }
    forall i | 0 <= i < |st[0]| && !Moves(i, lo, hi, true)
      ensures r[0][i] == st[0][i] && r[1][i] == st[1][i]
    {
      FlipStereoAt(st, s, i);
    }
  }

  lemma FlipStereoInvolutive(st: Stream, s: Slice)
    requires |st| >= 2 && |st[0]| == |st[1]|
    ensures FlipStereo(FlipStereo(st, s), s) == st
  {
    var once := FlipStereo(st, s);
    FlipStereoExchanges(st, s);
    FlipStereoExchanges(once, s);
    CrossedTwice(st, once, FlipStereo(once, s), Lo(s, |st[0]|), Hi(s, |st[0]|), true);
  }

  /** The list whose even positions come from `first` and odd ones from
      `second`, as long as the shorter of the two (Python's `zip`). */
  function Alternate(first: seq<int>, second: seq<int>): (r: seq<int>)
    ensures |r| == if |first| < |second| then |first| else |second|
  {
    var n := if |first| < |second| then |first| else |second|;
    seq(n, i requires 0 <= i < n => if i % 2 == 0 then first[i] else second[i])
  }

  /** `InterleaveStereo(s).munge`: the zipped slices are split into `left`,
      written to channel 1, and `right`, written to channel 0. */
  function InterleaveStereo(st: Stream, s: Slice): Stream
    requires |st| >= 2
  {
    var g0, g1 := Get(st[0], s), Get(st[1], s);
    st[1 := Set(st[1], s, Alternate(g0, g1))][0 := Set(st[0], s, Alternate(g1, g0))]
  }

  lemma InterleaveStereoAt(st: Stream, s: Slice, i: int)
    requires |st| >= 2 && |st[0]| == |st[1]| && 0 <= i < |st[0]|
    ensures var r, lo, hi := InterleaveStereo(st, s), Lo(s, |st[0]|), Hi(s, |st[0]|);
      && |r| == |st| && |r[0]| == |st[0]| && |r[1]| == |st[1]|
      && r[0][i] == (if lo <= i < hi && (i - lo) % 2 == 0 then st[1][i] else st[0][i])
      && r[1][i] == (if lo <= i < hi && (i - lo) % 2 == 0 then st[0][i] else st[1][i])
  {
    var g0, g1 := Get(st[0], s), Get(st[1], s);
    SetSameLengthAt(st[1], s, Alternate(g0, g1), i);
    SetSameLengthAt(st[0], s, Alternate(g1, g0), i);
  }

  /** Samples at even offsets from the slice start change channel, odd ones
      stay, and so does everything else. */
  lemma InterleaveStereoExchanges(st: Stream, s: Slice)
    requires |st| >= 2 && |st[0]| == |st[1]|
    ensures Crossed(st, InterleaveStereo(st, s), Lo(s, |st[0]|), Hi(s, |st[0]|), false)
  {
    var r, lo, hi := InterleaveStereo(st, s), Lo(s, |st[0]|), Hi(s, |st[0]|);
    var g0, g1 := Get(st[0], s), Get(st[1], s);
    forall i | 0 <= i < |st[0]| && Moves(i, lo, hi, false)
      ensures r[0][i] == st[1][i] && r[1][i] == st[0][i]
    {
      InterleaveStereoAt(st, s, i);
    }
    forall i | 0 <= i < |st[0]| && !Moves(i, lo, hi, false)
      ensures r[0][i] == st[0][i] && r[1][i] == st[1][i]
    {
      InterleaveStereoAt(st, s, i);
    }
  }

  lemma InterleaveStereoInvolutive(st: Stream, s: Slice)
    requires |st| >= 2 && |st[0]| == |st[1]|
    ensures InterleaveStereo(InterleaveStereo(st, s), s) == st
  {
    var once := InterleaveStereo(st, s);
    InterleaveStereoExchanges(st, s);
    InterleaveStereoExchanges(once, s);
    CrossedTwice(st, once, InterleaveStereo(once, s), Lo(s, |st[0]|), Hi(s, |st[0]|), false);
  }
}
