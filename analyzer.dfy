/** The older list-based engine: operations that take a channel, a region
    `[start, end)` and a block size, their left-to-right composition, the
    weighted catalog they are drawn from, and the random `hit`/`mangle` loop
    over the channels of a stream. */
module Analyzer {
  import opened Results
  import opened Slices
  import opened RandomSource
  import Regions
  import Load

  /** `get_range(size, block_size)`: `(s, s + block_size)` for a random s of
      [0, size - block_size - 1]; `randint` rejects the empty range. */
  function GetRange(size: int, block: int, src: Source): (r: Result<((int, int), Source)>)
    ensures r.Err? <==> block >= size
    ensures r.Err? ==> r.error == EmptyRange
    ensures r.Ok? ==>
      && 0 <= r.value.0.0
      && r.value.0.1 == r.value.0.0 + block
      && r.value.0.1 <= size - 1
      && r.value.1 == Next(src)
  {
    match RandInt(0, size - block - 1, src)
    case Err(e) => Err(e)
    case Ok((s, next)) => Ok(((s, s + block), next))
  }

  /** Every admissible start is drawn by some source. */
  lemma GetRangeCovers(size: int, block: int, s: int)
    requires 0 <= s <= size - block - 1
    ensures GetRange(size, block, Fixed(s)) == Ok(((s, s + block), Next(Fixed(s))))
  {
    RandIntCovers(0, size - block - 1, s);
  }

  // ---------------------------------------------------------------- operations

  /** The kernels of `e1`, `e2`, `bl`, `sf` and `r`. */
  datatype Kernel = Edge3 | Edge5 | Blur | Soft | Ramp

  /** `ndimage.convolve(region, kernel)`, which lies outside this model. */
  type Convolver = (Kernel, seq<int>) -> seq<int>

  /** The primitive operations; `Convolve(k)` is `partial(convolve, kernel=k)`. */
  datatype Basic = Rotate | Flip | Swap | Dup | Stutter | Convolve(kernel: Kernel)

  /** An entry of the catalog: a primitive, or `combine(*parts)`. */
  datatype Op = Single(basic: Basic) | Combined(parts: seq<Basic>)

  /** How many draws a primitive takes from the random source. */
  function Draws(b: Basic): nat {
    if b.Swap? || b.Dup? || b.Stutter? then 1 else 0
  }

  /** The primitive `b` applied as `b(chan, start, end, block_size)`. */
  function ApplyBasic(b: Basic, chan: seq<int>, start: int, end: int, block: int,
                      conv: Convolver, src: Source): (r: Result<(seq<int>, Source)>)
    ensures r.Err? <==>
      || ((b.Swap? || b.Dup?) && block >= |chan|)
      || (b.Stutter? && start - block / 4 - 1 < 0)
    ensures r.Err? ==> r.error == EmptyRange
    ensures r.Ok? ==> r.value.1 == Source(src.tape, src.pos + Draws(b))
  {
    var region := Slice(start, end);
    match b
    case Rotate => Ok((Regions.Invert(chan, region), src))
    case Flip => Ok((Regions.Reverse(chan, region), src))
    case Swap =>
      (match GetRange(|chan|, block, src)
       case Err(e) => Err(e)
       case Ok(((xs, xe), next)) => Ok((Regions.Swap(chan, region, Slice(xs, xe)), next)))
    case Dup =>
      (match GetRange(|chan|, block, src)
       case Err(e) => Err(e)
       case Ok(((xs, xe), next)) => Ok((Regions.Dup(chan, region, Slice(xs, xe)), next)))
    case Stutter =>
      (match GetRange(start, block / 4, src)
       case Err(e) => Err(e)
       case Ok(((cs, ce), next)) =>
         Ok((Set(chan, region, Regions.Repeat(Get(chan, Slice(cs, ce)), 4)), next)))
    case Convolve(k) => Ok((Set(chan, region, conv(k, Get(chan, region))), src))
  }

  /** `combine(*parts)(chan, start, end, block_size)`: each part applied to the
      previous result, left to right, on the same region. */
  function ApplyAll(parts: seq<Basic>, chan: seq<int>, start: int, end: int, block: int,
                    conv: Convolver, src: Source): (r: Result<(seq<int>, Source)>)
    decreases |parts|
    ensures parts == [] ==> r == Ok((chan, src))
    ensures r.Ok? ==> r.value.1.tape == src.tape && r.value.1.pos >= src.pos
  {
    if parts == [] then Ok((chan, src))
    else
      match ApplyBasic(parts[0], chan, start, end, block, conv, src)
      case Err(e) => Err(e)
      case Ok((next, s)) => ApplyAll(parts[1..], next, start, end, block, conv, s)
  }

  function ApplyOp(op: Op, chan: seq<int>, start: int, end: int, block: int,
                   conv: Convolver, src: Source): Result<(seq<int>, Source)> {
    match op
    case Single(b) => ApplyBasic(b, chan, start, end, block, conv, src)
    case Combined(parts) => ApplyAll(parts, chan, start, end, block, conv, src)
  }

  const StutterAndFlip: Op := Combined([Stutter, Flip])
  const ReverseBlurReverse: Op := Combined([Flip, Convolve(Blur), Flip])
  const DupFlip: Op := Combined([Dup, Flip])

  /** `ops`: the catalog `hit` draws from; repetitions weight the draw. */
  const Ops: seq<Op> := [
    Single(Swap), Single(Swap), Single(Swap), Single(Swap), Single(Swap),
    Single(Flip), Single(Flip), Single(Flip), Single(Flip),
    Single(Dup), Single(Dup), Single(Dup), Single(Dup), Single(Dup),
    Single(Stutter), Single(Stutter), Single(Stutter),
    Single(Convolve(Edge3)), Single(Convolve(Edge5)), Single(Convolve(Blur)),
    Single(Convolve(Soft)), Single(Convolve(Ramp)),
    Single(Convolve(Edge3)), Single(Convolve(Edge5)), Single(Convolve(Blur)),
    Single(Convolve(Soft)),
    StutterAndFlip, StutterAndFlip,
    ReverseBlurReverse, ReverseBlurReverse,
    DupFlip, DupFlip,
    Single(Rotate), Single(Rotate), Single(Rotate)
  ]

  // ---------------------------------------------------------------- what each operation does

  /** `rotate` negates exactly the samples of the region and takes no draw. */
  lemma RotateNegates(chan: seq<int>, start: int, end: int, block: int, conv: Convolver, src: Source)
    ensures var r := ApplyBasic(Rotate, chan, start, end, block, conv, src);
      && r == Ok((r.value.0, src))
      && |r.value.0| == |chan|
      && var lo, hi := Lo(Slice(start, end), |chan|), Hi(Slice(start, end), |chan|);
         forall i :: 0 <= i < |chan| ==> r.value.0[i] == if lo <= i < hi then -chan[i] else chan[i]
  {
    Regions.InvertNegatesRegion(chan, Slice(start, end));
  }

  /** `rotate` applied twice to the same region restores the channel. */
  lemma RotateInvolutive(chan: seq<int>, start: int, end: int, block: int, conv: Convolver, src: Source)
    ensures var once := ApplyBasic(Rotate, chan, start, end, block, conv, src).value.0;
      ApplyBasic(Rotate, once, start, end, block, conv, src) == Ok((chan, src))
  {
    Regions.InvertInvolutive(chan, Slice(start, end));
  }

  /** `flip` reverses the region in place and leaves the rest alone. */
  lemma FlipMirrors(chan: seq<int>, start: int, end: int, block: int, conv: Convolver, src: Source)
    ensures var r := ApplyBasic(Flip, chan, start, end, block, conv, src);
      && r == Ok((r.value.0, src))
      && Regions.Mirrored(chan, r.value.0, Lo(Slice(start, end), |chan|), Hi(Slice(start, end), |chan|))
  {
    Regions.ReverseMirrorsRegion(chan, Slice(start, end));
  }

  /** `flip` applied twice to the same region restores the channel. */
  lemma FlipInvolutive(chan: seq<int>, start: int, end: int, block: int, conv: Convolver, src: Source)
    ensures var once := ApplyBasic(Flip, chan, start, end, block, conv, src).value.0;
      ApplyBasic(Flip, once, start, end, block, conv, src) == Ok((chan, src))
  {
    Regions.ReverseInvolutive(chan, Slice(start, end));
  }

  /** `swap` draws a second range of `block` samples; when the region has that
      length too, the length is kept, and when the ranges are disjoint their
      contents trade places and nothing else changes. */
  lemma SwapExchanges(chan: seq<int>, start: int, end: int, block: int, conv: Convolver, src: Source)
    requires Within(Slice(start, end), |chan|) && end - start == block
    ensures var r := ApplyBasic(Swap, chan, start, end, block, conv, src);
      var g := GetRange(|chan|, block, src);
      && (r.Err? <==> g.Err?)
      && (r.Ok? ==> var other := Slice(g.value.0.0, g.value.0.1);
            && |r.value.0| == |chan|
            && (Disjoint(Slice(start, end), other) ==>
                  Regions.Exchanged(chan, r.value.0, Slice(start, end), other)))
  {
    var g := GetRange(|chan|, block, src);
    if g.Ok? {
      var other := Slice(g.value.0.0, g.value.0.1);
      Regions.SwapKeepsLength(chan, Slice(start, end), other);
      if Disjoint(Slice(start, end), other) {
        Regions.SwapExchanges(chan, Slice(start, end), other);
      }
    }
  }

  /** `dup` draws a destination range of `block` samples; when the region has
      that length, the destination receives the region's old contents (even
      if they overlap) and nothing else changes. */
  lemma DupCopies(chan: seq<int>, start: int, end: int, block: int, conv: Convolver, src: Source)
    requires Within(Slice(start, end), |chan|) && end - start == block
    ensures var r := ApplyBasic(Dup, chan, start, end, block, conv, src);
      var g := GetRange(|chan|, block, src);
      && (r.Err? <==> g.Err?)
      && (r.Ok? ==> Regions.Copied(chan, r.value.0, Slice(start, end), Slice(g.value.0.0, g.value.0.1)))
  {
    var g := GetRange(|chan|, block, src);
    if g.Ok? {
      Regions.DupCopies(chan, Slice(start, end), Slice(g.value.0.0, g.value.0.1));
    }
  }

  /** `stutter` draws a fragment of `block / 4` samples that ends before
      `start` and replaces the region by four copies of it. */
  lemma StutterSplices(chan: seq<int>, start: int, end: int, block: int, conv: Convolver, src: Source)
    requires Within(Slice(start, end), |chan|)
    ensures var r := ApplyBasic(Stutter, chan, start, end, block, conv, src);
      var g := GetRange(start, block / 4, src);
      && (r.Err? <==> start - block / 4 - 1 < 0)
      && (r.Ok? ==> var (cs, ce) := g.value.0;
            && 0 <= cs && ce == cs + block / 4 && ce <= start - 1
            && r.value.0 == chan[..start] + Regions.Repeat(Get(chan, Slice(cs, ce)), 4) + chan[end..]
            && (block >= 0 ==> Get(chan, Slice(cs, ce)) == chan[cs..ce]))
  {
    var g := GetRange(start, block / 4, src);
    if g.Ok? {
      var (cs, ce) := g.value.0;
      var cut := Regions.Repeat(Get(chan, Slice(cs, ce)), 4);
      WithinBounds(Slice(start, end), |chan|);
      SetSplices(chan, Slice(start, end), cut);
      if block >= 0 {
        WithinBounds(Slice(cs, ce), |chan|);
      }
    }
  }

  /** The length after `stutter`: the region gives way to four fragments of
      `block / 4` samples, so a region of `block` samples keeps the length
      exactly when `block` is a multiple of 4. */
  lemma StutterLength(chan: seq<int>, start: int, end: int, block: int, conv: Convolver, src: Source)
    requires Within(Slice(start, end), |chan|) && block >= 0
    ensures var r := ApplyBasic(Stutter, chan, start, end, block, conv, src);
      && (r.Ok? ==> |r.value.0| == |chan| - (end - start) + 4 * (block / 4))
      && (r.Ok? && end - start == block ==> (|r.value.0| == |chan| <==> block % 4 == 0))
  {
    var r := ApplyBasic(Stutter, chan, start, end, block, conv, src);
    if r.Ok? {
      StutterSplices(chan, start, end, block, conv, src);
      var g := GetRange(start, block / 4, src);
      var cut := Get(chan, Slice(g.value.0.0, g.value.0.1));
      Regions.RepeatLength(cut, 4);
    }
  }

  // ---------------------------------------------------------------- combine

  /** Composition threads: the parts of `xs + ys` act as `xs`, then `ys`. */
  lemma {:induction false} ApplyAllAppend(xs: seq<Basic>, ys: seq<Basic>, chan: seq<int>, start: int, end: int,
                                          block: int, conv: Convolver, src: Source)
    ensures ApplyAll(xs + ys, chan, start, end, block, conv, src) ==
      match ApplyAll(xs, chan, start, end, block, conv, src)
      case Err(e) => Err(e)
      case Ok((c, s)) => ApplyAll(ys, c, start, end, block, conv, s)
    decreases |xs|
  {
    if xs != [] {
      assert (xs + ys)[0] == xs[0] && (xs + ys)[1..] == xs[1..] + ys;
      var first := ApplyBasic(xs[0], chan, start, end, block, conv, src);
      if first.Ok? {
        var c, s := first.value.0, first.value.1;
        ApplyAllAppend(xs[1..], ys, c, start, end, block, conv, s);
        assert ApplyAll(xs + ys, chan, start, end, block, conv, src) == ApplyAll(xs[1..] + ys, c, start, end, block, conv, s);
        assert ApplyAll(xs, chan, start, end, block, conv, src) == ApplyAll(xs[1..], c, start, end, block, conv, s);
      }
    } else {
      assert xs + ys == ys;
    }
  }

  /** `stutterAndFlip` is `flip` after `stutter` on the same region. */
  lemma StutterAndFlipThreads(chan: seq<int>, start: int, end: int, block: int, conv: Convolver, src: Source)
    ensures ApplyOp(StutterAndFlip, chan, start, end, block, conv, src) ==
      match ApplyBasic(Stutter, chan, start, end, block, conv, src)
      case Err(e) => Err(e)
      case Ok((c, s)) => Ok((Regions.Reverse(c, Slice(start, end)), s))
  {
    assert [Stutter, Flip][1..] == [Flip];
  }

  /** `dupFlip` is `flip` after `dup` on the same region. */
  lemma DupFlipThreads(chan: seq<int>, start: int, end: int, block: int, conv: Convolver, src: Source)
    ensures ApplyOp(DupFlip, chan, start, end, block, conv, src) ==
      match ApplyBasic(Dup, chan, start, end, block, conv, src)
      case Err(e) => Err(e)
      case Ok((c, s)) => Ok((Regions.Reverse(c, Slice(start, end)), s))
  {
    assert [Dup, Flip][1..] == [Flip];
  }

  // ---------------------------------------------------------------- hit and mangle

  /** The channel `hit` picks: `randint(0, 1)`. */
  function Coin(src: Source): (r: int)
    ensures r == 0 || r == 1
  {
    RandInt(0, 1, src).value.0
  }

  /** What `hit` does to the channel it picked: a random region of
      `block_size` samples, then a random catalog entry applied there. */
  function HitChannel(chan: seq<int>, block: int, conv: Convolver, src: Source): (r: Result<(seq<int>, Source)>)
    ensures block >= |chan| ==> r == Err(EmptyRange)
    ensures r.Ok? ==> r.value.1.tape == src.tape && r.value.1.pos >= src.pos + 2
  {
    match GetRange(|chan|, block, src)
    case Err(e) => Err(e)
    case Ok(((start, end), afterRange)) =>
      var (op, afterChoice) := Choice(Ops, afterRange).value;
      ApplyOp(op, chan, start, end, block, conv, afterChoice)
  }

  /** A successful hit applies some catalog entry to a region of exactly
      `block` samples that ends before the channel's last sample. */
  lemma HitAppliesCatalogEntry(chan: seq<int>, block: int, conv: Convolver, src: Source)
    requires HitChannel(chan, block, conv, src).Ok?
    ensures exists op, start, end, s ::
      && op in Ops
      && 0 <= start && end == start + block && end <= |chan| - 1
      && ApplyOp(op, chan, start, end, block, conv, s) == HitChannel(chan, block, conv, src)
  {
    var g := GetRange(|chan|, block, src);
    var picked := Choice(Ops, g.value.1);
    assert picked.value.0 in Ops;
    assert 0 <= g.value.0.0 && g.value.0.0 + block <= |chan| - 1;
    assert ApplyOp(picked.value.0, chan, g.value.0.0, g.value.0.0 + block, block, conv, picked.value.1)
        == HitChannel(chan, block, conv, src);
  }

  /** `hit(data, length, block_size)`: the picked channel is replaced by the
      hit one; `data[1]` of a mono stream raises IndexError. */
  function HitStep(data: seq<seq<int>>, block: int, conv: Convolver, src: Source): (r: Result<(seq<seq<int>>, Source)>)
    ensures Coin(src) >= |data| ==> r == Err(IndexOutOfRange)
    ensures Coin(src) < |data| && block >= |data[Coin(src)]| ==> r == Err(EmptyRange)
    ensures r.Ok? ==> Coin(src) < |data| && |r.value.0| == |data|
    ensures r.Ok? ==> forall j :: 0 <= j < |data| && j != Coin(src) ==> r.value.0[j] == data[j]
    ensures r.Ok? ==> HitChannel(data[Coin(src)], block, conv, Next(src)) == Ok((r.value.0[Coin(src)], r.value.1))
    ensures r.Ok? ==> r.value.1.tape == src.tape && r.value.1.pos >= src.pos + 3
  {
    var coin := Coin(src);
    if coin >= |data| then Err(IndexOutOfRange)
    else
      match HitChannel(data[coin], block, conv, Next(src))
      case Err(e) => Err(e)
      case Ok((c, last)) => Ok((data[coin := c], last))
  }

  /** `hit` on the channels held in an array: `data[coin]` is replaced. */
  method Hit(data: array<seq<int>>, block: int, conv: Convolver, src: Source) returns (err: Option<Error>, next: Source)
    modifies data
    ensures match HitStep(old(data[..]), block, conv, src)
      case Ok((d, s)) => data[..] == d && err == None && next == s
      case Err(e) => data[..] == old(data[..]) && err == Some(e) && next == src
  {
    ghost var before := data[..];
    var coin := Coin(src);
    if coin >= data.Length {
      return Some(IndexOutOfRange), src;
    }
    var chan := data[coin];
    var range := GetRange(|chan|, block, Next(src));
    if range.Err? {
      return Some(range.error), src;
    }
    var start, end := range.value.0.0, range.value.0.1;
    var picked := Choice(Ops, range.value.1);
    var applied := ApplyOp(picked.value.0, chan, start, end, block, conv, picked.value.1);
    if applied.Err? {
      return Some(applied.error), src;
    }
    data[coin] := applied.value.0;
    assert data[..] == before[coin := applied.value.0];
    return None, applied.value.1;
  }

  /** The state after a run of hits: the channels, the source, how many hits
      completed, and the error that stopped the run, if any. */
  datatype Outcome = Outcome(data: seq<seq<int>>, src: Source, done: nat, err: Option<Error>)

  /** One hit, as a step on the channels and the source. */
  type Step = (seq<seq<int>>, Source) -> Result<(seq<seq<int>>, Source)>

  /** `n` steps in a row; the first failing step stops the run and leaves the
      channels as the previous step left them. */
  function Hits(step: Step, data: seq<seq<int>>, n: int, src: Source): (r: Outcome)
    decreases n
    ensures n <= 0 ==> r == Outcome(data, src, 0, None)
    ensures r.err.None? ==> r.done == (if n < 0 then 0 else n)
    ensures r.err.Some? ==> r.done < n
  {
    if n <= 0 then Outcome(data, src, 0, None)
    else
      match step(data, src)
      case Err(e) => Outcome(data, src, 0, Some(e))
      case Ok((d, s)) =>
        var rest := Hits(step, d, n - 1, s);
        rest.(done := rest.done + 1)
  }

  /** Runs compose: `m + n` steps are `m` steps, then `n` more from where
      they stopped, unless the first run failed. */
  lemma {:induction false} HitsCompose(step: Step, data: seq<seq<int>>, m: nat, n: nat, src: Source)
    ensures var first := Hits(step, data, m, src);
      Hits(step, data, m + n, src) ==
        if first.err.Some? then first
        else var rest := Hits(step, first.data, n, first.src); rest.(done := first.done + rest.done)
    decreases m
  {
    if m > 0 {
      match step(data, src)
      case Err(e) =>
      case Ok((d, s)) => HitsCompose(step, d, m - 1, n, s);
    }
  }

  /** The step `mangle` repeats. */
  function HitWith(block: int, conv: Convolver): Step {
    (d, s) => HitStep(d, block, conv, s)
  }

  /** Hitting keeps the number of channels, and channels past the first two
      are never touched. */
  lemma {:induction false} HitsKeepOtherChannels(block: int, conv: Convolver, data: seq<seq<int>>, n: int, src: Source)
    ensures var r := Hits(HitWith(block, conv), data, n, src);
      && |r.data| == |data|
      && forall j :: 2 <= j < |data| ==> r.data[j] == data[j]
    decreases n
  {
    if n > 0 {
      var h := HitStep(data, block, conv, src);
      assert HitWith(block, conv)(data, src) == h;
      if h.Ok? {
        HitsKeepOtherChannels(block, conv, h.value.0, n - 1, h.value.1);
      }
    }
  }

  /** `mangle(channels, block_size, num_hits)`: `num_hits` hits on the same
      list of channels, then `np.array(new_channels, dtype=int16)`, which
      raises ValueError when the channels no longer have one length;
      `len(data[0])` fails on a stream without channels. */
  function Mangled(data: seq<seq<int>>, block: int, numHits: int, conv: Convolver, src: Source): (r: Outcome)
    ensures |data| == 0 ==> r == Outcome(data, src, 0, Some(IndexOutOfRange))
    ensures |r.data| == |data|
    ensures |data| > 0 && numHits <= 0 ==>
      r == Outcome(data, src, 0, if Load.Rectangular(data, |data[0]|) then None else Some(RaggedChannels))
    ensures |data| > 0 && r.err.None? ==>
      r.done == (if numHits < 0 then 0 else numHits) && Load.Rectangular(r.data, |r.data[0]|)
    ensures |data| > 0 ==> var h := Hits(HitWith(block, conv), data, numHits, src);
      && (h.err.Some? ==> r == h)
      && (h.err.None? && |h.data| > 0 ==>
            && r.data == h.data && r.src == h.src
            && (r.err.None? <==> Load.Rectangular(h.data, |h.data[0]|))
            && (r.err.Some? ==> r.err == Some(RaggedChannels)))
  {
    if |data| == 0 then Outcome(data, src, 0, Some(IndexOutOfRange))
    else
      var h := Hits(HitWith(block, conv), data, numHits, src);
      HitsKeepOtherChannels(block, conv, data, numHits, src);
      if h.err.None? && !Load.Rectangular(h.data, |h.data[0]|) then h.(err := Some(RaggedChannels)) else h
  }

  /** `mangle` on the channels held in an array, hit by hit. */
  method Mangle(data: array<seq<int>>, block: int, numHits: int, conv: Convolver, src: Source)
    returns (err: Option<Error>, next: Source)
    modifies data
    ensures var o := Mangled(old(data[..]), block, numHits, conv, src);
      data[..] == o.data && err == o.err && next == o.src
  {
    if data.Length == 0 {
      return Some(IndexOutOfRange), src;
    }
    var step := HitWith(block, conv);
    ghost var full := Hits(step, data[..], numHits, src);
    var i := 0;
    next := src;
    while i < numHits
      invariant 0 <= i && (numHits > 0 ==> i <= numHits)
      invariant var rest := Hits(step, data[..], numHits - i, next);
        && full.data == rest.data && full.src == rest.src
        && full.err == rest.err && full.done == rest.done + i
      decreases numHits - i
    {
      ghost var before := data[..];
      var e, s := Hit(data, block, conv, next);
      assert step(before, next) == HitStep(before, block, conv, next);
      if e.Some? {
        return e, next;
      }
      next := s;
      i := i + 1;
    }
    if !Load.Rectangular(data[..], |data[0]|) {
      return Some(RaggedChannels), next;
    }
    return None, next;
  }
}
