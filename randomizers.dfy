/** The parameter factories of the operation catalog: random slices of a
    stream, cut counts, channel numbers, items of a collection, and the
    argument list that a class's `generate` passes to its constructor. */
module Randomizers {
  import opened Results
  import opened Slices
  import opened RandomSource

  /** `int(x)` on a float: truncation toward zero. */
  function Trunc(x: real): (r: int)
    ensures x >= 0.0 ==> 0 <= r && r as real <= x < r as real + 1.0
    ensures x < 0.0 ==> r <= 0 && r as real - 1.0 < x <= r as real
  {
    if x >= 0.0 then x.Floor else -((-x).Floor)
  }

  /** The block length of a generated slice: `int(frame_rate * ratio)`. */
  function Block(frameRate: int, ratio: real): int {
    Trunc(frameRate as real * ratio)
  }

  /** `get_slice(frame_rate, stream_size, ratio)`: a slice of `block` samples
      starting at a random index of [0, stream_size - block - 1]. */
  function GetSlice(frameRate: int, streamSize: int, ratio: real, src: Source): (r: Result<(Slice, Source)>)
    ensures r.Err? <==> Block(frameRate, ratio) >= streamSize
    ensures r.Err? ==> r.error == EmptyRange
    ensures r.Ok? ==>
      && r.value.0.stop - r.value.0.start == Block(frameRate, ratio)
      && 0 <= r.value.0.start
      && r.value.0.stop <= streamSize - 1
      && r.value.1 == Next(src)
  {
    var block := Block(frameRate, ratio);
    match RandInt(0, streamSize - block - 1, src)
    case Err(e) => Err(e)
    case Ok((start, next)) => Ok((Slice(start, start + block), next))
  }

  /** Every admissible start is drawn by some source. */
  lemma GetSliceCovers(frameRate: int, streamSize: int, ratio: real, start: int)
    requires 0 <= start <= streamSize - Block(frameRate, ratio) - 1
    ensures GetSlice(frameRate, streamSize, ratio, Fixed(start)).Ok?
    ensures GetSlice(frameRate, streamSize, ratio, Fixed(start)).value.0 ==
      Slice(start, start + Block(frameRate, ratio))
  {
    RandIntCovers(0, streamSize - Block(frameRate, ratio) - 1, start);
  }

  /** `get_cuts(max)`: a cut count of 1..5; the argument plays no part. */
  function GetCuts(max: int, src: Source): (r: (int, Source))
    ensures 1 <= r.0 <= 5 && r.1 == Next(src)
  {
    var drawn := RandInt(1, 5, src);
    drawn.value
  }

  lemma GetCutsIgnoresMax(m: int, n: int, src: Source)
    ensures GetCuts(m, src) == GetCuts(n, src)
  {
  }

  /** `pick_channel()`: channel 0 or 1. */
  function PickChannel(src: Source): (r: (int, Source))
    ensures (r.0 == 0 || r.0 == 1) && r.1 == Next(src)
  {
    var drawn := RandInt(0, 1, src);
    drawn.value
  }

  /** A list, or a dict given by its `items()` in iteration order. */
  datatype Items<K, V> = ListItems(elems: seq<V>) | DictItems(entries: seq<(K, V)>)

  /** `get_item(items)`: a random element of a list, or a random value of a
      dict; an empty collection makes `random.choice` raise IndexError. */
  function GetItem<K, V>(items: Items<K, V>, src: Source): (r: Result<(V, Source)>)
    ensures r.Err? <==> (if items.ListItems? then |items.elems| == 0 else |items.entries| == 0)
    ensures r.Err? ==> r.error == IndexOutOfRange
    ensures r.Ok? && items.ListItems? ==> r.value.0 in items.elems
    ensures r.Ok? && items.DictItems? ==>
      exists i :: 0 <= i < |items.entries| && items.entries[i].1 == r.value.0
    ensures r.Ok? ==> r.value.1 == Next(src)
  {
    match items
    case ListItems(elems) => Choice(elems, src)
    case DictItems(entries) =>
      match Choice(entries, src)
      case Err(e) => Err(e)
      case Ok((entry, next)) => Ok((entry.1, next))
  }

  // ---------------------------------------------------------------- generate

  /** A no-parameter value factory such as `pick_channel`, drawing from the source. */
  type Generator<V> = Source -> Result<(V, Source)>

  /** One constructor argument: a generated slice or a generated value. */
  datatype Arg<V> = SliceArg(slice: Slice) | ValueArg(value: V)

  /** Generators that never raise. */
  ghost predicate Total<V>(gens: seq<Generator<V>>) {
    forall j, s :: 0 <= j < |gens| ==> gens[j](s).Ok?
  }

  /** A generator that never raises and takes exactly one draw, as
      `pick_channel` and `get_cuts` do. */
  ghost predicate OneDraw<V>(g: Generator<V>) {
    forall s {:trigger g(s)} :: g(s).Ok? && g(s).value.1 == Next(s)
  }

  /** The generators of keyword entries, in order. */
  function Gens<V>(kwgens: seq<(string, Generator<V>)>): (r: seq<Generator<V>>)
    ensures |r| == |kwgens| && forall j :: 0 <= j < |kwgens| ==> r[j] == kwgens[j].1
  {
    seq(|kwgens|, j requires 0 <= j < |kwgens| => kwgens[j].1)
  }

  /** Keyword names as a dict has them: no name twice. */
  predicate DistinctNames<V>(kwgens: seq<(string, Generator<V>)>) {
    forall i, j :: 0 <= i < j < |kwgens| ==> kwgens[i].0 != kwgens[j].0
  }

  /** The names of keyword entries. */
  function Names<V>(kwgens: seq<(string, Generator<V>)>): set<string>
    decreases |kwgens|
  {
    if kwgens == [] then {} else {kwgens[0].0} + Names(kwgens[1..])
  }

  /** A name is in `Names` exactly when some entry carries it. */
  lemma {:induction false} NamesMembers<V>(kwgens: seq<(string, Generator<V>)>, x: string)
    ensures x in Names(kwgens) <==> exists i :: 0 <= i < |kwgens| && kwgens[i].0 == x
    decreases |kwgens|
  {
    if kwgens != [] {
      NamesMembers(kwgens[1..], x);
      if x in Names(kwgens[1..]) {
        var i :| 0 <= i < |kwgens| - 1 && kwgens[1..][i].0 == x;
        assert kwgens[i + 1].0 == x;
      }
      if exists i :: 0 <= i < |kwgens| && kwgens[i].0 == x {
        var i :| 0 <= i < |kwgens| && kwgens[i].0 == x;
        if i > 0 {
          assert kwgens[1..][i - 1].0 == x;
        }
      }
    }
  }

  /** With distinct names the head's name is not among the rest's. */
  lemma HeadNotInTail<V>(kwgens: seq<(string, Generator<V>)>)
    requires kwgens != [] && DistinctNames(kwgens)
    ensures kwgens[0].0 !in Names(kwgens[1..])
  {
    NamesMembers(kwgens[1..], kwgens[0].0);
    forall i | 0 <= i < |kwgens| - 1
      ensures kwgens[1..][i].0 != kwgens[0].0
    {
      assert kwgens[1..][i] == kwgens[i + 1];
    }
  }

  /** What `cls(*s, **kw)` receives. */
  datatype Arguments<V> = Arguments(positional: seq<Arg<V>>, keywords: map<string, V>)

  /** A slice that `get_slice` can return for these parameters. */
  predicate GeneratedSlice(s: Slice, frameRate: int, streamSize: int, ratio: real) {
    s.stop - s.start == Block(frameRate, ratio) && 0 <= s.start && s.stop <= streamSize - 1
  }

  /** `[get_slice(frame_rate, stream_size, ratio) for i in range(n)]`, drawn in order. */
  function DrawSlices(n: int, frameRate: int, streamSize: int, ratio: real, src: Source): (r: Result<(seq<Slice>, Source)>)
    decreases n
    ensures r.Err? <==> n > 0 && Block(frameRate, ratio) >= streamSize
    ensures r.Ok? ==> |r.value.0| == (if n < 0 then 0 else n)
    ensures r.Ok? ==> forall i :: 0 <= i < |r.value.0| ==>
      GeneratedSlice(r.value.0[i], frameRate, streamSize, ratio)
  {
    if n <= 0 then Ok(([], src))
    else
      match GetSlice(frameRate, streamSize, ratio, src)
      case Err(e) => Err(e)
      case Ok((s, next)) =>
        match DrawSlices(n - 1, frameRate, streamSize, ratio, next)
        case Err(e) => Err(e)
        case Ok((rest, last)) => Ok(([s] + rest, last))
  }

  /** `map(lambda x: x(), args)`: each generator called once, in order. */
  function Values<V>(gens: seq<Generator<V>>, src: Source): (r: Result<(seq<V>, Source)>)
    decreases |gens|
    ensures r.Ok? ==> |r.value.0| == |gens|
    ensures Total(gens) ==> r.Ok?
  {
    if gens == [] then Ok(([], src))
    else
      match gens[0](src)
      case Err(e) => Err(e)
      case Ok((v, next)) =>
        assert Total(gens) ==> Total(gens[1..]) by {
          assert forall j :: 0 <= j < |gens| - 1 ==> gens[1..][j] == gens[j + 1];
        }
        match Values(gens[1..], next)
        case Err(e) => Err(e)
        case Ok((rest, last)) => Ok(([v] + rest, last))
  }

  /** `{k: v() for k, v in kwargs.items()}`: the generators called in the
      order of `items()`, given here as a sequence; a later entry of the same
      name replaces an earlier one. */
  function Keywords<V>(kwgens: seq<(string, Generator<V>)>, src: Source): (r: Result<(map<string, V>, Source)>)
    decreases |kwgens|
    ensures r.Ok? ==> r.value.0.Keys == Names(kwgens)
    ensures Total(Gens(kwgens)) ==> r.Ok?
  {
    if kwgens == [] then Ok((map[], src))
    else
      match kwgens[0].1(src)
      case Err(e) => Err(e)
      case Ok((v, next)) =>
        assert Total(Gens(kwgens)) ==> Total(Gens(kwgens[1..])) by {
          assert forall j :: 0 <= j < |kwgens| - 1 ==> Gens(kwgens[1..])[j] == Gens(kwgens)[j + 1];
        }
        match Keywords(kwgens[1..], next)
        case Err(e) => Err(e)
        case Ok((m, last)) =>
          Ok((map[kwgens[0].0 := v] + m, last))
  }

  /** `s` after `s += map(...)`: the slices, then the values. */
  function Layout<V>(ss: seq<Slice>, vs: seq<V>): (r: seq<Arg<V>>)
    ensures |r| == |ss| + |vs|
    ensures forall i :: 0 <= i < |ss| ==> r[i] == SliceArg(ss[i])
    ensures forall j :: 0 <= j < |vs| ==> r[|ss| + j] == ValueArg(vs[j])
  {
    seq(|ss|, i requires 0 <= i < |ss| => SliceArg(ss[i])) + seq(|vs|, i requires 0 <= i < |vs| => ValueArg(vs[i]))
  }

  /** `generate(frame_rate, stream_size, ratio)` installed by
      `generated(slices, *args, **kwargs)`: the slices first, then one value per
      positional generator, then the keyword values. */
  function Generate<V>(slices: int, gens: seq<Generator<V>>, kwgens: seq<(string, Generator<V>)>,
                       frameRate: int, streamSize: int, ratio: real, src: Source): (r: Result<(Arguments<V>, Source)>)
    ensures slices > 0 && Block(frameRate, ratio) >= streamSize ==> r == Err(EmptyRange)
    ensures Total(gens) && Total(Gens(kwgens)) ==>
      (r.Err? <==> slices > 0 && Block(frameRate, ratio) >= streamSize)
    ensures r.Ok? ==> var n := if slices < 0 then 0 else slices;
      && |r.value.0.positional| == n + |gens|
      && (forall i :: 0 <= i < n ==> r.value.0.positional[i].SliceArg?)
      && (forall i :: 0 <= i < n ==>
            GeneratedSlice(r.value.0.positional[i].slice, frameRate, streamSize, ratio))
      && (forall i :: n <= i < n + |gens| ==> r.value.0.positional[i].ValueArg?)
      && r.value.0.keywords.Keys == Names(kwgens)
  {
    match DrawSlices(slices, frameRate, streamSize, ratio, src)
    case Err(e) => Err(e)
    case Ok((ss, s1)) =>
      match Values(gens, s1)
      case Err(e) => Err(e)
      case Ok((vs, s2)) =>
        match Keywords(kwgens, s2)
        case Err(e) => Err(e)
        case Ok((kw, s3)) =>
          Ok((Arguments(Layout(ss, vs), kw), s3))
  }

  /** Generators that ignore the source contribute their values in the order given. */
  lemma {:induction false} ValuesInOrder<V>(gens: seq<Generator<V>>, vals: seq<V>, src: Source)
    requires |vals| == |gens|
    requires forall j, s :: 0 <= j < |gens| ==> gens[j](s) == Ok((vals[j], s))
    ensures Values(gens, src) == Ok((vals, src))
    decreases |gens|
  {
    if gens != [] {
      assert gens[0](src) == Ok((vals[0], src));
      ValuesInOrder(gens[1..], vals[1..], src);
      assert [vals[0]] + vals[1..] == vals;
    }
  }

  /** One-draw generators are called in order: value j comes from the draw
      after the j earlier ones. */
  lemma {:induction false} ValuesOneDraw<V>(gens: seq<Generator<V>>, src: Source)
    requires forall j :: 0 <= j < |gens| ==> OneDraw(gens[j])
    ensures var r := Values(gens, src);
      && r.Ok?
      && r.value.1 == Source(src.tape, src.pos + |gens|)
      && ValuesDrawn(gens, r.value.0, src.tape, src.pos)
    decreases |gens|
  {
    if gens != [] {
      var t, p := src.tape, src.pos;
      assert OneDraw(gens[0]);
      var v, next := gens[0](src).value.0, Next(src);
      assert gens[0](src) == Ok((v, next));
      var tail := gens[1..];
      assert forall j :: 0 <= j < |tail| ==> tail[j] == gens[j + 1];
      ValuesOneDraw(tail, next);
      var rest := Values(tail, next).value.0;
      assert Values(gens, src) == Ok(([v] + rest, Values(tail, next).value.1));
      assert ValuesDrawn(tail, rest, next.tape, next.pos);
      ValuesStep(gens, v, rest, t, p);
    }
  }

  /** One step of `ValuesOneDraw`: the head's draw comes first. */
  lemma ValuesStep<V>(gens: seq<Generator<V>>, v: V, rest: seq<V>, t: nat -> nat, p: nat)
    requires gens != []
    requires gens[0](Source(t, p)) == Ok((v, Source(t, p + 1)))
    requires ValuesDrawn(gens[1..], rest, t, p + 1)
    ensures ValuesDrawn(gens, [v] + rest, t, p)
  {
    var all := [v] + rest;
    forall j | 0 <= j < |gens|
      ensures gens[j](Source(t, p + j)) == Ok((all[j], Source(t, p + j + 1)))
    {
      if j == 0 {
        assert Source(t, p) == Source(t, p + 0);
      } else {
        assert gens[1..][j - 1] == gens[j] && all[j] == rest[j - 1];
        assert Source(t, p + 1 + (j - 1)) == Source(t, p + j);
        assert Source(t, p + 1 + (j - 1) + 1) == Source(t, p + j + 1);
      }
    }
  }

  /** Each entry's name is in `kw` and holds what its generator gives on the
      source the earlier entries' generators left. */
  ghost predicate KeywordsFrom<V>(kwgens: seq<(string, Generator<V>)>, kw: map<string, V>, src: Source)
    decreases |kwgens|
  {
    kwgens != [] ==>
      match kwgens[0].1(src)
      case Err(_) => false
      case Ok((v, next)) => kwgens[0].0 in kw && kw[kwgens[0].0] == v && KeywordsFrom(kwgens[1..], kw, next)
  }

  /** `KeywordsFrom` only looks at the entries' names. */
  lemma {:induction false} KeywordsFromAgree<V>(kwgens: seq<(string, Generator<V>)>, m1: map<string, V>, m2: map<string, V>, src: Source)
    requires KeywordsFrom(kwgens, m1, src)
    requires forall k :: k in Names(kwgens) ==> k in m1 && k in m2 && m2[k] == m1[k]
    ensures KeywordsFrom(kwgens, m2, src)
    decreases |kwgens|
  {
    if kwgens != [] {
      var next := kwgens[0].1(src).value.1;
      KeywordsFromAgree(kwgens[1..], m1, m2, next);
    }
  }

  /** With distinct names, the value stored under each name is what its
      generator gave on the source the earlier generators left, whatever
      the generators draw. */
  lemma {:induction false} KeywordsInOrder<V>(kwgens: seq<(string, Generator<V>)>, src: Source)
    requires DistinctNames(kwgens)
    requires Keywords(kwgens, src).Ok?
    ensures KeywordsFrom(kwgens, Keywords(kwgens, src).value.0, src)
    decreases |kwgens|
  {
    if kwgens != [] {
      var h := kwgens[0].1(src);
      var tail := kwgens[1..];
      var rest := Keywords(tail, h.value.1);
      KeywordsHead(kwgens, src, h.value.0, h.value.1, rest.value.0, rest.value.1);
      KeywordsTailDistinct(kwgens);
      KeywordsInOrder(tail, h.value.1);
      HeadNotInTail(kwgens);
      var m := map[kwgens[0].0 := h.value.0] + rest.value.0;
      KeywordsFromAgree(tail, rest.value.0, m, h.value.1);
    }
  }

  /** The rest of a sequence with distinct names has distinct names. */
  lemma KeywordsTailDistinct<V>(kwgens: seq<(string, Generator<V>)>)
    requires kwgens != [] && DistinctNames(kwgens)
    ensures DistinctNames(kwgens[1..])
  {
    assert forall j :: 0 <= j < |kwgens| - 1 ==> kwgens[1..][j] == kwgens[j + 1];
  }

  /** Each entry's name is in `kw` and holds what its generator gave on the
      draw after the j earlier ones, starting at position `pos` of `tape`. */
  ghost predicate KeywordsDrawn<V>(kwgens: seq<(string, Generator<V>)>, kw: map<string, V>, tape: nat -> nat, pos: nat) {
    forall j :: 0 <= j < |kwgens| ==>
      && kwgens[j].0 in kw
      && kwgens[j].1(Source(tape, pos + j)) == Ok((kw[kwgens[j].0], Source(tape, pos + j + 1)))
  }

  /** One-draw keyword generators with distinct names: the value stored
      under name j comes from the draw after the j earlier ones. */
  lemma {:induction false} KeywordsOneDraw<V>(kwgens: seq<(string, Generator<V>)>, src: Source)
    requires DistinctNames(kwgens)
    requires forall j :: 0 <= j < |kwgens| ==> OneDraw(kwgens[j].1)
    ensures var r := Keywords(kwgens, src);
      && r.Ok?
      && r.value.1 == Source(src.tape, src.pos + |kwgens|)
      && KeywordsDrawn(kwgens, r.value.0, src.tape, src.pos)
    decreases |kwgens|
  {
    if kwgens != [] {
      assert OneDraw(kwgens[0].1);
      var h := kwgens[0].1(src);
      var tail := kwgens[1..];
      KeywordsTail(kwgens);
      KeywordsOneDraw(tail, h.value.1);
      var rest := Keywords(tail, h.value.1);
      KeywordsHead(kwgens, src, h.value.0, h.value.1, rest.value.0, rest.value.1);
      HeadNotInTail(kwgens);
      KeywordsStep(kwgens, h.value.0, rest.value.0, src.tape, src.pos);
    }
  }

  /** The rest of a sequence of one-draw generators with distinct names is one too. */
  lemma KeywordsTail<V>(kwgens: seq<(string, Generator<V>)>)
    requires kwgens != []
    requires DistinctNames(kwgens) && forall j :: 0 <= j < |kwgens| ==> OneDraw(kwgens[j].1)
    ensures DistinctNames(kwgens[1..]) && forall j :: 0 <= j < |kwgens| - 1 ==> OneDraw(kwgens[1..][j].1)
  {
    assert forall j :: 0 <= j < |kwgens| - 1 ==> kwgens[1..][j] == kwgens[j + 1];
  }

  /** `Keywords` on a non-empty sequence: the head's entry over the rest's map. */
  lemma KeywordsHead<V>(kwgens: seq<(string, Generator<V>)>, src: Source, v: V, next: Source, m: map<string, V>, last: Source)
    requires kwgens != [] && kwgens[0].1(src) == Ok((v, next))
    requires Keywords(kwgens[1..], next) == Ok((m, last))
    ensures Keywords(kwgens, src) == Ok((map[kwgens[0].0 := v] + m, last))
  {
  }

  /** One step of `KeywordsOneDraw`: the head's draw comes first. */
  lemma KeywordsStep<V>(kwgens: seq<(string, Generator<V>)>, v: V, m: map<string, V>, t: nat -> nat, p: nat)
    requires kwgens != [] && kwgens[0].0 !in m
    requires kwgens[0].1(Source(t, p)) == Ok((v, Source(t, p + 1)))
    requires KeywordsDrawn(kwgens[1..], m, t, p + 1)
    ensures KeywordsDrawn(kwgens, map[kwgens[0].0 := v] + m, t, p)
  {
    var r := map[kwgens[0].0 := v] + m;
    forall j | 0 <= j < |kwgens|
      ensures kwgens[j].0 in r
      ensures kwgens[j].1(Source(t, p + j)) == Ok((r[kwgens[j].0], Source(t, p + j + 1)))
    {
      if j == 0 {
        assert Source(t, p) == Source(t, p + 0);
      } else {
        var k := kwgens[j].0;
        assert kwgens[1..][j - 1] == kwgens[j];
        assert Source(t, p + 1 + (j - 1)) == Source(t, p + j);
        assert Source(t, p + 1 + (j - 1) + 1) == Source(t, p + j + 1);
        assert k in m && m[k] == r[k];
      }
    }
  }

  /** Each value is what its generator gave on the draw after the j earlier
      ones, starting at position `pos` of `tape`. */
  ghost predicate ValuesDrawn<V>(gens: seq<Generator<V>>, vs: seq<V>, tape: nat -> nat, pos: nat) {
    && |vs| == |gens|
    && forall j :: 0 <= j < |gens| ==> gens[j](Source(tape, pos + j)) == Ok((vs[j], Source(tape, pos + j + 1)))
  }

  /** Slice i is what `get_slice` gives on the i-th draw from position `pos`. */
  ghost predicate SlicesDrawn(ss: seq<Slice>, frameRate: int, streamSize: int, ratio: real, tape: nat -> nat, pos: nat) {
    forall i :: 0 <= i < |ss| ==>
      GetSlice(frameRate, streamSize, ratio, Source(tape, pos + i)) == Ok((ss[i], Source(tape, pos + i + 1)))
  }

  /** `get_slice` n times in a row: slice i comes from the i-th draw. */
  lemma {:induction false} DrawSlicesInOrder(n: nat, frameRate: int, streamSize: int, ratio: real, src: Source)
    requires Block(frameRate, ratio) < streamSize
    ensures var r := DrawSlices(n, frameRate, streamSize, ratio, src);
      && r.Ok?
      && |r.value.0| == n
      && r.value.1 == Source(src.tape, src.pos + n)
      && SlicesDrawn(r.value.0, frameRate, streamSize, ratio, src.tape, src.pos)
    decreases n
  {
    if n > 0 {
      var (s, next) := GetSlice(frameRate, streamSize, ratio, src).value;
      DrawSlicesInOrder(n - 1, frameRate, streamSize, ratio, next);
      var rest := DrawSlices(n - 1, frameRate, streamSize, ratio, next).value.0;
      assert DrawSlices(n, frameRate, streamSize, ratio, src).value.0 == [s] + rest;
      assert GetSlice(frameRate, streamSize, ratio, src) == Ok((s, Source(src.tape, src.pos + 1)));
      SlicesStep(s, rest, frameRate, streamSize, ratio, src.tape, src.pos);
    }
  }

  /** One step of `DrawSlicesInOrder`: the first slice comes first. */
  lemma SlicesStep(s: Slice, rest: seq<Slice>, frameRate: int, streamSize: int, ratio: real, t: nat -> nat, p: nat)
    requires GetSlice(frameRate, streamSize, ratio, Source(t, p)) == Ok((s, Source(t, p + 1)))
    requires SlicesDrawn(rest, frameRate, streamSize, ratio, t, p + 1)
    ensures SlicesDrawn([s] + rest, frameRate, streamSize, ratio, t, p)
  {
    var all := [s] + rest;
    forall i | 0 <= i < |all|
      ensures GetSlice(frameRate, streamSize, ratio, Source(t, p + i)) == Ok((all[i], Source(t, p + i + 1)))
    {
      if i == 0 {
        assert Source(t, p) == Source(t, p + 0);
      } else {
        assert all[i] == rest[i - 1];
        assert Source(t, p + 1 + (i - 1)) == Source(t, p + i);
        assert Source(t, p + 1 + (i - 1) + 1) == Source(t, p + i + 1);
      }
    }
  }

  /** `generate` with one-draw generators on a stream the block fits: the
      slices are drawn first, then the positional values, then the keyword
      values, each from the next draw. */
  lemma GenerateOneDraw<V>(slices: nat, gens: seq<Generator<V>>, kwgens: seq<(string, Generator<V>)>,
                           frameRate: int, streamSize: int, ratio: real, src: Source)
    requires Block(frameRate, ratio) < streamSize
    requires forall j :: 0 <= j < |gens| ==> OneDraw(gens[j])
    requires DistinctNames(kwgens) && forall j :: 0 <= j < |kwgens| ==> OneDraw(kwgens[j].1)
    ensures var r := Generate(slices, gens, kwgens, frameRate, streamSize, ratio, src);
      && r.Ok?
      && r.value.1 == Source(src.tape, src.pos + slices + |gens| + |kwgens|)
      && (exists ss, vs ::
           && r.value.0.positional == Layout(ss, vs)
           && |ss| == slices
           && SlicesDrawn(ss, frameRate, streamSize, ratio, src.tape, src.pos)
           && ValuesDrawn(gens, vs, src.tape, src.pos + slices))
      && KeywordsDrawn(kwgens, r.value.0.keywords, src.tape, src.pos + slices + |gens|)
  {
    DrawSlicesInOrder(slices, frameRate, streamSize, ratio, src);
    var d := DrawSlices(slices, frameRate, streamSize, ratio, src);
    ValuesOneDraw(gens, d.value.1);
    var v := Values(gens, d.value.1);
    KeywordsOneDraw(kwgens, v.value.1);
    var k := Keywords(kwgens, v.value.1);
    GenerateSteps(slices, gens, kwgens, frameRate, streamSize, ratio, src,
                  d.value.0, d.value.1, v.value.0, v.value.1, k.value.0, k.value.1);
    StagesDrawn(slices, gens, kwgens, frameRate, streamSize, ratio, src,
                d.value.0, d.value.1, v.value.0, v.value.1, k.value.0, k.value.1);
    var r := Generate(slices, gens, kwgens, frameRate, streamSize, ratio, src);
    assert r.value.0.positional == Layout(d.value.0, v.value.0);
    assert |d.value.0| == slices;
    assert SlicesDrawn(d.value.0, frameRate, streamSize, ratio, src.tape, src.pos);
  }

  /** What the three stages of `GenerateOneDraw` drew, at the positions
      counted from the start. */
  lemma StagesDrawn<V>(slices: nat, gens: seq<Generator<V>>, kwgens: seq<(string, Generator<V>)>,
                       frameRate: int, streamSize: int, ratio: real, src: Source,
                       ss: seq<Slice>, s1: Source, vs: seq<V>, s2: Source, kw: map<string, V>, s3: Source)
    requires s1 == Source(src.tape, src.pos + slices)
    requires s2 == Source(s1.tape, s1.pos + |gens|) && ValuesDrawn(gens, vs, s1.tape, s1.pos)
    requires s3 == Source(s2.tape, s2.pos + |kwgens|) && KeywordsDrawn(kwgens, kw, s2.tape, s2.pos)
    ensures s3 == Source(src.tape, src.pos + slices + |gens| + |kwgens|)
    ensures ValuesDrawn(gens, vs, src.tape, src.pos + slices)
    ensures KeywordsDrawn(kwgens, kw, src.tape, src.pos + slices + |gens|)
  {
    ValuesAt(gens, vs, s1, src.tape, src.pos + slices);
    KeywordsAt(kwgens, kw, s2, src.tape, src.pos + slices + |gens|);
  }

  /** `ValuesDrawn` depends on the source only through its tape and position. */
  lemma ValuesAt<V>(gens: seq<Generator<V>>, vs: seq<V>, s: Source, t: nat -> nat, q: nat)
    requires ValuesDrawn(gens, vs, s.tape, s.pos) && s == Source(t, q)
    ensures ValuesDrawn(gens, vs, t, q)
  {
  }

  /** `KeywordsDrawn` depends on the source only through its tape and position. */
  lemma KeywordsAt<V>(kwgens: seq<(string, Generator<V>)>, kw: map<string, V>, s: Source, t: nat -> nat, q: nat)
    requires KeywordsDrawn(kwgens, kw, s.tape, s.pos) && s == Source(t, q)
    ensures KeywordsDrawn(kwgens, kw, t, q)
  {
  }

  /** `generate` puts together what its three stages give. */
  lemma GenerateSteps<V>(slices: nat, gens: seq<Generator<V>>, kwgens: seq<(string, Generator<V>)>,
                         frameRate: int, streamSize: int, ratio: real, src: Source,
                         ss: seq<Slice>, s1: Source, vs: seq<V>, s2: Source, kw: map<string, V>, s3: Source)
    requires DrawSlices(slices, frameRate, streamSize, ratio, src) == Ok((ss, s1))
    requires Values(gens, s1) == Ok((vs, s2))
    requires Keywords(kwgens, s2) == Ok((kw, s3))
    ensures Generate(slices, gens, kwgens, frameRate, streamSize, ratio, src) == Ok((Arguments(Layout(ss, vs), kw), s3))
  {
  }

  /** The doctest of `generated`: one slice of `generate(1, 100)`, then
      `'test'` as the second constructor argument. */
  lemma GenerateDoctest(src: Source)
    ensures var gens: seq<Generator<string>> := [(s: Source) => Ok(("test", s))];
      var r := Generate(1, gens, [], 1, 100, 1.0, src);
      && r.Ok?
      && |r.value.0.positional| == 2
      && r.value.0.positional[0].SliceArg?
      && 0 <= r.value.0.positional[0].slice.start <= 98
      && r.value.0.positional[0].slice.stop == r.value.0.positional[0].slice.start + 1
      && r.value.0.positional[1] == ValueArg("test")
  {
    var gens: seq<Generator<string>> := [(s: Source) => Ok(("test", s))];
    assert Block(1, 1.0) == 1;
    var sl := DrawSlices(1, 1, 100, 1.0, src);
    assert sl.Ok?;
    ValuesInOrder(gens, ["test"], sl.value.1);
  }
}
