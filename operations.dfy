/** The class-based operation catalog. An operation names one region
    transform and the channel it works on; operations are linked into a
    singly linked chain with `&`, and calling the head of a chain applies
    every operation in turn to the same stream, in place. */
module Operations {
  import opened Results
  import opened Slices
  import Regions
  import opened RandomSource
  import opened Randomizers

  type Stream = Regions.Stream

  /** The operation classes with the parameters their constructors store. */
  datatype Op =
    | Base(target: Option<int>)
    | Swap(a: Slice, b: Slice, channel: int)
    | Invert(s: Slice, channel: int)
    | Reverse(s: Slice, channel: int)
    | Dup(a: Slice, b: Slice, channel: int)
    | Stutter(s: Slice, cuts: int, channel: int)
    | FrameSmear(s: Slice, channel: int)
    | FlipStereo(s: Slice)
    | InterleaveStereo(s: Slice)

  /** The operations whose `__call__` hands `munge` a single channel. */
  predicate OnChannel(op: Op) {
    !op.Base? && !op.FlipStereo? && !op.InterleaveStereo?
  }

  /** `stream[i]` on a list of n channels: a negative index counts from the
      end; anything else out of range raises IndexError. */
  function ChannelIndex(i: int, n: nat): (r: Result<nat>)
    ensures r.Err? <==> i >= n || i + n < 0
    ensures r.Err? ==> r.error == IndexOutOfRange
    ensures r.Ok? ==> r.value < n && (if i >= 0 then r.value == i else r.value == i + n)
  {
    if 0 <= i < n then Ok(i)
    else if i < 0 && 0 <= i + n then Ok(i + n)
    else Err(IndexOutOfRange)
  }

  /** `munge` of a single-channel operation on the channel it was handed. */
  function MungeChannel(op: Op, ch: seq<int>): (r: Result<seq<int>>)
    requires OnChannel(op)
    ensures r.Err? <==> op.Stutter? && op.cuts == 0
    ensures r.Err? ==> r.error == ZeroDivision
  {
    match op
    case Swap(a, b, _) => Ok(Regions.Swap(ch, a, b))
    case Invert(s, _) => Ok(Regions.Invert(ch, s))
    case Reverse(s, _) => Ok(Regions.Reverse(ch, s))
    case Dup(a, b, _) => Ok(Regions.Dup(ch, a, b))
    case Stutter(s, cuts, _) => if cuts == 0 then Err(ZeroDivision) else Ok(Regions.Stutter(ch, s, cuts))
    case FrameSmear(s, _) => Ok(Regions.Smear(ch, s))
  }

  /** One node's `__call__` without the walk to the next node: select the
      channel (if any), then munge. A failing node raises before it writes. */
  function Apply(op: Op, st: Stream): (r: Result<Stream>)
    ensures r.Ok? ==> |r.value| == |st|
    ensures op.Base? ==>
      r == (if op.target.None? || (0 <= op.target.value + |st| && op.target.value < |st|) then Ok(st)
            else Err(IndexOutOfRange))
    ensures op.FlipStereo? || op.InterleaveStereo? ==> (r.Err? <==> |st| < 2)
    ensures OnChannel(op) ==>
      (r.Err? <==> op.channel >= |st| || op.channel + |st| < 0 || (op.Stutter? && op.cuts == 0))
    ensures OnChannel(op) && r.Ok? ==>
      forall j :: 0 <= j < |st| && j != ChannelIndex(op.channel, |st|).value ==> r.value[j] == st[j]
  {
    match op
    case Base(target) =>
      if target.None? then Ok(st)
      else (match ChannelIndex(target.value, |st|)
            case Err(e) => Err(e)
            case Ok(_) => Ok(st))
    case FlipStereo(s) =>
      if |st| < 2 then Err(IndexOutOfRange) else Ok(Regions.FlipStereo(st, s))
    case InterleaveStereo(s) =>
      if |st| < 2 then Err(IndexOutOfRange) else Ok(Regions.InterleaveStereo(st, s))
    case _ =>
      match ChannelIndex(op.channel, |st|)
      case Err(e) => Err(e)
      case Ok(k) =>
        match MungeChannel(op, st[k])
        case Err(e) => Err(e)
        case Ok(ch) => Ok(st[k := ch])
  }

  /** Calling a chain whose nodes carry `ops`: each node in order until one
      raises; the stream keeps what the earlier nodes wrote. */
  function RunChain(ops: seq<Op>, st: Stream): (r: (Stream, Option<Error>))
    decreases |ops|
    ensures |r.0| == |st|
    ensures ops == [] ==> r == (st, None)
  {
    if ops == [] then (st, None)
    else
      match Apply(ops[0], st)
      case Err(e) => (st, Some(e))
      case Ok(next) => RunChain(ops[1..], next)
  }

  /** Calling `a & b` is calling `a`'s chain and then, if nothing raised, `b`'s. */
  lemma {:induction false} RunChainAppend(xs: seq<Op>, ys: seq<Op>, st: Stream)
    decreases |xs|
    ensures RunChain(xs + ys, st) ==
      (var (mid, err) := RunChain(xs, st);
       if err.Some? then (mid, err) else RunChain(ys, mid))
  {
    if xs == [] {
      assert xs + ys == ys;
    } else {
      assert (xs + ys)[0] == xs[0];
      assert (xs + ys)[1..] == xs[1..] + ys;
      match Apply(xs[0], st)
      case Err(e) =>
      case Ok(next) => RunChainAppend(xs[1..], ys, next);
    }
  }

  /** A chain whose nodes all succeed on the stream each receives reaches the
      end: an error names the first node that raised. */
  lemma {:induction false} RunChainError(ops: seq<Op>, st: Stream)
    decreases |ops|
    ensures RunChain(ops, st).1.Some? <==>
      exists i :: 0 <= i < |ops| && Apply(ops[i], RunChain(ops[..i], st).0).Err? &&
        RunChain(ops[..i], st).1.None?
  {
    if ops != [] {
      assert ops[..0] == [];
      match Apply(ops[0], st)
      case Err(e) =>
      case Ok(next) =>
        RunChainError(ops[1..], next);
        forall i | 1 <= i <= |ops|
          ensures RunChain(ops[..i], st) == RunChain(ops[1..][..i - 1], next)
        {
          assert ops[..i][0] == ops[0];
          assert ops[..i][1..] == ops[1..][..i - 1];
        }
        if RunChain(ops, st).1.Some? {
          var j :| 0 <= j < |ops| - 1 && Apply(ops[1..][j], RunChain(ops[1..][..j], next).0).Err? &&
            RunChain(ops[1..][..j], next).1.None?;
          assert Apply(ops[j + 1], RunChain(ops[..j + 1], st).0).Err?;
        }
        if exists i :: 0 <= i < |ops| && Apply(ops[i], RunChain(ops[..i], st).0).Err? &&
             RunChain(ops[..i], st).1.None? {
          var i :| 0 <= i < |ops| && Apply(ops[i], RunChain(ops[..i], st).0).Err? &&
            RunChain(ops[..i], st).1.None?;
          assert i >= 1;
          assert Apply(ops[1..][i - 1], RunChain(ops[1..][..i - 1], next).0).Err?;
        }
    }
  }

  // ---------------------------------------------------------------- the loops inside munge

  /** The loop of `FrameSmear.munge` over its copy of the region. */
  method SmearRegion(region: seq<int>) returns (sl: seq<int>)
    ensures sl == Regions.Smeared(region)
  {
    var total, count := 0, 0;
    sl := region;
    var i := 0;
    while i < |sl|
      invariant 0 <= i <= |region| && |sl| == |region| && count == i
      invariant total == Regions.Sum(region[..i])
      invariant forall j :: 0 <= j < i ==> sl[j] == Regions.Sum(region[..j + 1]) / (j + 1)
      invariant forall j :: i <= j < |sl| ==> sl[j] == region[j]
    {
      total := total + sl[i];
      count := count + 1;
      assert region[..i + 1][..i] == region[..i];
      sl := sl[i := total / count];
      i := i + 1;
    }
  }

  /** The loop of `InterleaveStereo.munge` over the zipped regions. */
  method InterleaveRegions(first: seq<int>, second: seq<int>) returns (left: seq<int>, right: seq<int>)
    ensures left == Regions.Alternate(first, second)
    ensures right == Regions.Alternate(second, first)
  {
    var n := if |first| < |second| then |first| else |second|;
    left, right := [], [];
    var i := 0;
    while i < n
      invariant 0 <= i <= n && |left| == i && |right| == i
      invariant forall j :: 0 <= j < i ==> left[j] == if j % 2 == 0 then first[j] else second[j]
      invariant forall j :: 0 <= j < i ==> right[j] == if j % 2 == 0 then second[j] else first[j]
    {
      if i % 2 == 0 {
        right := right + [second[i]];
        left := left + [first[i]];
      } else {
        right := right + [first[i]];
        left := left + [second[i]];
      }
      i := i + 1;
    }
  }

  /** `munge` of a single-channel operation, statement by statement. */
  method Munge(op: Op, ch: seq<int>) returns (r: seq<int>)
    requires OnChannel(op) && !(op.Stutter? && op.cuts == 0)
    ensures MungeChannel(op, ch) == Ok(r)
  {
    r := ch;
    match op
    case Swap(a, b, _) =>
      var s1 := Get(r, a);
      r := Set(r, a, Get(r, b));
      r := Set(r, b, s1);
    case Invert(s, _) =>
      r := Set(r, s, Regions.Negated(Get(r, s)));
    case Reverse(s, _) =>
      r := Set(r, s, Regions.Reversed(Get(r, s)));
    case Dup(a, b, _) =>
      r := Set(r, b, Get(r, a));
    case Stutter(s, cuts, _) =>
      var full := Get(r, s);
      var size := Regions.RoundedQuotient(|full|, cuts);
      var cut := Regions.Repeat(Get(full, Slice(0, size)), cuts);
      r := Set(r, s, Get(cut, Slice(0, |full|)));
    case FrameSmear(s, _) =>
      var sl := SmearRegion(Get(r, s));
      r := Set(r, s, sl);
  }

  /** `__call__` of a single-channel operation: `self.munge(stream[self.channel])`. */
  method ChannelStep(op: Op, stream: array<seq<int>>) returns (err: Option<Error>)
    requires OnChannel(op)
    modifies stream
    ensures match Apply(op, old(stream[..]))
      case Ok(st) => err == None && stream[..] == st
      case Err(e) => err == Some(e) && stream[..] == old(stream[..])
  {
    var k := ChannelIndex(op.channel, stream.Length);
    if k.Err? {
      err := Some(k.error);
    } else if op.Stutter? && op.cuts == 0 {
      err := Some(ZeroDivision);
    } else {
      ghost var st := stream[..];
      var ch := Munge(op, stream[k.value]);
      stream[k.value] := ch;
      assert stream[..] == st[k.value := ch];
      err := None;
    }
  }

  // ---------------------------------------------------------------- the chain

  /** A node of an operation chain (`BaseOperation` and its subclasses). */
  class Operation {
    const op: Op
    var next: Operation?
    /** The operations of this node and the nodes after it, in order. */
    ghost var chain: seq<Op>
    ghost var Repr: set<Operation>

    ghost predicate Valid()
      reads this, Repr
      decreases Repr
    {
      && this in Repr
      && (next == null ==> chain == [op])
      && (next != null ==>
            && next in Repr && next.Repr <= Repr && this !in next.Repr
            && chain == [op] + next.chain
            && next.Valid())
    }

    constructor (op: Op)
      ensures Valid() && fresh(Repr)
      ensures this.op == op && next == null && chain == [op]
    {
      this.op := op;
      next := null;
      chain := [op];
      Repr := {this};
    }

    /** `self & other`: other is appended at the tail and self is returned. */
    method And(other: Operation) returns (r: Operation)
      requires Valid() && other.Valid() && Repr !! other.Repr
      modifies Repr
      decreases Repr
      ensures r == this && Valid()
      ensures chain == old(chain) + old(other.chain)
      ensures Repr == old(Repr) + old(other.Repr)
    {
      if next != null {
        var _ := next.And(other);
        chain := [op] + next.chain;
      } else {
        next := other;
        chain := [op] + other.chain;
      }
      Repr := Repr + other.Repr;
      r := this;
    }

    /** This node's own `__call__` step: channel selection and `munge`. */
    method Step(stream: array<seq<int>>) returns (err: Option<Error>)
      modifies stream
      ensures match Apply(op, old(stream[..]))
        case Ok(st) => err == None && stream[..] == st
        case Err(e) => err == Some(e) && stream[..] == old(stream[..])
    {
      if OnChannel(op) {
        err := ChannelStep(op, stream);
      } else if op.FlipStereo? {
        if stream.Length < 2 {
          err := Some(IndexOutOfRange);
        } else {
          ghost var st := stream[..];
          var orig := Get(stream[0], op.s);
          stream[0] := Set(stream[0], op.s, Get(stream[1], op.s));
          stream[1] := Set(stream[1], op.s, orig);
          assert stream[..] == Regions.FlipStereo(st, op.s);
          err := None;
        }
      } else if op.InterleaveStereo? {
        if stream.Length < 2 {
          err := Some(IndexOutOfRange);
        } else {
          ghost var st := stream[..];
          var left, right := InterleaveRegions(Get(stream[0], op.s), Get(stream[1], op.s));
          stream[1] := Set(stream[1], op.s, left);
          stream[0] := Set(stream[0], op.s, right);
          assert stream[..] == Regions.InterleaveStereo(st, op.s);
          err := None;
        }
      } else {
        err := None;
        if op.target.Some? {
          var k := ChannelIndex(op.target.value, stream.Length);
          if k.Err? {
            err := Some(k.error);
          }
        }
      }
    }

    /** `__call__`: this node's step, then the rest of the chain. */
    method Call(stream: array<seq<int>>) returns (err: Option<Error>)
      requires Valid()
      modifies stream
      decreases Repr
      ensures (stream[..], err) == RunChain(chain, old(stream[..]))
    {
      ghost var st := stream[..];
      err := Step(stream);
      if next != null {
        assert chain[0] == op && chain[1..] == next.chain;
        if err == None {
          err := next.Call(stream);
        }
      }
    }
  }

  // ---------------------------------------------------------------- generate

  /** The classes that `generated(...)` equips with `generate`. */
  datatype OpClass =
    | SwapClass | InvertClass | ReverseClass | DupClass
    | StutterClass | FrameSmearClass | FlipStereoClass | InterleaveStereoClass

  function ClassOf(op: Op): Option<OpClass> {
    match op
    case Base(_) => None
    case Swap(_, _, _) => Some(SwapClass)
    case Invert(_, _) => Some(InvertClass)
    case Reverse(_, _) => Some(ReverseClass)
    case Dup(_, _, _) => Some(DupClass)
    case Stutter(_, _, _) => Some(StutterClass)
    case FrameSmear(_, _) => Some(FrameSmearClass)
    case FlipStereo(_) => Some(FlipStereoClass)
    case InterleaveStereo(_) => Some(InterleaveStereoClass)
  }

  /** `pick_channel` and `get_cuts` as argument generators. */
  function PickChannelGen(): Generator<int> {
    (src: Source) => Ok(PickChannel(src))
  }

  function GetCutsGen(): Generator<int> {
    (src: Source) => Ok(GetCuts(5, src))
  }

  /** The slice count given to `generated` for each class. */
  function SliceCount(cls: OpClass): nat {
    if cls == SwapClass || cls == DupClass then 2 else 1
  }

  /** The positional generators given to `generated` for each class. */
  function Generators(cls: OpClass): seq<Generator<int>> {
    match cls
    case StutterClass => [GetCutsGen(), PickChannelGen()]
    case FlipStereoClass => []
    case InterleaveStereoClass => []
    case _ => [PickChannelGen()]
  }

  /** Positional arguments: `slices` slices, then at least `required` and at
      most `most` arguments in all, the ones after the slices being values. */
  predicate Fits(p: seq<Arg<int>>, slices: nat, required: nat, most: nat) {
    && required <= |p| <= most
    && forall i :: 0 <= i < |p| ==> (p[i].SliceArg? <==> i < slices)
  }

  /** The parameters after the slices, in order: `cuts` and `channel` for
      `Stutter`, `channel` for the others. */
  function Params(cls: OpClass): seq<string> {
    if cls == StutterClass then ["cuts", "channel"] else ["channel"]
  }

  /** Python's binding of the parameter `name` at position i: the positional
      argument, or the keyword argument, or the default; a parameter given
      both ways, or neither way without a default, is a TypeError. */
  function Param(p: seq<Arg<int>>, kw: map<string, int>, i: nat, name: string, default: Option<int>): (r: Result<int>)
    requires i < |p| ==> p[i].ValueArg?
    ensures r.Err? ==> r.error == ArgumentMismatch
  {
    if i < |p| then
      if name in kw then Err(ArgumentMismatch) else Ok(p[i].value)
    else if name in kw then Ok(kw[name])
    else if default.Some? then Ok(default.value)
    else Err(ArgumentMismatch)
  }

  /** `cls(*positional, **keywords)` for the constructors of the catalog:
      `(a, b, channel=0)`, `(s, channel=0)`, `(s, cuts, channel=0)` and, for
      the stereo classes, `(s, channel=None)` whose channel is never stored.
      Slices are taken positionally; a value parameter may also be given by
      keyword. */
  function Construct(cls: OpClass, args: Arguments<int>): (r: Result<Op>)
    ensures r.Ok? ==> ClassOf(r.value) == Some(cls)
    ensures r.Err? ==> r.error == ArgumentMismatch
    ensures !(SliceCount(cls) <= |args.positional| <= SliceCount(cls) + |Params(cls)|) ==> r.Err?
    ensures (exists k :: k in args.keywords && k !in Params(cls)) ==> r.Err?
  {
    var p, kw, n := args.positional, args.keywords, SliceCount(cls);
    if !Fits(p, n, n, n + |Params(cls)|) then Err(ArgumentMismatch)
    else if exists k :: k in kw && k !in Params(cls) then Err(ArgumentMismatch)
    else
      match cls
      case SwapClass =>
        (match Param(p, kw, 2, "channel", Some(0))
         case Err(e) => Err(e)
         case Ok(c) => Ok(Swap(p[0].slice, p[1].slice, c)))
      case DupClass =>
        (match Param(p, kw, 2, "channel", Some(0))
         case Err(e) => Err(e)
         case Ok(c) => Ok(Dup(p[0].slice, p[1].slice, c)))
      case InvertClass =>
        (match Param(p, kw, 1, "channel", Some(0))
         case Err(e) => Err(e)
         case Ok(c) => Ok(Invert(p[0].slice, c)))
      case ReverseClass =>
        (match Param(p, kw, 1, "channel", Some(0))
         case Err(e) => Err(e)
         case Ok(c) => Ok(Reverse(p[0].slice, c)))
      case FrameSmearClass =>
        (match Param(p, kw, 1, "channel", Some(0))
         case Err(e) => Err(e)
         case Ok(c) => Ok(FrameSmear(p[0].slice, c)))
      case StutterClass =>
        (match Param(p, kw, 1, "cuts", None)
         case Err(e) => Err(e)
         case Ok(cuts) =>
           match Param(p, kw, 2, "channel", Some(0))
           case Err(e) => Err(e)
           case Ok(c) => Ok(Stutter(p[0].slice, cuts, c)))
      case FlipStereoClass =>
        // The default None is never read, so any default stands for it.
        (match Param(p, kw, 1, "channel", Some(0))
         case Err(e) => Err(e)
         case Ok(_) => Ok(FlipStereo(p[0].slice)))
      case InterleaveStereoClass =>
        (match Param(p, kw, 1, "channel", Some(0))
         case Err(e) => Err(e)
         case Ok(_) => Ok(InterleaveStereo(p[0].slice)))
  }

  /** The positional arguments that rebuild an operation: its slices, then
      the values it stores (the stereo classes store no channel). */
  function ArgsOf(op: Op): seq<Arg<int>> {
    match op
    case Base(_) => []
    case Swap(a, b, c) => [SliceArg(a), SliceArg(b), ValueArg(c)]
    case Dup(a, b, c) => [SliceArg(a), SliceArg(b), ValueArg(c)]
    case Invert(s, c) => [SliceArg(s), ValueArg(c)]
    case Reverse(s, c) => [SliceArg(s), ValueArg(c)]
    case FrameSmear(s, c) => [SliceArg(s), ValueArg(c)]
    case Stutter(s, cuts, c) => [SliceArg(s), ValueArg(cuts), ValueArg(c)]
    case FlipStereo(s) => [SliceArg(s)]
    case InterleaveStereo(s) => [SliceArg(s)]
  }

  /** Every operation of the catalog is rebuilt by calling its class on the
      arguments it stores. */
  lemma ConstructArgsOf(op: Op)
    requires ClassOf(op).Some?
    ensures Construct(ClassOf(op).value, Arguments(ArgsOf(op), map[])) == Ok(op)
  {
  }

  /** A constructor called positionally stores what it was given, and 0 for a
      channel left out. */
  lemma ArgsOfConstruct(cls: OpClass, p: seq<Arg<int>>)
    ensures var r := Construct(cls, Arguments(p, map[]));
      r.Ok? ==>
        && (forall i :: 0 <= i < |p| && i < |ArgsOf(r.value)| ==> ArgsOf(r.value)[i] == p[i])
        && (|p| < |ArgsOf(r.value)| ==> ArgsOf(r.value)[|ArgsOf(r.value)| - 1] == ValueArg(0))
  {
  }

  /** Giving the next value parameter by keyword is the same as giving it
      positionally: `Swap(a, b, channel=1)` is `Swap(a, b, 1)`. */
  lemma KeywordAsPositional(cls: OpClass, p: seq<Arg<int>>, c: int)
    requires SliceCount(cls) <= |p| < SliceCount(cls) + |Params(cls)|
    ensures var name := Params(cls)[|p| - SliceCount(cls)];
      Construct(cls, Arguments(p, map[name := c])) == Construct(cls, Arguments(p + [ValueArg(c)], map[]))
  {
    var n := SliceCount(cls);
    var q := p + [ValueArg(c)];
    assert forall i :: 0 <= i < |p| ==> q[i] == p[i];
    var name := Params(cls)[|p| - n];
    assert Construct(cls, Arguments(q, map[])).Ok? ==> Construct(cls, Arguments(p, map[name := c])).Ok?;
  }

  /** Python binds `cls(*positional, **keywords)` without a TypeError: the
      slices and at most the value parameters are given positionally, every
      keyword names a value parameter not already given positionally, and a
      `Stutter` gets its `cuts` one way or the other. */
  predicate Binds(cls: OpClass, args: Arguments<int>) {
    var p, kw, n := args.positional, args.keywords, SliceCount(cls);
    && Fits(p, n, n, n + |Params(cls)|)
    && (forall k :: k in kw ==> k in Params(cls))
    && (forall j :: 0 <= j < |Params(cls)| && n + j < |p| ==> Params(cls)[j] !in kw)
    && (cls == StutterClass && |p| < 2 ==> "cuts" in kw)
  }

  /** A constructor call succeeds exactly when Python binds its arguments. */
  lemma ConstructOk(cls: OpClass, args: Arguments<int>)
    ensures Construct(cls, args).Ok? <==> Binds(cls, args)
  {
  }

  /** A value parameter given both positionally and by keyword is a TypeError. */
  lemma GivenTwice(cls: OpClass, p: seq<Arg<int>>, j: nat, c: int)
    requires j < |Params(cls)| && SliceCount(cls) + j < |p|
    ensures Construct(cls, Arguments(p, map[Params(cls)[j] := c])).Err?
  {
  }

  /** `Stutter(s)`: `cuts` has no default. */
  lemma CutsRequired(s: Slice, kw: map<string, int>)
    requires "cuts" !in kw
    ensures Construct(StutterClass, Arguments([SliceArg(s)], kw)).Err?
  {
  }

  /** `cls.generate(frame_rate, stream_size, ratio)`. */
  function GenerateOp(cls: OpClass, frameRate: int, streamSize: int, ratio: real, src: Source): (r: Result<(Op, Source)>)
  {
    match Generate(SliceCount(cls), Generators(cls), [], frameRate, streamSize, ratio, src)
    case Err(e) => Err(e)
    case Ok((args, next)) =>
      match Construct(cls, args)
      case Err(e) => Err(e)
      case Ok(op) => Ok((op, next))
  }

  /** The parameters a generated operation can carry: slices from `get_slice`,
      channel 0 or 1, one to five cuts. */
  predicate GeneratedParams(op: Op, frameRate: int, streamSize: int, ratio: real) {
    match op
    case Base(_) => false
    case Swap(a, b, channel) =>
      GeneratedSlice(a, frameRate, streamSize, ratio) && GeneratedSlice(b, frameRate, streamSize, ratio) &&
      0 <= channel <= 1
    case Dup(a, b, channel) =>
      GeneratedSlice(a, frameRate, streamSize, ratio) && GeneratedSlice(b, frameRate, streamSize, ratio) &&
      0 <= channel <= 1
    case Invert(s, channel) => GeneratedSlice(s, frameRate, streamSize, ratio) && 0 <= channel <= 1
    case Reverse(s, channel) => GeneratedSlice(s, frameRate, streamSize, ratio) && 0 <= channel <= 1
    case FrameSmear(s, channel) => GeneratedSlice(s, frameRate, streamSize, ratio) && 0 <= channel <= 1
    case Stutter(s, cuts, channel) =>
      GeneratedSlice(s, frameRate, streamSize, ratio) && 1 <= cuts <= 5 && 0 <= channel <= 1
    case FlipStereo(s) => GeneratedSlice(s, frameRate, streamSize, ratio)
    case InterleaveStereo(s) => GeneratedSlice(s, frameRate, streamSize, ratio)
  }

  /** Generators that never fail, generator j producing values of [lo[j], hi[j]]. */
  ghost predicate Bounded(gens: seq<Generator<int>>, lo: seq<int>, hi: seq<int>) {
    && |lo| == |gens| && |hi| == |gens|
    && forall j, s :: 0 <= j < |gens| ==> gens[j](s).Ok? && lo[j] <= gens[j](s).value.0 <= hi[j]
  }

  lemma {:induction false} ValuesWithin(gens: seq<Generator<int>>, src: Source, lo: seq<int>, hi: seq<int>)
    requires Bounded(gens, lo, hi)
    ensures Values(gens, src).Ok?
    ensures forall j :: 0 <= j < |gens| ==> lo[j] <= Values(gens, src).value.0[j] <= hi[j]
    decreases |gens|
  {
    if gens != [] {
      assert gens[0](src).Ok?;
      assert Bounded(gens[1..], lo[1..], hi[1..]) by {
        forall j, s | 0 <= j < |gens| - 1
          ensures gens[1..][j](s).Ok? && lo[1..][j] <= gens[1..][j](s).value.0 <= hi[1..][j]
        {
          assert gens[1..][j] == gens[j + 1];
        }
      }
      ValuesWithin(gens[1..], gens[0](src).value.1, lo[1..], hi[1..]);
    }
  }

  /** With bounded generators and no keywords, `generate` fails exactly when
      the block does not fit, and otherwise lays out `n` generated slices
      followed by one bounded value per generator. */
  lemma GenerateLayout(n: nat, gens: seq<Generator<int>>, lo: seq<int>, hi: seq<int>,
                       frameRate: int, streamSize: int, ratio: real, src: Source)
    requires n > 0 && Bounded(gens, lo, hi)
    ensures var r := Generate(n, gens, [], frameRate, streamSize, ratio, src);
      && (r.Err? <==> Block(frameRate, ratio) >= streamSize)
      && (r.Err? ==> r.error == EmptyRange)
      && (r.Ok? ==>
            && r.value.0.keywords == map[]
            && Fits(r.value.0.positional, n, n + |gens|, n + |gens|)
            && (forall i :: 0 <= i < n ==>
                  GeneratedSlice(r.value.0.positional[i].slice, frameRate, streamSize, ratio))
            && (forall j :: 0 <= j < |gens| ==>
                  lo[j] <= r.value.0.positional[n + j].value <= hi[j]))
  {
    var ss := DrawSlices(n, frameRate, streamSize, ratio, src);
    if ss.Ok? {
      ValuesWithin(gens, ss.value.1, lo, hi);
    }
  }

  lemma PickChannelBounded()
    ensures Bounded([PickChannelGen()], [0], [1])
  {
    forall j, s | 0 <= j < 1
      ensures [PickChannelGen()][j](s).Ok? && 0 <= [PickChannelGen()][j](s).value.0 <= 1
    {
      assert [PickChannelGen()][j](s) == Ok(PickChannel(s));
    }
  }

  lemma StutterGeneratorsBounded()
    ensures Bounded([GetCutsGen(), PickChannelGen()], [1, 0], [5, 1])
  {
    var gens := [GetCutsGen(), PickChannelGen()];
    forall j, s | 0 <= j < 2
      ensures gens[j](s).Ok? && [1, 0][j] <= gens[j](s).value.0 <= [5, 1][j]
    {
      if j == 0 {
        assert gens[j](s) == Ok(GetCuts(5, s));
      } else {
        assert gens[j](s) == Ok(PickChannel(s));
      }
    }
  }

  /** The value bounds of each class's generators. */
  function Lows(cls: OpClass): seq<int> {
    if cls == StutterClass then [1, 0] else if cls == FlipStereoClass || cls == InterleaveStereoClass then [] else [0]
  }

  function Highs(cls: OpClass): seq<int> {
    if cls == StutterClass then [5, 1] else if cls == FlipStereoClass || cls == InterleaveStereoClass then [] else [1]
  }

  lemma GeneratorsBounded(cls: OpClass)
    ensures Bounded(Generators(cls), Lows(cls), Highs(cls))
  {
    if cls == StutterClass {
      StutterGeneratorsBounded();
    } else if cls != FlipStereoClass && cls != InterleaveStereoClass {
      PickChannelBounded();
    }
  }

  /** The constructor accepts the generated layout and stores its parameters. */
  lemma ConstructGenerated(cls: OpClass, args: Arguments<int>, frameRate: int, streamSize: int, ratio: real)
    requires var n, k := SliceCount(cls), |Generators(cls)|;
      && args.keywords == map[]
      && Fits(args.positional, n, n + k, n + k)
      && (forall i :: 0 <= i < n ==> GeneratedSlice(args.positional[i].slice, frameRate, streamSize, ratio))
      && (forall j :: 0 <= j < k ==> Lows(cls)[j] <= args.positional[n + j].value <= Highs(cls)[j])
    ensures Construct(cls, args).Ok?
    ensures GeneratedParams(Construct(cls, args).value, frameRate, streamSize, ratio)
    ensures ArgsOf(Construct(cls, args).value) == args.positional
  {
    var p, n, k := args.positional, SliceCount(cls), |Generators(cls)|;
    assert p[0].SliceArg? && GeneratedSlice(p[0].slice, frameRate, streamSize, ratio);
    if n == 2 {
      assert p[1].SliceArg? && GeneratedSlice(p[1].slice, frameRate, streamSize, ratio);
    }
    if k > 0 {
      assert p[n].ValueArg? && Lows(cls)[0] <= p[n + 0].value <= Highs(cls)[0];
    }
    if k > 1 {
      assert p[n + 1].ValueArg? && Lows(cls)[1] <= p[n + 1].value <= Highs(cls)[1];
    }
  }

  /** `cls.generate` fails exactly when the block does not fit the stream;
      otherwise it builds an operation of that class with generated parameters. */
  lemma GenerateOpShape(cls: OpClass, frameRate: int, streamSize: int, ratio: real, src: Source)
    ensures var r := GenerateOp(cls, frameRate, streamSize, ratio, src);
      && (r.Err? <==> Block(frameRate, ratio) >= streamSize)
      && (r.Err? ==> r.error == EmptyRange)
      && (r.Ok? ==> ClassOf(r.value.0) == Some(cls) && GeneratedParams(r.value.0, frameRate, streamSize, ratio))
  {
    GeneratorsBounded(cls);
    GenerateLayout(SliceCount(cls), Generators(cls), Lows(cls), Highs(cls), frameRate, streamSize, ratio, src);
    var g := Generate(SliceCount(cls), Generators(cls), [], frameRate, streamSize, ratio, src);
    if g.Ok? {
      ConstructGenerated(cls, g.value.0, frameRate, streamSize, ratio);
    }
  }

  /** `pick_channel` and `get_cuts` never raise and take one draw each. */
  lemma GeneratorsOneDraw(cls: OpClass)
    ensures forall j :: 0 <= j < |Generators(cls)| ==> OneDraw(Generators(cls)[j])
  {
    forall s
      ensures PickChannelGen()(s) == Ok(PickChannel(s)) && GetCutsGen()(s) == Ok(GetCuts(5, s))
    {
    }
  }

  /** On a stream the block fits, `cls.generate` draws the slices first and
      then the values, one draw each, and the operation stores exactly what
      was drawn: for `Swap`, `a` from the first draw, `b` from the second and
      the channel from the third. */
  lemma GenerateOpDraws(cls: OpClass, frameRate: int, streamSize: int, ratio: real, src: Source)
    requires Block(frameRate, ratio) < streamSize
    ensures var r := GenerateOp(cls, frameRate, streamSize, ratio, src);
      && r.Ok?
      && r.value.1 == Source(src.tape, src.pos + SliceCount(cls) + |Generators(cls)|)
      && (exists ss, vs ::
           && ArgsOf(r.value.0) == Layout(ss, vs)
           && |ss| == SliceCount(cls)
           && SlicesDrawn(ss, frameRate, streamSize, ratio, src.tape, src.pos)
           && ValuesDrawn(Generators(cls), vs, src.tape, src.pos + SliceCount(cls)))
  {
    GeneratorsOneDraw(cls);
    var none: seq<(string, Generator<int>)> := [];
    GenerateOneDraw(SliceCount(cls), Generators(cls), none, frameRate, streamSize, ratio, src);
    var g := Generate(SliceCount(cls), Generators(cls), none, frameRate, streamSize, ratio, src);
    NoKeywordDraws(g.value.1, src.tape, src.pos + SliceCount(cls) + |Generators(cls)|, none);
    var ss, vs :| && g.value.0.positional == Layout(ss, vs)
                  && |ss| == SliceCount(cls)
                  && SlicesDrawn(ss, frameRate, streamSize, ratio, src.tape, src.pos)
                  && ValuesDrawn(Generators(cls), vs, src.tape, src.pos + SliceCount(cls));
    GeneratedArgs(cls, frameRate, streamSize, ratio, src);
    GenerateOpDrawn(cls, frameRate, streamSize, ratio, src, g.value.1, Construct(cls, g.value.0).value, ss, vs);
  }

  /** On a stream the block fits, `cls.generate` constructs from the arguments
      `generate` laid out, and the operation stores them. */
  lemma GeneratedArgs(cls: OpClass, frameRate: int, streamSize: int, ratio: real, src: Source)
    requires Block(frameRate, ratio) < streamSize
    ensures var g := Generate(SliceCount(cls), Generators(cls), [], frameRate, streamSize, ratio, src);
      && g.Ok?
      && Construct(cls, g.value.0).Ok?
      && GenerateOp(cls, frameRate, streamSize, ratio, src) == Ok((Construct(cls, g.value.0).value, g.value.1))
      && ArgsOf(Construct(cls, g.value.0).value) == g.value.0.positional
  {
    var g := Generate(SliceCount(cls), Generators(cls), [], frameRate, streamSize, ratio, src);
    GeneratorsBounded(cls);
    GenerateLayout(SliceCount(cls), Generators(cls), Lows(cls), Highs(cls), frameRate, streamSize, ratio, src);
    ConstructGenerated(cls, g.value.0, frameRate, streamSize, ratio);
    GenerateOpSteps(cls, frameRate, streamSize, ratio, src, g.value.0, g.value.1, Construct(cls, g.value.0).value);
  }

  /** The conclusion of `GenerateOpDraws`, from the operation and what was drawn. */
  lemma GenerateOpDrawn(cls: OpClass, frameRate: int, streamSize: int, ratio: real, src: Source,
                        next: Source, op: Op, ss: seq<Slice>, vs: seq<int>)
    requires GenerateOp(cls, frameRate, streamSize, ratio, src) == Ok((op, next))
    requires next == Source(src.tape, src.pos + SliceCount(cls) + |Generators(cls)|)
    requires ArgsOf(op) == Layout(ss, vs) && |ss| == SliceCount(cls)
    requires SlicesDrawn(ss, frameRate, streamSize, ratio, src.tape, src.pos)
    requires ValuesDrawn(Generators(cls), vs, src.tape, src.pos + SliceCount(cls))
    ensures var r := GenerateOp(cls, frameRate, streamSize, ratio, src);
      && r.Ok?
      && r.value.1 == Source(src.tape, src.pos + SliceCount(cls) + |Generators(cls)|)
      && (exists ss, vs ::
           && ArgsOf(r.value.0) == Layout(ss, vs)
           && |ss| == SliceCount(cls)
           && SlicesDrawn(ss, frameRate, streamSize, ratio, src.tape, src.pos)
           && ValuesDrawn(Generators(cls), vs, src.tape, src.pos + SliceCount(cls)))
  {
  }

  /** No keyword generators take no draws. */
  lemma NoKeywordDraws(s: Source, t: nat -> nat, q: nat, none: seq<(string, Generator<int>)>)
    requires none == [] && s == Source(t, q + |none|)
    ensures s == Source(t, q)
  {
  }

  /** `cls.generate` puts together `generate` and the constructor. */
  lemma GenerateOpSteps(cls: OpClass, frameRate: int, streamSize: int, ratio: real, src: Source,
                        args: Arguments<int>, next: Source, op: Op)
    requires Generate(SliceCount(cls), Generators(cls), [], frameRate, streamSize, ratio, src) == Ok((args, next))
    requires Construct(cls, args) == Ok(op)
    ensures GenerateOp(cls, frameRate, streamSize, ratio, src) == Ok((op, next))
  {
  }

  /** Whatever `generate` draws, the operation applies without error to a
      stream of at least two channels (the module's doctest runs every class
      on the two-channel test data). */
  lemma GeneratedApplies(op: Op, frameRate: int, streamSize: int, ratio: real, st: Stream)
    requires GeneratedParams(op, frameRate, streamSize, ratio) && |st| >= 2
    ensures Apply(op, st).Ok?
  {
  }

  // ---------------------------------------------------------------- doctests

  /** A channel counting 0..99. */
  ghost predicate Counting(c: seq<int>) {
    |c| == 100 && forall i :: 0 <= i < 100 ==> c[i] == i
  }

  /** Two channels, each counting 0..99. */
  ghost predicate IsTestData(d: Stream) {
    |d| == 2 && Counting(d[0]) && Counting(d[1])
  }

  /** `test_data()`. */
  function TestData(): (r: Stream)
    ensures IsTestData(r)
  {
    [seq(100, i => i), seq(100, i => i)]
  }

  /** A single-channel operation on an existing channel whose munge succeeds
      replaces that channel and nothing else. */
  lemma ApplyOnChannel(op: Op, st: Stream)
    requires OnChannel(op) && 0 <= op.channel < |st| && !(op.Stutter? && op.cuts == 0)
    ensures Apply(op, st) == Ok(st[op.channel := MungeChannel(op, st[op.channel]).value])
  {
  }

  /** The same, channel 0, for a munge result already known. */
  lemma ApplyFirstChannel(op: Op, st: Stream, ch: seq<int>)
    requires OnChannel(op) && op.channel == 0 && 1 <= |st| && MungeChannel(op, st[0]) == Ok(ch)
    ensures Apply(op, st) == Ok(st[0 := ch])
  {
  }

  /** What the munge of a swap computes. */
  lemma MungeSwap(a: Slice, b: Slice, k: int, c: seq<int>)
    ensures MungeChannel(Swap(a, b, k), c) == Ok(Regions.Swap(c, a, b))
  {
  }

  /** What the munge of a stutter with nonzero cuts computes. */
  lemma MungeStutter(s: Slice, cuts: int, k: int, c: seq<int>)
    requires cuts != 0
    ensures MungeChannel(Stutter(s, cuts, k), c) == Ok(Regions.Stutter(c, s, cuts))
  {
  }

  /** A chain of two nodes neither of which raises. */
  lemma RunPair(x: Op, y: Op, st: Stream, mid: Stream, last: Stream)
    requires Apply(x, st) == Ok(mid) && Apply(y, mid) == Ok(last)
    ensures RunChain([x, y], st) == (last, None)
  {
    assert [x, y][1..] == [y];
    assert [y][1..] == [];
  }

  /** Prefixes known element by element. */
  lemma FourPrefix(x: seq<int>, e: seq<int>)
    requires |e| == 4 && |x| >= 4
    requires x[0] == e[0] && x[1] == e[1] && x[2] == e[2] && x[3] == e[3]
    ensures x[..4] == e
  {
  }

  lemma NinePrefix(x: seq<int>, e: seq<int>)
    requires |e| == 9 && |x| >= 9
    requires x[0] == e[0] && x[1] == e[1] && x[2] == e[2] && x[3] == e[3] && x[4] == e[4]
    requires x[5] == e[5] && x[6] == e[6] && x[7] == e[7] && x[8] == e[8]
    ensures x[..9] == e
  {
  }

  /** The two exchanges of the doctest chain on a counting channel. */
  lemma ExchangedTwiceCounting(c: seq<int>, once: seq<int>, twice: seq<int>)
    requires Counting(c)
    requires Regions.Exchanged(c, once, Slice(0, 4), Slice(4, 8))
    requires Regions.Exchanged(once, twice, Slice(0, 2), Slice(2, 4))
    ensures twice[..9] == [6, 7, 4, 5, 0, 1, 2, 3, 8]
  {
    assert twice[0] == once[2] == c[6];
    assert twice[1] == once[3] == c[7];
    assert twice[2] == once[0] == c[4];
    assert twice[3] == once[1] == c[5];
    assert twice[4] == once[4] == c[0];
    assert twice[5] == once[5] == c[1];
    assert twice[6] == once[6] == c[2];
    assert twice[7] == once[7] == c[3];
    assert twice[8] == once[8] == c[8];
    NinePrefix(twice, [6, 7, 4, 5, 0, 1, 2, 3, 8]);
  }

  lemma SwapChainValues(c: seq<int>)
    requires Counting(c)
    ensures var r := Regions.Swap(Regions.Swap(c, Slice(0, 4), Slice(4, 8)), Slice(0, 2), Slice(2, 4));
      |r| == 100 && r[..9] == [6, 7, 4, 5, 0, 1, 2, 3, 8]
  {
    var once := Regions.Swap(c, Slice(0, 4), Slice(4, 8));
    Regions.SwapExchanges(c, Slice(0, 4), Slice(4, 8));
    Regions.SwapExchanges(once, Slice(0, 2), Slice(2, 4));
    ExchangedTwiceCounting(c, once, Regions.Swap(once, Slice(0, 2), Slice(2, 4)));
  }

  /** `Swap(slice(0,4), slice(4,8)) & Swap(slice(0,2), slice(2,4))` on the test data. */
  lemma SwapChainDoctest(d: Stream)
    requires IsTestData(d)
    ensures var r := RunChain([Swap(Slice(0, 4), Slice(4, 8), 0), Swap(Slice(0, 2), Slice(2, 4), 0)], d);
      r.1 == None && |r.0[0]| == 100 && r.0[0][..9] == [6, 7, 4, 5, 0, 1, 2, 3, 8]
  {
    var first, second := Swap(Slice(0, 4), Slice(4, 8), 0), Swap(Slice(0, 2), Slice(2, 4), 0);
    var once := Regions.Swap(d[0], Slice(0, 4), Slice(4, 8));
    var twice := Regions.Swap(once, Slice(0, 2), Slice(2, 4));
    SwapChainValues(d[0]);
    MungeSwap(Slice(0, 4), Slice(4, 8), 0, d[0]);
    ApplyFirstChannel(first, d, once);
    MungeSwap(Slice(0, 2), Slice(2, 4), 0, once);
    ApplyFirstChannel(second, d[0 := once], twice);
    RunPair(first, second, d, d[0 := once], d[0 := once][0 := twice]);
  }

  /** Running the doctest chain through the linked nodes themselves. */
  method SwapChainExample() returns (head: seq<int>, err: Option<Error>)
    ensures head == [6, 7, 4, 5, 0, 1, 2, 3, 8] && err == None
  {
    var first, second := Swap(Slice(0, 4), Slice(4, 8), 0), Swap(Slice(0, 2), Slice(2, 4), 0);
    var s := new Operation(first);
    var t := new Operation(second);
    s := s.And(t);
    assert s.chain == [first, second];
    var td := TestData();
    var data := new seq<int>[2];
    data[0], data[1] := td[0], td[1];
    ghost var d := data[..];
    assert d == td;
    err := s.Call(data);
    SwapChainDoctest(d);
    head := data[0][..9];
  }

  lemma InvertValues(c: seq<int>)
    requires Counting(c)
    ensures Regions.Invert(c, Slice(0, 4))[..4] == [0, -1, -2, -3]
  {
    var r := Regions.Invert(c, Slice(0, 4));
    WithinBounds(Slice(0, 4), 100);
    Regions.InvertAt(c, Slice(0, 4), 0);
    Regions.InvertAt(c, Slice(0, 4), 1);
    Regions.InvertAt(c, Slice(0, 4), 2);
    Regions.InvertAt(c, Slice(0, 4), 3);
    FourPrefix(r, [0, -1, -2, -3]);
  }

  /** `Invert(slice(0,4))` on the test data. */
  lemma InvertDoctest(d: Stream)
    requires IsTestData(d)
    ensures var r := Apply(Invert(Slice(0, 4), 0), d);
      r.Ok? && r.value[0][..4] == [0, -1, -2, -3]
  {
    ApplyOnChannel(Invert(Slice(0, 4), 0), d);
    InvertValues(d[0]);
  }

  /** A counting channel mirrored on [0, 4). */
  lemma MirroredCounting(c: seq<int>, r: seq<int>)
    requires Counting(c) && Regions.Mirrored(c, r, 0, 4)
    ensures r[..4] == [3, 2, 1, 0]
  {
    assert r[0] == c[3] && r[1] == c[2] && r[2] == c[1] && r[3] == c[0];
    FourPrefix(r, [3, 2, 1, 0]);
  }

  lemma ReverseValues(c: seq<int>)
    requires Counting(c)
    ensures Regions.Reverse(c, Slice(0, 4))[..4] == [3, 2, 1, 0]
  {
    WithinBounds(Slice(0, 4), 100);
    Regions.ReverseMirrorsRegion(c, Slice(0, 4));
    MirroredCounting(c, Regions.Reverse(c, Slice(0, 4)));
  }

  /** `Reverse(slice(0,4))` on the test data. */
  lemma ReverseDoctest(d: Stream)
    requires IsTestData(d)
    ensures var r := Apply(Reverse(Slice(0, 4), 0), d);
      r.Ok? && r.value[0][..4] == [3, 2, 1, 0]
  {
    ApplyOnChannel(Reverse(Slice(0, 4), 0), d);
    ReverseValues(d[0]);
  }

  /** A counting channel whose samples 4..7 were overwritten by 0..3. */
  lemma CopiedCounting(c: seq<int>, r: seq<int>)
    requires Counting(c) && Regions.Copied(c, r, Slice(0, 4), Slice(4, 8))
    ensures r[..9] == [0, 1, 2, 3, 0, 1, 2, 3, 8]
  {
    assert r[0] == c[0] && r[1] == c[1] && r[2] == c[2] && r[3] == c[3];
    assert r[4] == c[0] && r[5] == c[1] && r[6] == c[2] && r[7] == c[3] && r[8] == c[8];
    NinePrefix(r, [0, 1, 2, 3, 0, 1, 2, 3, 8]);
  }

  lemma DupValues(c: seq<int>)
    requires Counting(c)
    ensures Regions.Dup(c, Slice(0, 4), Slice(4, 8))[..9] == [0, 1, 2, 3, 0, 1, 2, 3, 8]
  {
    Regions.DupCopies(c, Slice(0, 4), Slice(4, 8));
    CopiedCounting(c, Regions.Dup(c, Slice(0, 4), Slice(4, 8)));
  }

  /** `Dup(slice(0,4), slice(4,8))` on the test data. */
  lemma DupDoctest(d: Stream)
    requires IsTestData(d)
    ensures var r := Apply(Dup(Slice(0, 4), Slice(4, 8), 0), d);
      r.Ok? && r.value[0][..9] == [0, 1, 2, 3, 0, 1, 2, 3, 8]
  {
    ApplyOnChannel(Dup(Slice(0, 4), Slice(4, 8), 0), d);
    DupValues(d[0]);
  }

  /** A four-sample region stuttered with three or four cuts: the fragment
      is `round(4 / cuts) = 1` sample, repeated. */
  lemma StutteredFour(full: seq<int>, cuts: int)
    requires |full| == 4 && (cuts == 3 || cuts == 4)
    ensures |Regions.Stuttered(full, cuts)| == cuts
    ensures forall i :: 0 <= i < cuts ==> Regions.Stuttered(full, cuts)[i] == full[0]
  {
    assert Regions.RoundedQuotient(4, cuts) == 1;
    Regions.StutteredAt(full, cuts);
  }

  /** The region [0, 4) of a counting channel, read as a slice. */
  lemma CountingRegion(c: seq<int>)
    requires Counting(c)
    ensures |Get(c, Slice(0, 4))| == 4 && Get(c, Slice(0, 4))[0] == 0
  {
    WithinBounds(Slice(0, 4), 100);
  }

  /** Four zeros written over [0, 4) of a 100-sample channel. */
  lemma ZerosWritten(c: seq<int>, region: seq<int>)
    requires |c| == 100 && |region| == 4 && forall i :: 0 <= i < 4 ==> region[i] == 0
    ensures var r := Set(c, Slice(0, 4), region);
      |r| == 100 && r[..4] == [0, 0, 0, 0]
  {
    WithinBounds(Slice(0, 4), 100);
    SetWithinAt(c, Slice(0, 4), region, 0);
    SetWithinAt(c, Slice(0, 4), region, 1);
    SetWithinAt(c, Slice(0, 4), region, 2);
    SetWithinAt(c, Slice(0, 4), region, 3);
    FourPrefix(Set(c, Slice(0, 4), region), [0, 0, 0, 0]);
  }

  lemma StutterValues(c: seq<int>)
    requires Counting(c)
    ensures var r := Regions.Stutter(c, Slice(0, 4), 4);
      |r| == 100 && r[..4] == [0, 0, 0, 0]
  {
    var g := Get(c, Slice(0, 4));
    CountingRegion(c);
    StutteredFour(g, 4);
    ZerosWritten(c, Regions.Stuttered(g, 4));
  }

  /** `Stutter(slice(0,4), 4)` on the test data: a one-sample fragment four times. */
  lemma StutterDoctest(d: Stream)
    requires IsTestData(d)
    ensures var r := Apply(Stutter(Slice(0, 4), 4, 0), d);
      r.Ok? && r.value[0][..4] == [0, 0, 0, 0] && |r.value[0]| == 100
  {
    var op := Stutter(Slice(0, 4), 4, 0);
    StutterValues(d[0]);
    MungeStutter(Slice(0, 4), 4, 0, d[0]);
    ApplyFirstChannel(op, d, Regions.Stutter(d[0], Slice(0, 4), 4));
  }

  /** Three samples written over [0, 4) of a 100-sample channel. */
  lemma ThreeWritten(c: seq<int>, region: seq<int>)
    requires |c| == 100 && |region| == 3
    ensures |Set(c, Slice(0, 4), region)| == 99
  {
    WithinBounds(Slice(0, 4), 100);
  }

  lemma StutterThreeLength(c: seq<int>)
    requires Counting(c)
    ensures |Regions.Stutter(c, Slice(0, 4), 3)| == 99
  {
    var g := Get(c, Slice(0, 4));
    CountingRegion(c);
    StutteredFour(g, 3);
    ThreeWritten(c, Regions.Stuttered(g, 3));
  }

  /** Three cuts of a four-sample region: the fragment is
      `round(4 / 3) = 1` sample, three copies fill only three places, and the
      channel loses a sample. */
  lemma StutterShortens(d: Stream)
    requires IsTestData(d)
    ensures var r := Apply(Stutter(Slice(0, 4), 3, 0), d);
      r.Ok? && |r.value[0]| == 99
  {
    var op := Stutter(Slice(0, 4), 3, 0);
    StutterThreeLength(d[0]);
    MungeStutter(Slice(0, 4), 3, 0, d[0]);
    ApplyFirstChannel(op, d, Regions.Stutter(d[0], Slice(0, 4), 3));
  }

  /** The sums of the first one to four samples of a counting channel. */
  lemma CountingSums(c: seq<int>)
    requires Counting(c)
    ensures Regions.Sum(c[0..1]) == 0 && Regions.Sum(c[0..2]) == 1
    ensures Regions.Sum(c[0..3]) == 3 && Regions.Sum(c[0..4]) == 6
  {
    assert c[0..1] == [0];
    assert c[0..2] == [0, 1];
    assert c[0..3] == [0, 1, 2];
    assert c[0..4] == [0, 1, 2, 3];
    assert [0, 1][..1] == [0];
    assert [0, 1, 2][..2] == [0, 1];
    assert [0, 1, 2, 3][..3] == [0, 1, 2];
  }

  lemma SmearValues(c: seq<int>)
    requires Counting(c)
    ensures Regions.Smear(c, Slice(0, 4))[..4] == [0, 0, 1, 1]
  {
    var r := Regions.Smear(c, Slice(0, 4));
    CountingSums(c);
    WithinBounds(Slice(0, 4), 100);
    Regions.SmearAt(c, Slice(0, 4), 0);
    Regions.SmearAt(c, Slice(0, 4), 1);
    Regions.SmearAt(c, Slice(0, 4), 2);
    Regions.SmearAt(c, Slice(0, 4), 3);
    FourPrefix(r, [0, 0, 1, 1]);
  }

  /** `FrameSmear(slice(0,4))` on the test data. */
  lemma FrameSmearDoctest(d: Stream)
    requires IsTestData(d)
    ensures var r := Apply(FrameSmear(Slice(0, 4), 0), d);
      r.Ok? && r.value[0][..4] == [0, 0, 1, 1]
  {
    ApplyOnChannel(FrameSmear(Slice(0, 4), 0), d);
    SmearValues(d[0]);
  }

  /** The test data with `data[1][0:4] = [10, 9, 8, 7]`. */
  function StereoTestData(d: Stream): (r: Stream)
    requires IsTestData(d)
    ensures |r| == 2 && |r[0]| == 100 && |r[1]| == 100
    ensures r[0][..4] == [0, 1, 2, 3] && r[1][..4] == [10, 9, 8, 7]
  {
    var r := [d[0], Set(d[1], Slice(0, 4), [10, 9, 8, 7])];
    assert r[1][..4] == [10, 9, 8, 7] by {
      WithinBounds(Slice(0, 4), 100);
      SetWithinAt(d[1], Slice(0, 4), [10, 9, 8, 7], 0);
      SetWithinAt(d[1], Slice(0, 4), [10, 9, 8, 7], 1);
      SetWithinAt(d[1], Slice(0, 4), [10, 9, 8, 7], 2);
      SetWithinAt(d[1], Slice(0, 4), [10, 9, 8, 7], 3);
      FourPrefix(r[1], [10, 9, 8, 7]);
    }
    assert r[0][..4] == [0, 1, 2, 3] by {
      FourPrefix(r[0], [0, 1, 2, 3]);
    }
    r
  }

  /** The stereo test data with the first four samples crossed, all of them
      or every other one. */
  lemma CrossedStereo(d: Stream, r: Stream, every: bool)
    requires |d| == 2 && |d[0]| == 100 && |d[1]| == 100
    requires d[0][..4] == [0, 1, 2, 3] && d[1][..4] == [10, 9, 8, 7]
    requires Regions.Crossed(d, r, 0, 4, every)
    ensures every ==> r[0][..4] == [10, 9, 8, 7] && r[1][..4] == [0, 1, 2, 3]
    ensures !every ==> r[0][..4] == [10, 1, 8, 3] && r[1][..4] == [0, 9, 2, 7]
  {
    assert d[0][0] == 0 && d[0][1] == 1 && d[0][2] == 2 && d[0][3] == 3;
    assert d[1][0] == 10 && d[1][1] == 9 && d[1][2] == 8 && d[1][3] == 7;
    assert Regions.Moves(0, 0, 4, every) && Regions.Moves(2, 0, 4, every);
    if every {
      assert Regions.Moves(1, 0, 4, every) && Regions.Moves(3, 0, 4, every);
      FourPrefix(r[0], [10, 9, 8, 7]);
      FourPrefix(r[1], [0, 1, 2, 3]);
    } else {
      assert !Regions.Moves(1, 0, 4, every) && !Regions.Moves(3, 0, 4, every);
      FourPrefix(r[0], [10, 1, 8, 3]);
      FourPrefix(r[1], [0, 9, 2, 7]);
    }
  }

  /** `FlipStereo(slice(0,4))` on the stereo test data. */
  lemma FlipStereoDoctest(d0: Stream)
    requires IsTestData(d0)
    ensures var r := Apply(FlipStereo(Slice(0, 4)), StereoTestData(d0));
      r.Ok? && r.value[0][..4] == [10, 9, 8, 7] && r.value[1][..4] == [0, 1, 2, 3]
  {
    var d := StereoTestData(d0);
    WithinBounds(Slice(0, 4), 100);
    Regions.FlipStereoExchanges(d, Slice(0, 4));
    CrossedStereo(d, Regions.FlipStereo(d, Slice(0, 4)), true);
  }

  /** `InterleaveStereo(slice(0,4))` on the stereo test data. */
  lemma InterleaveStereoDoctest(d0: Stream)
    requires IsTestData(d0)
    ensures var r := Apply(InterleaveStereo(Slice(0, 4)), StereoTestData(d0));
      r.Ok? && r.value[0][..4] == [10, 1, 8, 3] && r.value[1][..4] == [0, 9, 2, 7]
  {
    var d := StereoTestData(d0);
    WithinBounds(Slice(0, 4), 100);
    Regions.InterleaveStereoExchanges(d, Slice(0, 4));
    CrossedStereo(d, Regions.InterleaveStereo(d, Slice(0, 4)), false);
  }
}
