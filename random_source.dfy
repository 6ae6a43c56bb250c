/** The interpreter's global random generator, passed around explicitly.
    A `Source` is an endless tape of raw draws and the position of the next
    one; every call that Python makes to `random` consumes exactly one draw. */
module RandomSource {
  import opened Results

  datatype Source = Source(tape: nat -> nat, pos: nat)

  /** The source after one draw has been consumed. */
  function Next(src: Source): (r: Source)
    ensures r.tape == src.tape && r.pos == src.pos + 1
  {
    Source(src.tape, src.pos + 1)
  }

  /** `random.randint(lo, hi)`: an integer of the closed range [lo, hi]; the
      range must not be empty (Python raises ValueError otherwise). */
  function RandInt(lo: int, hi: int, src: Source): (r: Result<(int, Source)>)
    ensures r.Err? <==> hi < lo
    ensures r.Err? ==> r.error == EmptyRange
    ensures r.Ok? ==> lo <= r.value.0 <= hi && r.value.1 == Next(src)
  {
    if hi < lo then Err(EmptyRange)
    else Ok((lo + src.tape(src.pos) % (hi - lo + 1), Next(src)))
  }

  /** A source whose next draw is `d`. */
  function Fixed(d: nat): Source {
    Source(_ => d, 0)
  }

  /** Every value of a non-empty range is drawn by some source. */
  lemma RandIntCovers(lo: int, hi: int, v: int)
    requires lo <= v <= hi
    ensures RandInt(lo, hi, Fixed(v - lo)).Ok?
    ensures RandInt(lo, hi, Fixed(v - lo)).value.0 == v
  {
    var d := v - lo;
    assert d % (hi - lo + 1) == d;
  }

  /** `random.choice(items)`: an element of a non-empty list (IndexError on an empty one). */
  function Choice<T>(items: seq<T>, src: Source): (r: Result<(T, Source)>)
    ensures r.Err? <==> |items| == 0
    ensures r.Err? ==> r.error == IndexOutOfRange
    ensures r.Ok? ==> r.value.0 in items && r.value.1 == Next(src)
  {
    if |items| == 0 then Err(IndexOutOfRange)
    else Ok((items[src.tape(src.pos) % |items|], Next(src)))
  }

  /** Every element of a list is chosen by some source. */
  lemma ChoiceCovers<T>(items: seq<T>, k: nat)
    requires k < |items|
    ensures Choice(items, Fixed(k)).Ok?
    ensures Choice(items, Fixed(k)).value.0 == items[k]
  {
    assert k % |items| == k;
  }
}
