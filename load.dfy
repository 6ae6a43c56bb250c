/** The channel layout of audio data: interleaved PCM frames split into one
    list of samples per channel when reading, channels joined back into
    frames when writing, and a mono stream widened to two channels. */
module Load {
  import opened Results
  import Arith

  /** `stereoify(stream)`: a stream of two or more channels as it is, a mono
      stream as a two-element list whose elements hold the same samples
      (in Python both are the one list object `stream[0]`; values here do
      not share); `stream[0]` of an empty stream raises IndexError. */
  function Stereoify(stream: seq<seq<int>>): (r: Result<seq<seq<int>>>)
    ensures r.Err? <==> |stream| == 0
    ensures r.Err? ==> r.error == IndexOutOfRange
    ensures |stream| > 1 ==> r == Ok(stream)
    ensures |stream| == 1 ==> r == Ok([stream[0], stream[0]])
    ensures r.Ok? ==> |r.value| >= 2 && forall c :: 0 <= c < |r.value| ==> r.value[c] in stream
  {
    if |stream| > 1 then Ok(stream)
    else if |stream| == 0 then Err(IndexOutOfRange)
    else Ok([stream[0], stream[0]])
  }

  /** Widening is idempotent. */
  lemma StereoifyIdempotent(stream: seq<seq<int>>)
    requires |stream| > 0
    ensures Stereoify(Stereoify(stream).value) == Stereoify(stream)
  {
  }

  // ---------------------------------------------------------------- reading: de-interleaving

  /** How many indices `c`, `c + n`, `c + 2n`, ... lie below `size`. */
  function StrideLength(size: int, c: nat, n: nat): nat
    requires n > 0
  {
    if c >= size then 0 else (size - c - 1) / n + 1
  }

  /** `data[c::n]`: every n-th sample, starting at index c. */
  function Stride(data: seq<int>, c: nat, n: nat): (r: seq<int>)
    requires n > 0
    decreases |data| - c
    ensures |r| == StrideLength(|data|, c, n)
  {
    if c >= |data| then []
    else
      var rest := Stride(data, c + n, n);
      assert |rest| + 1 == StrideLength(|data|, c, n) by {
        if c + n < |data| {
          Arith.ModShift(|data| - c - 1, n);
        } else {
          Arith.DivModUnique(|data| - c - 1, n, 0, |data| - c - 1);
        }
      }
      [data[c]] + rest
  }

  /** Element k of `data[c::n]` is `data[c + k * n]`. */
  lemma {:induction false} StrideAt(data: seq<int>, c: nat, n: nat, k: nat)
    requires n > 0 && k < |Stride(data, c, n)|
    ensures c + k * n < |data| && Stride(data, c, n)[k] == data[c + k * n]
    decreases k
  {
    if k > 0 {
      StrideAt(data, c + n, n, k - 1);
      assert c + n + (k - 1) * n == c + k * n;
    }
  }

  /** The channels of n-channel interleaved data: channel c is `data[c::n]`
      for each c of `xrange(n)`. */
  function Channels(data: seq<int>, n: int): (r: seq<seq<int>>)
    ensures |r| == (if n < 0 then 0 else n)
  {
    if n <= 0 then []
    else seq(n, c requires 0 <= c < n => Stride(data, c, n))
  }

  /** Channel c of the de-interleaved data holds `data[k * n + c]` at index k,
      for every such index below the length of the data. */
  lemma ChannelsAt(data: seq<int>, n: nat, c: nat, k: nat)
    requires c < n && k < |Channels(data, n)[c]|
    ensures k * n + c < |data|
    ensures Channels(data, n)[c][k] == data[k * n + c]
  {
    StrideAt(data, c, n, k);
  }

  /** The splitting loop of `_read_pydub`: a channel per step, appended in
      order. */
  method Deinterleave(data: seq<int>, n: int) returns (channels: seq<seq<int>>)
    ensures channels == Channels(data, n)
  {
    channels := [];
    var channel := 0;
    while channel < n
      invariant 0 <= channel && (channel == 0 || channel <= n)
      invariant |channels| == channel
      invariant forall c :: 0 <= c < channel ==> channels[c] == Stride(data, c, n)
    {
      channels := channels + [Stride(data, channel, n)];
      channel := channel + 1;
    }
  }

  // ---------------------------------------------------------------- writing: interleaving

  /** Every channel holds `len` samples. */
  predicate Rectangular(channels: seq<seq<int>>, len: nat) {
    forall c :: 0 <= c < |channels| ==> |channels[c]| == len
  }

  /** `np.array(channels).T.tobytes()` read back as samples: frame k is
      `(ch0[k], ..., ch(n-1)[k])`, frames in order. Channels of unequal
      length do not form a matrix. */
  function Interleave(channels: seq<seq<int>>): (r: Result<seq<int>>)
    ensures r.Err? <==> |channels| > 0 && !Rectangular(channels, |channels[0]|)
    ensures r.Err? ==> r.error == RaggedChannels
    ensures r.Ok? && |channels| > 0 ==> |r.value| == |channels| * |channels[0]|
    ensures |channels| == 0 ==> r == Ok([])
  {
    if |channels| == 0 then Ok([])
    else
      var n, len := |channels|, |channels[0]|;
      if !Rectangular(channels, len) then Err(RaggedChannels)
      else
        Ok(seq(n * len, i requires 0 <= i < n * len =>
          Arith.DivBelow(i, n, len);
          channels[i % n][i / n]))
  }

  /** Sample c of frame k is sample k of channel c. */
  lemma InterleaveAt(channels: seq<seq<int>>, k: nat, c: nat)
    requires Interleave(channels).Ok? && c < |channels| && k < |channels[0]|
    ensures k * |channels| + c < |Interleave(channels).value|
    ensures Interleave(channels).value[k * |channels| + c] == channels[c][k]
  {
    var n, len := |channels|, |channels[0]|;
    Arith.MulMono(n, k + 1, len);
    Arith.DivModUnique(k * n + c, n, k, c);
  }

  /** Writing then reading with the same channel count gives the channels back. */
  lemma DeinterleaveInterleave(channels: seq<seq<int>>)
    requires |channels| > 0 && Interleave(channels).Ok?
    ensures Channels(Interleave(channels).value, |channels|) == channels
  {
    var flat := Interleave(channels).value;
    var n, len := |channels|, |channels[0]|;
    var r := Channels(flat, n);
    forall c | 0 <= c < n
      ensures r[c] == channels[c]
    {
      if len > 0 {
        Arith.DivModUnique(n * len - c - 1, n, len - 1, n - c - 1);
      }
      assert |r[c]| == len;
      forall k | 0 <= k < len
        ensures r[c][k] == channels[c][k]
      {
        ChannelsAt(flat, n, c, k);
        InterleaveAt(channels, k, c);
      }
    }
  }

  /** The first `len(data) % n` channels hold one sample more than the others. */
  lemma ChannelsLength(data: seq<int>, n: nat, c: nat)
    requires c < n
    ensures |Channels(data, n)[c]| == |data| / n + (if c < |data| % n then 1 else 0)
  {
    Arith.StrideCount(|data|, c, n);
  }

  /** Reading n channels back out of interleaved data forms whole frames
      exactly when the data length is a multiple of n, and writing those
      channels then restores the data. */
  lemma InterleaveDeinterleave(data: seq<int>, n: nat)
    requires n > 0
    ensures Interleave(Channels(data, n)).Ok? <==> |data| % n == 0
    ensures |data| % n == 0 ==> Interleave(Channels(data, n)) == Ok(data)
  {
    var chans := Channels(data, n);
    var q := |data| / n;
    ChannelsLength(data, n, 0);
    if |data| % n == 0 {
      forall c | 0 <= c < n
        ensures |chans[c]| == q
      {
        ChannelsLength(data, n, c);
      }
      assert Rectangular(chans, |chans[0]|);
      var flat := Interleave(chans).value;
      assert |data| == n * q;
      forall i | 0 <= i < |data|
        ensures flat[i] == data[i]
      {
        Arith.DivBelow(i, n, q);
        var k, c := i / n, i % n;
        assert flat[i] == chans[c][k];
        ChannelsAt(data, n, c, k);
        assert k * n + c == i;
      }
      assert flat == data;
    } else {
      ChannelsLength(data, n, n - 1);
      assert |chans[n - 1]| != |chans[0]|;
    }
  }
}
