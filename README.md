# Mangler core in Dafny

Mangler cuts up decoded PCM audio. A stream is a list of channels, and a
channel is a list of integer samples. The engine applies randomly placed,
randomly chosen operations ("hits") to regions of the channels. This project
models that engine on values and proves what each operation does to a
channel, how the operations compose, and how the random parameters are
bounded. It covers four parts of the package.

- **`mangler/operations.py`** is the class-based catalog.
  - Each operation stores its slices and its channel. Operations are linked
    into a chain with `&`, and calling the head runs every node on the same
    stream.
  - Modelled: Swap, Invert, Reverse, Dup, Stutter, FrameSmear, FlipStereo
    and InterleaveStereo (`Operations.Op`, `Operations.Apply`,
    `Operations.RunChain`, class `Operations.Operation`).
  - The transforms themselves are stated on sequences in module `Regions`.
- **`mangler/analyzer.py`** is the older list-based engine (module
  `Analyzer`).
  - The primitives are `rotate`, `flip`, `swap`, `dup`, `stutter` and the
    convolutions. `combine` composes them.
  - `ops` is the weighted catalog. `hit` performs one random hit and
    `mangle` runs the hit loop.
- **`mangler/randomizers.py`** holds the parameter factories and the
  `generated` decorator's `generate` (module `Randomizers`). Its use by each
  catalog class is `Operations.GenerateOp`.
- **`mangler/load.py`** covers splitting interleaved samples into channels
  on reading and stitching them back into frames on writing (module `Load`).
  It also covers `stereoify`.

Shared modules hold the rest.

- `Slices` holds Python slice semantics. Bounds are clamped, and slice
  assignment may change the length of the list.
- `RandomSource` holds the random source. It is a tape of draws plus a
  position, and every `randint` or `choice` call consumes one draw.
  `RandInt` and `Choice` fail exactly where Python raises.
- `Results` holds the error kinds. `EmptyRange` is `randint` on an empty
  range. `IndexOutOfRange` is an `IndexError`. `ZeroDivision` is a
  `ZeroDivisionError`. `ArgumentMismatch` is the `TypeError` a constructor
  raises on a wrong number of positional arguments, an unknown keyword, a
  parameter given both positionally and by keyword, or a missing required
  parameter. `RaggedChannels` is NumPy's `ValueError` when channels of
  unequal length are turned into an `int16` matrix.

A Python exception becomes an `Err` result. In the in-place methods it
becomes a returned error, and the stream keeps whatever the earlier steps
wrote.

The model follows the code in these places:

- **Stutter can shorten the channel.** The `Stutter` docstring
  (operations.py:217-219) says the fragment is repeated "out to the length
  of the original slice". The code (operations.py:234-236) repeats
  `round(len/cuts)` samples `cuts` times, then cuts the result to the
  region's length, and never pads. When `size * cuts` falls short of the
  region, the channel gets shorter.
  - `Regions.StutteredLength` states exactly when the length is kept.
  - `Operations.StutterShortens` shows a 100-sample channel becoming 99
    samples under `Stutter(slice(0, 4), 3)`.
  - `Analyzer.StutterLength` states the same for the analyzer's `stutter`.
    That one keeps the length only when the block size is a multiple of 4.
- **A hit's region never reaches the last sample.** `get_range`
  (analyzer.py:15) and `get_slice` (randomizers.py:8) draw the start from
  `[0, size - block - 1]`.
- **A hit picks channel 0 or 1**, not an index below the number of
  channels (analyzer.py:84). A mono stream can therefore fail with
  `IndexError`. Channels beyond the first two are never touched
  (`Analyzer.HitsKeepOtherChannels`).
- **A chain is never joined to itself.** `Operations.Operation.And`
  requires the two chains to be disjoint. In Python, `a & a` links the last
  node of `a` to `a`'s head, and calling `a` then recurses until Python's
  recursion limit raises `RuntimeError`.

## Model

| member | source | states |
|---|---|---|
| RandomSource.RandInt | mangler/randomizers.py:20-24 | `randint(lo, hi)` fails exactly when `hi < lo`, otherwise takes one draw and gives a value of `[lo, hi]` |
| RandomSource.RandIntCovers | mangler/randomizers.py:20-24 | every value of `[lo, hi]` is drawn by some source |
| RandomSource.Choice | mangler/randomizers.py:14-18 | `choice` fails with IndexError exactly on an empty list, otherwise gives one of its elements and takes one draw |
| RandomSource.ChoiceCovers | mangler/randomizers.py:14-18 | every element of the list is chosen by some source |
| Slices.Get | mangler/operations.py:112 | `l[s]` has the clamped length of the slice and holds the elements from the clamped start on |
| Slices.Set | mangler/operations.py:113-114 | `l[s] = v` changes the length by `len(v)` minus the clamped slice length |
| Slices.SetAt | mangler/operations.py:113-114 | after `l[s] = v`: the prefix before the slice is kept, then comes `v`, then the rest of `l` after the slice |
| Slices.SetSameLengthAt | mangler/operations.py:113-114 | a same-length assignment keeps the length, writes `v` over the clamped slice and changes nothing else |
| Slices.SetWithinAt | mangler/operations.py:113-114 | for an in-bounds slice the assignment writes `v[i - start]` at each index of `[start, stop)` and keeps every other index |
| Slices.SetSplices | mangler/operations.py:236 | slice assignment is prefix, new contents and suffix spliced together |
| Slices.GetAfterSet | mangler/operations.py:113-114 | reading a slice back right after a same-length assignment gives the assigned contents |
| Slices.SetOwnContents | mangler/operations.py:113-114 | assigning a slice its own contents leaves the list unchanged |
| Regions.InvertAt | mangler/operations.py:129-130 | Invert keeps the length; a sample inside the slice is negated, any other is kept |
| Regions.InvertNegatesRegion | mangler/operations.py:129-130 | Invert negates exactly the samples of the clamped slice |
| Regions.InvertInvolutive | mangler/operations.py:129-130 | inverting the same slice twice restores the channel |
| Regions.ReverseAt | mangler/operations.py:145-147 | Reverse keeps the length; index i of the slice receives the sample mirrored across the slice, anything outside is kept |
| Regions.ReverseMirrorsRegion | mangler/operations.py:145-147 | the result mirrors the clamped slice of the channel and agrees elsewhere |
| Regions.MirroredTwice | mangler/operations.py:145-147 | mirroring the same region twice gives back the first channel |
| Regions.ReverseInvolutive | mangler/operations.py:145-147 | reversing the same slice twice restores the channel |
| Regions.SwapKeepsLength | mangler/operations.py:109-114 | swapping two in-bounds slices of equal length keeps the channel's length |
| Regions.SwapAt | mangler/operations.py:109-114 | for disjoint equal-length slices, slice a receives b's samples, b receives a's, and all else is kept |
| Regions.SwapExchanges | mangler/operations.py:109-114 | the result is the channel with the two regions exchanged |
| Regions.ExchangedTwice | mangler/operations.py:109-114 | exchanging the same two regions twice gives back the first channel |
| Regions.SwapInvolutive | mangler/operations.py:109-114 | swapping the same disjoint slices twice restores the channel |
| Regions.DupAt | mangler/operations.py:162-165 | Dup keeps the length; slice b receives a's samples and all else is kept |
| Regions.DupCopies | mangler/operations.py:162-165 | the result is the channel with region a copied over region b |
| Regions.DupIdempotent | mangler/operations.py:162-165 | for disjoint slices, a second Dup changes nothing |
| Regions.RepeatLength | mangler/operations.py:235 | `xs * n` has `n * len(xs)` elements |
| Regions.RepeatAt | mangler/operations.py:235 | position i of `xs * n` holds `xs[i % len(xs)]` |
| Regions.RoundedQuotientIsNearest | mangler/operations.py:234 | `int(round(L / float(c)))` is the integer nearest `L / c`, a tie going up |
| Regions.RoundedQuotientBounds | mangler/operations.py:234 | the fragment size lies in `[0, L]` |
| Regions.StutteredAt | mangler/operations.py:231-236 | the new region is `min(size * cuts, len)` long and position i holds `full[i % size]` |
| Regions.StutteredLength | mangler/operations.py:231-236 | the region keeps its length exactly when `size * cuts` reaches it |
| Regions.StutteredNegative | mangler/operations.py:231-236 | a negative cut count empties the region |
| Regions.Smeared | mangler/operations.py:253-258 | the running-mean list is as long as the region |
| Regions.SumBounds | mangler/operations.py:255-256 | a running total of samples bounded by `[lo, hi]` lies between `n * lo` and `n * hi` |
| Regions.SmearedWithin | mangler/operations.py:253-258 | each running mean stays within the bounds of the samples |
| Regions.SmearAt | mangler/operations.py:252-259 | sample i of the slice becomes the floor mean of the slice's samples up to i; other samples are kept |
| Regions.SmearAveragesRegion | mangler/operations.py:252-259 | FrameSmear keeps the length and turns exactly the slice into running means |
| Regions.FlipStereoAt | mangler/operations.py:296-300 | inside the slice, channels 0 and 1 trade samples; outside it both are kept |
| Regions.FlipStereoExchanges | mangler/operations.py:296-300 | FlipStereo crosses every sample of the slice between the two channels and leaves other channels alone |
| Regions.CrossedTwice | mangler/operations.py:296-300 | crossing the same samples twice restores the stream |
| Regions.FlipStereoInvolutive | mangler/operations.py:296-300 | flipping the same slice twice restores the stream |
| Regions.Alternate | mangler/operations.py:319-328 | the zipped loop produces as many samples as the shorter of the two slices |
| Regions.InterleaveStereoAt | mangler/operations.py:317-330 | inside the slice, samples at an even offset trade channels and samples at an odd offset stay |
| Regions.InterleaveStereoExchanges | mangler/operations.py:317-330 | InterleaveStereo crosses exactly the even-offset samples of the slice |
| Regions.InterleaveStereoInvolutive | mangler/operations.py:317-330 | interleaving the same slice twice restores the stream |
| Operations.ChannelIndex | mangler/operations.py:71 | `stream[channel]` fails exactly outside `[-n, n)`; a negative index counts from the end |
| Operations.MungeChannel | mangler/operations.py:109-259 | a single-channel munge fails only for Stutter with zero cuts, with ZeroDivisionError |
| Operations.Apply | mangler/operations.py:67-73 | one node keeps the channel count and changes only its own channel; it fails exactly on a bad channel index, a zero-cut Stutter, or a stereo operation on fewer than two channels; a BaseOperation only evaluates its channel index |
| Operations.RunChain | mangler/operations.py:67-75 | a chain keeps the channel count; the empty chain changes nothing |
| Operations.RunChainAppend | mangler/operations.py:60-65 | calling `a & b` is calling `a`'s chain, then `b`'s on its result unless `a`'s raised |
| Operations.RunChainError | mangler/operations.py:67-75 | a chain raises exactly when some node fails on the stream the earlier nodes left |
| Operations.SmearRegion | mangler/operations.py:253-258 | the loop over the region computes the running means |
| Operations.InterleaveRegions | mangler/operations.py:319-328 | the loop builds the two alternating lists |
| Operations.Munge | mangler/operations.py:109-259 | the in-step munge computes what `MungeChannel` specifies |
| Operations.ChannelStep | mangler/operations.py:67-73 | one node on an array of channels writes exactly what `Apply` gives, or reports its error and writes nothing |
| Operations.Operation.constructor | mangler/operations.py:56-58 | a new operation is a one-node chain with no next node |
| Operations.Operation.And | mangler/operations.py:60-65 | `a & b` appends b's chain at the end of a's and returns a |
| Operations.Operation.Step | mangler/operations.py:67-73 | a node's own munge on the stream matches `Apply` |
| Operations.Operation.Call | mangler/operations.py:67-75 | calling the head leaves the stream and the error that `RunChain` gives for the whole chain |
| Operations.Construct | mangler/operations.py:106-315 | a successful constructor call builds an operation of the requested class; a positional count outside the class's range or an unknown keyword is an ArgumentMismatch, and every failure is one |
| Operations.ConstructOk | mangler/operations.py:106-315 | a constructor call succeeds exactly when Python binds its arguments: slices positionally, at most the value parameters after them, keywords only for value parameters not given positionally, and `cuts` always given to Stutter |
| Operations.ConstructArgsOf | mangler/operations.py:106-315 | calling an operation's class on the arguments it stores rebuilds the same operation |
| Operations.ArgsOfConstruct | mangler/operations.py:106-315 | a constructor called positionally stores the arguments it was given, and channel 0 when the channel is left out |
| Operations.KeywordAsPositional | mangler/operations.py:106-315 | giving the next value parameter by keyword (`channel=`, or `cuts=` for Stutter) builds the same operation as giving it positionally |
| Operations.GivenTwice | mangler/operations.py:106-315 | a value parameter given both positionally and by keyword is an error |
| Operations.CutsRequired | mangler/operations.py:227 | `Stutter` without `cuts` is an error: that parameter has no default |
| Operations.ValuesWithin | mangler/randomizers.py:45 | bounded generators never fail and each value lies within its generator's bounds |
| Operations.GenerateLayout | mangler/randomizers.py:43-47 | `generate` fails exactly when the block does not fit; otherwise it gives n generated slices followed by bounded values, with no keywords |
| Operations.PickChannelBounded | mangler/randomizers.py:23-24 | `pick_channel` as a generator gives 0 or 1 |
| Operations.StutterGeneratorsBounded | mangler/operations.py:237 | Stutter's generators give 1..5 cuts and channel 0 or 1 |
| Operations.GeneratorsBounded | mangler/operations.py:115-331 | every class's generators are bounded by its `Lows` and `Highs` |
| Operations.ConstructGenerated | mangler/operations.py:106-315 | every constructor accepts a layout of generated slices and in-bound values, the operation's fields are exactly those positional arguments, and they satisfy the generated bounds |
| Operations.GeneratorsOneDraw | mangler/randomizers.py:20-24 | each class's generators (`pick_channel`, `get_cuts`) never fail and take exactly one draw |
| Operations.GenerateOpShape | mangler/operations.py:115-331 | `cls.generate` fails exactly when the block does not fit the stream; otherwise it builds an operation of that class with slices from `get_slice`, channel 0 or 1, and 1..5 cuts |
| Operations.GenerateOpDraws | mangler/operations.py:115-331 | when the block fits, `cls.generate` succeeds after exactly one draw per slice and per generator; the operation stores the slices `get_slice` drew first, in order, then the values the generators drew next, in order |
| Operations.GeneratedApplies | mangler/operations.py:115-331 | a generated operation applies without error to any stream of two or more channels |
| Operations.TestData | mangler/operations.py:366-367 | the doctest data has two channels, each counting from 0 to 99 |
| Operations.SwapChainValues | mangler/operations.py:100-104 | on a counting channel, the two swaps give `[6, 7, 4, 5, 0, 1, 2, 3, 8]` |
| Operations.SwapChainDoctest | mangler/operations.py:100-104 | the chained Swap doctest: channel 0 then starts `[6, 7, 4, 5, 0, 1, 2, 3, 8]` and nothing raises |
| Operations.SwapChainExample | mangler/operations.py:100-104 | the doctest run through the class: two constructors, `&` and a call give that prefix without error |
| Operations.InvertValues | mangler/operations.py:120-124 | inverting `[0, 4)` of a counting channel gives `[0, -1, -2, -3]` |
| Operations.InvertDoctest | mangler/operations.py:120-124 | the Invert doctest |
| Operations.ReverseValues | mangler/operations.py:136-140 | reversing `[0, 4)` gives `[3, 2, 1, 0]` |
| Operations.ReverseDoctest | mangler/operations.py:136-140 | the Reverse doctest |
| Operations.DupValues | mangler/operations.py:153-157 | dup of `[0, 4)` over `[4, 8)` gives `[0, 1, 2, 3, 0, 1, 2, 3, 8]` |
| Operations.DupDoctest | mangler/operations.py:153-157 | the Dup doctest |
| Operations.StutterValues | mangler/operations.py:221-225 | stuttering `[0, 4)` with 4 cuts gives `[0, 0, 0, 0]` and keeps 100 samples |
| Operations.StutterDoctest | mangler/operations.py:221-225 | the Stutter doctest |
| Operations.StutterThreeLength | mangler/operations.py:234-236 | with 3 cuts the same region shrinks: the channel gets 99 samples |
| Operations.StutterShortens | mangler/operations.py:234-236 | `Stutter(slice(0, 4), 3)` on the doctest data succeeds and leaves channel 0 with 99 samples |
| Operations.SmearValues | mangler/operations.py:243-247 | smearing `[0, 4)` gives `[0, 0, 1, 1]` |
| Operations.FrameSmearDoctest | mangler/operations.py:243-247 | the FrameSmear doctest |
| Operations.StereoTestData | mangler/operations.py:284-286 | the doctest data with `data[1][0:4] = [10, 9, 8, 7]` |
| Operations.FlipStereoDoctest | mangler/operations.py:284-291 | the FlipStereo doctest: the channels trade `[0, 1, 2, 3]` and `[10, 9, 8, 7]` |
| Operations.InterleaveStereoDoctest | mangler/operations.py:305-312 | the InterleaveStereo doctest: `[10, 1, 8, 3]` and `[0, 9, 2, 7]` |
| Randomizers.Trunc | mangler/randomizers.py:7 | `int(x)` truncates toward zero |
| Randomizers.GetSlice | mangler/randomizers.py:6-9 | `get_slice` fails exactly when the block does not fit; otherwise the slice holds exactly `block` samples, starts at 0 or later and stops at `size - 1` or earlier |
| Randomizers.GetSliceCovers | mangler/randomizers.py:6-9 | every admissible start is drawn by some source |
| Randomizers.GetCuts | mangler/randomizers.py:20-21 | `get_cuts` gives 1..5 |
| Randomizers.GetCutsIgnoresMax | mangler/randomizers.py:20-21 | the `max` argument has no effect |
| Randomizers.PickChannel | mangler/randomizers.py:23-24 | `pick_channel` gives 0 or 1 |
| Randomizers.GetItem | mangler/randomizers.py:14-18 | `get_item` fails exactly on an empty collection; otherwise it gives a list element or a dict value |
| Randomizers.DrawSlices | mangler/randomizers.py:44 | n slices are drawn, each a possible `get_slice` result; the draw fails exactly when some slice is drawn and the block does not fit |
| Randomizers.Values | mangler/randomizers.py:45 | one value per positional generator; generators that never fail give a result |
| Randomizers.NamesMembers | mangler/randomizers.py:46 | a name is among the keyword names exactly when some entry has it |
| Randomizers.Keywords | mangler/randomizers.py:46 | the keyword dict has exactly the given names; generators that never fail give a result |
| Randomizers.KeywordsInOrder | mangler/randomizers.py:46 | with distinct names, the value under each name is what its generator gave on the source the earlier entries left, the entries taken head first |
| Randomizers.Generate | mangler/randomizers.py:43-47 | a block that does not fit fails, and with never-failing generators that is the only failure; otherwise the slices come first, then one value per generator, with exactly the keyword names |
| Randomizers.DrawSlicesInOrder | mangler/randomizers.py:44 | when the block fits, n slices are drawn with one draw each, slice i being `get_slice` on the i-th draw |
| Randomizers.ValuesOneDraw | mangler/randomizers.py:45 | generators taking one draw each give value j from draw j, in order, and consume exactly as many draws as there are generators |
| Randomizers.KeywordsOneDraw | mangler/randomizers.py:46 | with distinct names and one draw per generator, the value under entry j's name comes from draw j |
| Randomizers.GenerateOneDraw | mangler/randomizers.py:43-47 | when the block fits and each generator takes one draw, `generate` succeeds; the slices use the first draws, the positional values the next ones, the keywords the last ones, and the draws used are exactly that many |
| Randomizers.ValuesInOrder | mangler/randomizers.py:45 | generators that ignore the source contribute their values in order |
| Randomizers.GenerateDoctest | mangler/randomizers.py:33-40 | the `generated` doctest: one 1-sample slice of a 100-sample stream, then `'test'` |
| Analyzer.GetRange | mangler/analyzer.py:14-16 | `get_range` fails exactly when the block does not fit; otherwise it gives a region of exactly `block` samples that starts at 0 or later and ends at `size - 1` or earlier |
| Analyzer.GetRangeCovers | mangler/analyzer.py:14-16 | every admissible start is drawn by some source |
| Analyzer.ApplyBasic | mangler/analyzer.py:18-48 | a primitive fails exactly when `swap`/`dup` get a block that does not fit the channel, or when `stutter`'s cut range is empty; swap, dup and stutter take one draw each, the others none |
| Analyzer.ApplyAll | mangler/analyzer.py:6-12 | combining nothing changes nothing; a combination only moves forward on the random tape |
| Analyzer.RotateNegates | mangler/analyzer.py:18-21 | `rotate` negates exactly the region and takes no draw |
| Analyzer.RotateInvolutive | mangler/analyzer.py:18-21 | rotating the same region twice restores the channel |
| Analyzer.FlipMirrors | mangler/analyzer.py:23-25 | `flip` mirrors the region and takes no draw |
| Analyzer.FlipInvolutive | mangler/analyzer.py:23-25 | flipping the same region twice restores the channel |
| Analyzer.SwapExchanges | mangler/analyzer.py:27-32 | `swap` fails exactly when its own draw does; otherwise it keeps the length and, when the drawn region is disjoint from the given one, exchanges the two |
| Analyzer.DupCopies | mangler/analyzer.py:34-37 | `dup` copies the region over the drawn one and keeps the length |
| Analyzer.StutterSplices | mangler/analyzer.py:43-48 | `stutter` fails exactly when no cut fits before the region; otherwise the region is replaced by four copies of a `block_size / 4`-sample cut taken before the region |
| Analyzer.StutterLength | mangler/analyzer.py:43-48 | the channel changes length by `4 * (block / 4)` minus the region length; a region of `block` samples keeps its length exactly when `block` is a multiple of 4 |
| Analyzer.ApplyAllAppend | mangler/analyzer.py:6-12 | combining `xs + ys` is combining `xs`, then `ys` on its result |
| Analyzer.StutterAndFlipThreads | mangler/analyzer.py:60 | `stutterAndFlip` flips the stuttered channel |
| Analyzer.DupFlipThreads | mangler/analyzer.py:62 | `dupFlip` flips the dup'd channel |
| Analyzer.Coin | mangler/analyzer.py:84 | the hit channel is 0 or 1 |
| Analyzer.HitChannel | mangler/analyzer.py:86-89 | a block that does not fit the channel fails; a hit takes at least two draws |
| Analyzer.HitAppliesCatalogEntry | mangler/analyzer.py:86-89 | a successful hit is some entry of `ops` applied to a region of exactly `block` samples within `[0, len - 1)` |
| Analyzer.HitStep | mangler/analyzer.py:83-91 | `hit` fails when the coin names a missing channel or the block does not fit; otherwise only the picked channel changes, as `HitChannel` gives it |
| Analyzer.Hit | mangler/analyzer.py:83-91 | `hit` on an array of channels writes what `HitStep` gives, or reports its error and writes nothing |
| Analyzer.Hits | mangler/analyzer.py:101-103 | n hits complete n steps unless one fails, and fewer than n if one does |
| Analyzer.HitsCompose | mangler/analyzer.py:101-103 | `m + n` hits are m hits and then n more from where they stopped |
| Analyzer.HitsKeepOtherChannels | mangler/analyzer.py:83-91 | hitting keeps the channel count and never touches channels past the first two |
| Analyzer.Mangled | mangler/analyzer.py:96-106 | `mangle` fails on a stream without channels; for zero hits it keeps the stream; it keeps the channel count; it gives the hit loop's result, failing with RaggedChannels exactly when the hit channels have unequal lengths; on success it completes `num_hits` hits and the channels are of equal length |
| Analyzer.Mangle | mangler/analyzer.py:96-106 | the hit loop over an array of channels leaves the channels, the error and the source that `Mangled` gives |
| Load.Stereoify | mangler/load.py:46-49 | a stream of several channels is kept, a mono stream becomes two channels holding the same samples, an empty one raises IndexError |
| Load.StereoifyIdempotent | mangler/load.py:46-49 | widening twice is widening once |
| Load.Stride | mangler/load.py:14 | `data[c::n]` has as many samples as there are indices `c + k*n` below the length |
| Load.StrideAt | mangler/load.py:14 | sample k of `data[c::n]` is `data[c + k*n]` |
| Load.Channels | mangler/load.py:12-14 | de-interleaving into n channels gives n channels |
| Load.ChannelsAt | mangler/load.py:12-14 | sample k of channel c is `data[k*n + c]` |
| Load.Deinterleave | mangler/load.py:12-14 | the reading loop builds exactly the n strided channels |
| Load.ChannelsLength | mangler/load.py:12-14 | the first `len(data) % n` channels hold one sample more than the others |
| Load.Interleave | mangler/load.py:42-43 | the transpose has `n * len` samples; channels of unequal length do not form a matrix |
| Load.InterleaveAt | mangler/load.py:42-43 | sample c of frame k is sample k of channel c |
| Load.DeinterleaveInterleave | mangler/load.py:12-14 | writing channels then reading them back with the same channel count gives the channels back |
| Load.InterleaveDeinterleave | mangler/load.py:42-43 | read channels form whole frames exactly when the data length is a multiple of n, and writing them restores the data |

## Left out

- File and audio I/O is not modelled: pydub, wavio, `wave`,
  `np.fromstring` decoding of 16-bit samples, and the bytes written by
  `writeframes`. `load.read`, `_read_wavio` and the file handling in
  `write` are left out for the same reason. Samples are unbounded integers.
- `Rotate`, `Expand` and `_clean` in operations.py are not modelled: they
  go through floating-point FFTs.
- `Convolution` in operations.py and SciPy in general are not modelled.
- The analyzer's `convolve` is a function parameter (`Analyzer.Convolver`)
  because `ndimage.convolve` is floating-point library code. Only which
  kernel is used and which region is written are modelled.
- `Merge` and `get_angle` are not modelled: they depend on floating-point
  ratios and angles.
- NumPy aliasing is not modelled: every slice read is a copy, as it is on
  Python lists. On NumPy channels a read slice is a view, so the analyzer's
  `swap` would duplicate instead of exchange. NumPy's error on a
  length-changing slice assignment is also left out: the list behaviour,
  where the list grows or shrinks, is modelled.
- The command-line interface, `__main__`, `Population`, `process`, the
  prints and the `test` flag of `__call__` are left out; they are I/O.
- Analyzer.Mangled: the final `np.array(..., dtype=int16)` is modelled
  only as the check that the channels have equal length. Its wrap of
  samples to 16 bits is not modelled, because samples are unbounded
  integers here.
- Analyzer.HitStep: `hit`'s `length` argument and `mangle`'s `maxx` are
  not modelled because the code never uses them.
- Analyzer.ApplyAll: only composes primitives. `combine` of a `combine`
  does not occur in `ops`.
- Analyzer.StutterLength: is stated only for `block_size >= 0`. A negative
  block makes the cut bounds count from the end of the channel.
- Analyzer.ApplyBasic: the convolution's result length comes from the
  `conv` parameter, so no length is promised for it.
- Randomizers.Keywords: the given sequence stands for the dict's `items()`
  order, and entries are drawn head first. The order in which a Python 2
  dict lists its items is not modelled.
- Randomizers.Block: `int(frame_rate * ratio)` uses an exact real product.
  Floating-point rounding of that product is not modelled.
- Load.Stereoify: in Python both channels of a widened mono stream are the
  one list object `stream[0]`. Here they are two equal values. So the model
  does not capture that FlipStereo and InterleaveStereo leave such a stream
  unchanged, or that a write to channel 0 also changes channel 1.
- Load.Interleave: channels of unequal length are modelled as
  `RaggedChannels`. With no `dtype`, older NumPy builds an object array
  instead of raising, and that behaviour is not modelled.
- Operations.Construct: only value parameters (`channel`, `cuts`) may be
  given by keyword. Slice parameters by keyword (`Swap(a=..., b=...)`) are
  not modelled. An argument of the wrong kind, such as an integer where a
  slice goes, is rejected here. Python accepts it at construction and would
  fail only later.
- RandomSource.RandInt: the distribution of the draws is not modelled. One
  draw per `randint` or `choice` call gives the value directly, as if the
  generator were fixed.
- Operations.Apply: a channel index or cut count given as a float or
  another non-integer type is not modelled; parameters are integers.
- Regions.RoundedQuotient: `round` is computed exactly on integers.
  Floating-point rounding of `len / float(cuts)` near a half is not
  modelled.
