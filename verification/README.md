# Streaming DSP kernels: exact models

Uni.SIMD implements stateful signal processing kernels several times over: a plain scalar
form, and fast forms that batch work, shuffle lanes or look ahead. All forms must agree, and
all of them must keep their state across blocks of any length. This project models five of
those kernels and proves what they compute and that their forms agree.

- `viterbi_*.dfy`, `bits.dfy`: the K = 7, rate 1/2 add-compare-select kernel. The trellis and
  its unbounded path metrics come first; the 16-bit kernel with renormalisation is shown equal
  to them, the butterfly loop and the vector loop equal to the 16-bit kernel, and decoding is
  closed with an encoder round trip.
- `complex.dfy`, `ifft_*.dfy`: the split-complex inverse FFT in place, against the transform
  sum, in decimation in time (scalar and vector) and decimation in frequency.
- `pfb_*.dfy`: the polyphase channelizer. The filter bank formula, the tables of a plan, the
  mirrored history ring, one hop, whole streams, the batched schedule, the four- and eight-hop
  batches of the vector backends, and the staged schedule that runs them.
- `sync_*.dfy`: the symbol synchronizer. The timing loop of one lane, lock tracking, scalar
  and vector passes, the two passes of a call against one loop over the stream, bounds that keep
  the loop from stepping back, and coasting.
- `costas_*.dfy`: the Costas loop. Its equations sample by sample and over runs, shift queue and
  masked ring, normalisation by counter and by chunk, quarter turns and coasting.

Arithmetic is exact. The Viterbi kernel works on integers with its 16-bit wrap-around written
out. Everything else works on real numbers; where a form is claimed to be identical even in
floating point, the multiply-add is an arbitrary function (`PfbD4x4.AccumulatePaired`,
`PfbWide.AccumulateEight`). Twiddle and phase tables are given by roots of unity: `RootsOfUnity`
asks for the product law, the half turn and, where the order is divisible by four, the quarter
turn, and `ComplexNumbers.CircleTableIsRoots` shows that tables of cosines and sines meet it.
The Costas loop takes pi, sine, cosine and the reciprocal square root as parameters. It asks
for the quarter-turn laws only where it turns lanes, and for the square root's law only where a
phasor is said to get length 1.

Where several forms read or combine values through one function, a law of its own says what that
function does, in terms of the configuration, the block or the samples: which bytes are which
symbols (`ViterbiRoundTrip.DecodeMessage`), which tap answers when (`PfbStream.MeasureResponse`),
where omega ends (`SyncLock.RunFollowsErrors`), what the average is and when a detector switches
(`SyncLock.SwitchRule`), what an error does to frequency and steps (`CostasEquations.LoopEquations`).

State is kept as the kernels keep it: classes with array fields and counters, changed in
place. Each carries, for specification only, the stream it has consumed; its `Valid` predicate
says that counters, ring, metrics or timing state are those of that stream. A method that
processes a block therefore promises the same whatever came before and however the stream was
split.

Where the code does not do what its documentation or a comment says, or does it only under a
condition, the statements carry the exact condition and a lemma gives an input:

- The comment at `src/viterbi/viterbi_generic.cpp:12-13` derives three branches of a butterfly
  from the fourth. Creation accepts polynomials for which that is false. It is true exactly for
  polynomials that tap both ends of the register (`ViterbiCode.BranchesAreComplements`), and the
  encoder results hold exactly for codes of such polynomials (`ViterbiCode.Transparent`);
  `ViterbiRoundTrip.UntappedCodeMisdecodes` is an accepted configuration that decodes a message
  wrongly. The trellis, 16-bit and vector results hold for every valid code.
- The cost of the complemented branches is `63 - metric`, not the documented formula for the
  complemented bits. `ViterbiTrellis.CostAgainstDocumentation` says where they differ,
  `ViterbiTrellis.CostsDiffer` gives an input.
- The documentation of a truncated synchronizer lane says the rest of its block is dropped
  (`include/uni_simd_typedefs.h:321-326`). In the code the next call goes on inside that block
  (`SyncKernel.TruncatedSymbolComesLater`). A lane skips samples exactly where its loop stopped
  before the earliest time the kept history allows; `SyncKernel.LaneDone` states the whole new
  state of a lane, `SyncKernel.TruncationDefers` that nothing else is lost.
- Zeros have no sign here. A quarter turn can then change what the detector sees: after one
  quarter where only the real part is zero, after three where only the imaginary part is, after
  two on either (`CostasRotation.Tolerates`). A rotated run keeps its errors exactly if no
  output is such a sample; `CostasRotation.QuarterShows` is one.
- A Costas skip does not enforce the frequency limit, silence does: `CostasSkip.SkipIsSilence` says
  when the two agree, `CostasSkip.SkipKeepsFrequency` gives an input where they do not.

In the synchronizer a call is the loop over the stream whenever it clamps no stencil
(`SyncStream.Unclamped`), which `SyncStream.UnclampedMeans` puts in terms of that loop. A loop
that never steps back in time clamps none; `SyncBounds` derives that from a bound on the samples
and the proportional gain.

## Model

| member | source | states |
|---|---|---|
| ViterbiCode.RegisterIsReversedState | src/viterbi/viterbi_common.cpp:41-52 | the encoder register on a branch is the decoder state, new bit included, read backwards, and the encoder keeps the reversed next state |
| ViterbiCode.MemoryIsReversedState | include/uni_simd_typedefs.h:355-357 | for every bit sequence the encoder memory is the decoder state it leads to, reversed |
| ViterbiCode.EncoderIsConvolution | include/uni_simd_typedefs.h:353-359 | for every message and polynomials: symbol n is the parity of the last seven input bits under the taps written out bit by bit, the newest under bit 6, polynomial A first, as byte 255 or 0 |
| ViterbiCode.EndBits | src/viterbi/viterbi_common.cpp:15-17 | the parity of a register is its two end bits as far as they are tapped, plus a part that depends on the five middle bits only |
| ViterbiCode.BranchBit | src/viterbi/viterbi_common.cpp:15-17 | for any valid polynomial the bit of a branch is the tabulated one, flipped exactly if an odd number of its set end bits are tapped |
| ViterbiCode.BranchesAreComplements | src/viterbi/viterbi_generic.cpp:12-15 | for a valid polynomial: every branch expects the tabulated bit or its complement by the parity of oldest and newest bit, if and only if the polynomial taps bit 0 and bit 6 |
| ViterbiDecoder.RegisterBits | src/viterbi/viterbi_common.cpp:45-49 | the bit loop builds the seven-bit reversal of the state bits |
| ViterbiDecoder.ExpectedTables | src/viterbi/viterbi_common.cpp:44-52 | the expected-bit tables are the code bits of old state i taking a 0 |
| ViterbiTrellis.MetricRange | include/uni_simd_typedefs.h:360-361 | the branch cost is the documented rounding of the mismatch and lies in 0..63 |
| ViterbiTrellis.StepIsMinimum | include/uni_simd_typedefs.h:362-364 | a new metric is the smaller of its two candidates, and the decision bit names the one that attains it, the higher old state on ties |
| ViterbiTrellis.MetricsAreLowerBounds | src/viterbi/viterbi_generic.cpp:11-30 | for every start state, bit sequence and symbol sequence, the end metric is at most start metric plus path cost |
| ViterbiTrellis.TracebackIsTight | include/uni_simd_typedefs.h:362-364 | following the decision words back from any state gives a path ending there whose cost is exactly the metric |
| ViterbiTrellis.SurvivorIsOptimal | include/uni_simd_typedefs.h:362-365 | the metric of a state is the minimum over all paths into it, attained by traceback |
| ViterbiTrellis.SixStepsConnect | include/uni_simd_typedefs.h:355 | six bits lead from any state to any state |
| ViterbiTrellis.SpreadAfterSixSteps | src/viterbi/viterbi_generic.cpp:14-25 | from the sixth step on no two metrics differ by more than 6 * 63, whatever the start |
| ViterbiTrellis.GrowthBound | src/viterbi/viterbi_generic.cpp:14-25 | a metric grows by at most 63 per step |
| ViterbiTrellis.RunAppend | src/viterbi/viterbi_common.cpp:76-92 | metrics and decision words of two blocks in a row are those of one block |
| ViterbiTrellis.CostAgainstDocumentation | include/uni_simd_typedefs.h:360-361 | on all branches and symbols the cost is the documented one, or one below it exactly on complemented branches with 8 dividing x + 1: if and only if the code taps both ends |
| ViterbiTrellis.CostsDiffer | src/viterbi/viterbi_generic.cpp:14-15 | an input where the two differ: 62 against 63 |
| ViterbiTrellis.EndsAreCharged | src/viterbi/viterbi_generic.cpp:12-15 | which end is untapped shows as a cost for the own symbols of the branch that enters a 1, or of the branch that shifts it out |
| ViterbiTrellis.CostOfSent | src/viterbi/viterbi_generic.cpp:12-15 | the transmitted branch costs 0 and the other branch of the same state 63, on all branches: if and only if the code taps both ends |
| ViterbiMetrics16.StepWithoutWrap | src/viterbi/viterbi_generic.cpp:14-25 | a 16-bit step on metrics with 63 of headroom is the unbounded step shifted by a constant, with the same decisions |
| ViterbiMetrics16.RenormalizeShifts | src/viterbi/viterbi_common.cpp:21-27 | renormalisation shifts all metrics alike and brings them below the spread |
| ViterbiMetrics16.RenormalizesEvery128 | src/viterbi/viterbi_generic.cpp:31-33 | the smallest metric is taken off after exactly every 128th step of a run, and only then |
| ViterbiMetrics16.AdvanceKeepsBounds | src/viterbi/viterbi_generic.cpp:7-34 | one step, renormalised or not, keeps the bound for its position in the period |
| ViterbiMetrics16.MetricsSpread | src/viterbi/viterbi_generic.cpp:31-33 | the spread bound in the form renormalisation needs, for every run of at least six steps |
| ViterbiMetrics16.SixteenBitsSuffice | include/uni_simd_typedefs.h:365 | for every allowed start and every symbol sequence the 16-bit run with renormalisation equals the unbounded run up to the subtracted offset, decision words included |
| ViterbiMetrics16.NoMetricEverWraps | include/uni_simd_typedefs.h:365 | no metric addition of any run exceeds 1024 + 63 * 128, and the best state is that of the unbounded metrics |
| ViterbiMetrics16.SmallestOfShifted | src/viterbi/viterbi_common.cpp:89-90 | subtracting a constant leaves the first smallest metric where it is |
| ViterbiMetrics16.RunAppend16 | src/viterbi/viterbi_common.cpp:76-92 | the 16-bit run may be split into blocks anywhere |
| ViterbiKernel.ButterflyCosts | src/viterbi/viterbi_generic.cpp:14-21 | the four branch costs of a butterfly |
| ViterbiKernel.ButterflyBranches | src/viterbi/viterbi_generic.cpp:16-25 | the four sums of a butterfly are the candidates of new states 2i and 2i + 1, ties going to the high state |
| ViterbiKernel.ViterbiState.AddCompareSelect | src/viterbi/viterbi_generic.cpp:10-26 | the butterfly loop fills the next metrics and the decision word of one step, in place |
| ViterbiKernel.ViterbiState.Renormalize | src/viterbi/viterbi_common.cpp:21-27 | subtracts the smallest metric from every metric and restarts the count |
| ViterbiKernel.ViterbiState.StepInto | src/viterbi/viterbi_generic.cpp:8-33 | one pass of the block loop: metrics, count and the one decision word |
| ViterbiKernel.ViterbiState.RunGeneric | src/viterbi/viterbi_generic.cpp:5-35 | any number of steps leaves the specified state and writes exactly its decision words; byte 2i of the block is the first symbol of step i, byte 2i + 1 the second |
| ViterbiAvx2.UnpackRestoresOrder | src/viterbi/viterbi_avx2.cpp:54-59 | unpack and half permute put interleaved even and odd states back in state order |
| ViterbiAvx2.MaskInStateOrder | src/viterbi/viterbi_avx2.cpp:60-62 | packed comparison masks give one decision bit per new state, in state order |
| ViterbiAvx2.HalfStep | src/viterbi/viterbi_avx2.cpp:45-63 | one register pair computes its half of the scalar step; min-then-compare gives ties to the high state |
| ViterbiAvx2.VectorStepIsScalarStep | src/viterbi/viterbi_avx2.cpp:33-76 | a vector step is the scalar step, metrics and decision word |
| ViterbiAvx2.HorizontalMinimumIsSmallest | src/viterbi/viterbi_avx2.cpp:79-81 | the folded minimum is the smallest of the 64 metrics |
| ViterbiAvx2.RenormalizedLanes | src/viterbi/viterbi_avx2.cpp:79-86 | in-register renormalisation is the scalar one |
| ViterbiAvx2.VectorAdvance | src/viterbi/viterbi_avx2.cpp:32-87 | one pass of the vector loop is one pass of the scalar loop |
| ViterbiAvx2.VectorBlock | src/viterbi/viterbi_avx2.cpp:30-88 | the register loop over a block gives the state and decision words of the specification for the bytes of the block in order |
| ViterbiAvx2.RunAvx2 | src/viterbi/viterbi_avx2.cpp:19-95 | the vector backend meets the generic backend's contract, from any state and for any number of steps |
| ViterbiDecoder.StreamRun | src/viterbi/viterbi_common.cpp:76-92 | decision words and best state of a further block are those of one unbounded run over the whole stream |
| ViterbiDecoder.Decoder.Execute | src/viterbi/viterbi_common.cpp:76-92 | either backend, any split: words and best state of the unbounded run over the stream so far, to which step i of the block adds byte 2i and byte 2i + 1 |
| ViterbiDecoder.Decoder.Reset | src/viterbi/viterbi_common.cpp:71-74 | returns to the start metrics, state 0 ahead by the penalty where the start is known, and an empty stream |
| ViterbiDecoder.Initialize | src/viterbi/viterbi_common.cpp:29-53 | accepts exactly polynomials 1 to 127 and penalties up to 1024, and starts from the configured metrics |
| ViterbiRoundTrip.DecodedPathIsCheapest | src/viterbi/viterbi_common.cpp:89-90 | traceback from the best state is a cheapest path over all start states and bit sequences |
| ViterbiRoundTrip.TruePathIsFree | include/uni_simd_typedefs.h:355-361 | the path of the encoded bits costs nothing for every message, if and only if the code taps both ends |
| ViterbiRoundTrip.OnlyTheTruePathIsFree | src/viterbi/viterbi_common.cpp:38-40 | from the known start a path is free exactly if it is the message, for every message and path: if and only if the code taps both ends |
| ViterbiRoundTrip.NoiseFreeRoundTrip | src/viterbi/viterbi_common.cpp:38-52 | every undisturbed message decodes to itself with its end state the unique minimum 0, if and only if both polynomials tap both ends, the start state is known and the penalty is positive |
| ViterbiRoundTrip.DecodeMessage | src/viterbi/viterbi_common.cpp:76-92 | through either backend: the parities of a message, interleaved as bytes, leave words and a best state that trace back to the message, for every transparent code, known start and positive penalty |
| ViterbiRoundTrip.UntappedCodeMisdecodes | src/viterbi/viterbi_common.cpp:10-17 | a configuration the kernel accepts, where the claim fails, the sent path costs 63 and a single 1 decodes to a 0 |
| ViterbiRoundTrip.PathCostAgainstDocumentation | include/uni_simd_typedefs.h:360-361 | the cost of every path is at most one per step below the documented cost and never above it, if and only if the code taps both ends |
| ViterbiRoundTrip.DecodedPathUnderDocumentedCosts | include/uni_simd_typedefs.h:360-364 | by the documented cost the decoded path is within one per step of every path, for all start metrics and symbols: if and only if the code taps both ends |
| IfftTransform.SplitDft | src/ifft_cf32/ifft_cf32_generic.cpp:11-37 | a transform of 2h points from the transforms of its even and odd samples, for any bin |
| IfftTransform.TransformIsDft | src/ifft_cf32/ifft_cf32_generic.cpp:42-54 | the even/odd recursion computes every bin of the unscaled positive-exponent transform, for any power of two |
| IfftTransform.StageSplits | src/ifft_cf32/ifft_cf32_generic.cpp:11-16 | a stage works on aligned blocks independently |
| IfftTransform.LastStageCombines | src/ifft_cf32/ifft_cf32_generic.cpp:9-40 | the last stage joins the transforms of the two halves |
| IfftTransform.ReorderedHalves | src/ifft_cf32/ifft_cf32_tables.hpp:41-61 | bit-reversed order is the bit-reversed even samples followed by the bit-reversed odd ones |
| IfftTransform.StagesTransform | src/ifft_cf32/ifft_cf32_generic.cpp:42-54 | the radix-2 stages on bit-reversed data are the recursion, for any power of two |
| IfftTransform.ReverseInvolution | src/ifft_cf32/ifft_cf32_tables.hpp:41-49 | reversing the bits twice gives the index back |
| ComplexNumbers.CircleTableIsRoots | src/ifft_cf32/ifft_cf32_tables.hpp:9-21 | a table of cosines and sines of equal parts of a turn meets the root-of-unity laws for every even order, from the addition theorem alone |
| ComplexNumbers.EighthIsDiagonal | src/pfb_channelizer/pfb_channelizer_avx2_fma.cpp:82-85 | an eighth of a turn has equal parts, so one constant serves for both |
| IfftKernel.ProductIsRotation | src/ifft_cf32/ifft_cf32_generic.cpp:17-31 | plain copy, quarter turn and table product are all multiplication by the twiddle |
| IfftKernel.Butterfly | src/ifft_cf32/ifft_cf32_generic.cpp:17-37 | one butterfly overwrites exactly its two legs with sum and difference |
| IfftKernel.PartialStep | src/ifft_cf32/ifft_cf32_generic.cpp:9-40 | each butterfly finishes exactly the two positions it owns |
| IfftKernel.ApplyStage | src/ifft_cf32/ifft_cf32_generic.cpp:9-40 | the in-place butterfly loop is the stage, and touches nothing outside its range |
| IfftKernel.ApplyStages | src/ifft_cf32/ifft_cf32_generic.cpp:42-48 | the stage loop applies stages of length 2, 4, ... up to the size |
| IfftKernel.ReverseBits | src/ifft_cf32/ifft_cf32_tables.hpp:41-49 | the shift loop reverses the index bits |
| IfftKernel.Reorder | src/ifft_cf32/ifft_cf32_tables.hpp:51-61 | the in-place swaps produce bit-reversed order and touch nothing else |
| IfftKernel.ReorderIsInvolution | src/ifft_cf32/ifft_cf32_tables.hpp:51-61 | reordering twice restores the data |
| IfftKernel.IfftFixed | src/ifft_cf32/ifft_cf32_generic.cpp:50-54 | in place, every bin of the range is the direct transform sum of what it held |
| IfftKernel.IfftGeneric | src/ifft_cf32/ifft_cf32_generic.cpp:58-80 | the transforms that start at multiples of the stride are transformed for sizes 4, 8, 16 and 32, any other size is left alone, and nothing between the transforms changes |
| IfftAvx2.Stage2IsStage | src/ifft_cf32/ifft_cf32_avx2_fma.cpp:11-15 | swap, sign and add inside a register are the length-2 stage |
| IfftAvx2.TurnedIsStage | src/ifft_cf32/ifft_cf32_avx2_fma.cpp:17-61 | permuted legs, rotation and sign tables that fit a stage compute that stage |
| IfftAvx2.Stage8Fits | src/ifft_cf32/ifft_cf32_avx2_fma.cpp:38-61 | the eight-lane tables name the legs, twiddles and signs of the length-8 stage |
| IfftAvx2.RegisterStages | src/ifft_cf32/ifft_cf32_avx2_fma.cpp:128-135 | the three register stages are the first three stages of the transform |
| IfftAvx2.LateStage | src/ifft_cf32/ifft_cf32_avx2_fma.cpp:101-122 | eight butterflies at a time, in place, are a later stage of one block |
| IfftAvx2.ChunksInPlace | src/ifft_cf32/ifft_cf32_avx2_fma.cpp:128-135 | the register stages over every eight values are three stages of the whole range |
| IfftAvx2.IfftWide | src/ifft_cf32/ifft_cf32_avx2_fma.cpp:124-144 | sixteen and thirty-two points in place give the direct transform sum |
| IfftAvx2.Ifft4IsTransform | src/ifft_cf32/ifft_cf32_avx2_fma.cpp:65-81 | the strided four-point form is the transform of every second sample |
| IfftAvx2.Ifft8IsTransform | src/ifft_cf32/ifft_cf32_avx2_fma.cpp:83-99 | the direct eight-point form is the transform |
| IfftAvx2.IfftEight | src/ifft_cf32/ifft_cf32_avx2_fma.cpp:83-99 | eight points in place give the direct transform sum |
| IfftAvx2.IfftVector | src/ifft_cf32/ifft_cf32_avx2_fma.cpp:156-177 | the vector backend meets the generic backend's contract for every size, count and stride |
| IfftFrequency.SplitEven | src/pfb_channelizer/pfb_channelizer_avx2_fma.cpp:80-92 | even bins are the transform of the leg sums |
| IfftFrequency.SplitOdd | src/pfb_channelizer/pfb_channelizer_avx2_fma.cpp:80-92 | odd bins are the transform of the turned leg differences |
| IfftFrequency.NetworkIsDft | src/pfb_channelizer/pfb_channelizer_avx2_fma.cpp:80-92 | a decimation-in-frequency network of any power of two leaves bin k in slot reverse(k) |
| IfftFrequency.NetworksAgree | src/pfb_channelizer/pfb_channelizer_avx2_fma.cpp:66-92 | decimation in frequency and in time compute the same bins |
| PfbFilterBank.RowTurn | src/pfb_channelizer/pfb_channelizer_common.cpp:105-113 | a row of branches turns a bin by half turns only, which the row sign undoes |
| PfbFilterBank.BranchWeight | src/pfb_channelizer/pfb_channelizer_common.cpp:125-130 | branch rotation times transform weight is the bin's own frequency, wrapped negative bins included |
| PfbFilterBank.TapWeight | src/pfb_channelizer/pfb_channelizer_common.cpp:106-113 | row sign, rotation and weight give each tap exactly its direct weight, zero beyond the last tap |
| PfbFilterBank.BranchExpands | src/pfb_channelizer/pfb_channelizer_generic.cpp:51-75 | a rotated and weighted branch is the sum of its taps' direct terms |
| PfbFilterBank.BranchesCoverTaps | src/pfb_channelizer/pfb_channelizer_generic.cpp:51-75 | all branches together are all taps, once each |
| PfbFilterBank.PolyphaseIsDirect | src/pfb_channelizer/pfb_channelizer_generic.cpp:49-80 | rows, rotation, inverse transform bin and post phase give the direct filter-bank sum, for every configuration, stream, bin and time |
| PfbFilterBank.SingleSample | src/pfb_channelizer/pfb_channelizer_common.cpp:106-113 | a stream of a single sample gives at time n the tap taps[n - m] times the sample mixed down at its time m, for every bin |
| PfbFilterBank.ToneIsConstant | src/pfb_channelizer/pfb_channelizer_common.cpp:154-161 | a tone at the centre of a bin, half a bin higher on the half grid, comes out of that bin as the constant sum of the taps |
| PfbPlan.BinPeriodTurns | src/pfb_channelizer/pfb_channelizer_common.cpp:140-146 | modulus over gcd hops of a bin are whole turns |
| PfbPlan.PeriodTurns | src/pfb_channelizer/pfb_channelizer_common.cpp:140-147 | the least common multiple of the bin periods is whole turns for every selected bin |
| PfbPlan.PhaseRepeats | src/pfb_channelizer/pfb_channelizer_common.cpp:140-161 | the post phase of hop h is the table entry at h modulo the period |
| PfbPlan.PeriodIsLeast | src/pfb_channelizer/pfb_channelizer_common.cpp:140-147 | a number of hops is whole turns for every selected bin if and only if the period divides it |
| PfbPlan.NextPowerOfTwo | src/pfb_channelizer/pfb_channelizer_common.cpp:21-27 | the smallest power of two that is not below the value |
| PfbPlan.Coefficients | src/pfb_channelizer/pfb_channelizer_common.cpp:106-113 | place i of the rows is plus or minus taps[row * bins + branch], branches in reverse, every other row negated on the half grid, zeros past the last tap |
| PfbPlan.PhasePeriod | src/pfb_channelizer/pfb_channelizer_common.cpp:140-147 | the lcm loop computes the common period |
| PfbPlan.PostPhases | src/pfb_channelizer/pfb_channelizer_common.cpp:154-161 | the post-phase table, output by output |
| PfbPlan.MakePlan | src/pfb_channelizer/pfb_channelizer_common.cpp:63-176 | succeeds exactly for valid configurations, written out in numbers; coefficients in terms of the taps, all other tables, and as ring the least power of two that holds span, staging and three hops |
| PfbRing.WriteSlot | src/pfb_channelizer/pfb_channelizer_generic.cpp:44-47 | writing a sample and its mirror keeps both copies on the newest samples of the stream |
| PfbRing.ReadSlot | src/pfb_channelizer/pfb_channelizer_generic.cpp:54-59 | a slot read within one ring length holds the sample it names, in either copy |
| PfbRing.HalvesAgree | src/pfb_channelizer/pfb_channelizer_generic.cpp:44-47 | the two halves of the ring are equal |
| PfbRing.RingIsDetermined | src/pfb_channelizer/pfb_channelizer_common.cpp:244-270 | the ring is a function of the stream alone |
| PfbRing.EmptyRing | src/pfb_channelizer/pfb_channelizer_common.cpp:212-221 | a cleared ring is the ring of the empty stream |
| PfbHop.SlotHoldsSample | src/pfb_channelizer/pfb_channelizer_generic.cpp:54-59 | lane and row address the sample n - row * bins - branch, also with later samples in the ring |
| PfbHop.Accumulate | src/pfb_channelizer/pfb_channelizer_generic.cpp:51-61 | the row and lane loops leave every branch sum in the accumulators |
| PfbHop.Rotate | src/pfb_channelizer/pfb_channelizer_generic.cpp:66-75 | rotation in place, skipped on the integer grid where it is 1 |
| PfbHop.ApplyPostPhase | src/pfb_channelizer/pfb_channelizer_internal.hpp:239-254 | axis shortcuts and the general product are one multiplication |
| PfbHop.TransformBranches | src/pfb_channelizer/pfb_channelizer_generic.cpp:66-78 | after the inverse transform every bin times its post phase is its polyphase sum |
| PfbHop.EmitTransformed | src/pfb_channelizer/pfb_channelizer_internal.hpp:282-296 | several outputs: each is the promised sum of its own bin |
| PfbHop.EmitDirect | src/pfb_channelizer/pfb_channelizer_internal.hpp:262-280 | a single output without a transform: the same promised sum |
| PfbHop.ComputeHop | src/pfb_channelizer/pfb_channelizer_generic.cpp:50-80 | one hop from the ring gives sum over k of taps[k] x[hD-k] e^(-2 pi i f (hD-k) / M) for every selected bin |
| PfbStream.OutputCountIsHops | src/pfb_channelizer/pfb_channelizer_internal.hpp:230-237 | the predicted count is the number of hops in the block, hence additive over splits |
| PfbStream.HopIsCausal | src/pfb_channelizer/pfb_channelizer_generic.cpp:41-87 | outputs already produced do not depend on later samples |
| PfbStream.Channelizer.Consume | src/pfb_channelizer/pfb_channelizer_generic.cpp:41-87 | one sample: ring, counters and the hop that ends on it |
| PfbStream.Channelizer.SkipUnselected | src/pfb_channelizer/pfb_channelizer_generic.cpp:30-36 | with no output selected only the counters move, as the stream says |
| PfbStream.Channelizer.Process | src/pfb_channelizer/pfb_channelizer_generic.cpp:9-93 | any block split: every output of every hop is the promised sum over the whole stream, zero before it |
| PfbStream.MeasureResponse | src/pfb_channelizer/pfb_channelizer_generic.cpp:9-93 | an impulse sent through a fresh channelizer brings out taps[h * decimation] at hop h of every output, on either grid |
| PfbStream.Channelizer.Reset | src/pfb_channelizer/pfb_channelizer_common.cpp:212-221 | back to the empty stream |
| PfbBatched.FourHopsFit | src/pfb_channelizer/pfb_channelizer_common.cpp:88-95 | the ring the plan chooses always admits four hops per batch |
| PfbBatched.ProcessBatch | src/pfb_channelizer/pfb_channelizer_internal.hpp:339-341 | queued hops filtered late still give the outputs of their own times |
| PfbBatched.EnqueueAndRun | src/pfb_channelizer/pfb_channelizer_internal.hpp:327-349 | the queue never exceeds the batch limit and always holds the hops still owed |
| PfbBatched.ProcessStreaming | src/pfb_channelizer/pfb_channelizer_internal.hpp:298-359 | the batched schedule meets the contract of filtering every hop at once |
| PfbBatched.AdvanceOnly | src/pfb_channelizer/pfb_channelizer_common.cpp:244-270 | leaves ring and counters of the whole stream, also when samples older than the ring are never written |
| PfbBatched.StateIsDetermined | include/uni_simd.h:137-142 | processing, batching, staging and advancing the same stream leave the same state |
| PfbD4x4.EightPointIsNetwork | src/pfb_channelizer/pfb_channelizer_avx2_fma.cpp:79-92 | the written-out butterflies are the general network at eight points |
| PfbD4x4.EightPointIsDft | src/pfb_channelizer/pfb_channelizer_avx2_fma.cpp:79-126 | slot bit_reversed[k] holds transform bin k |
| PfbD4x4.MapsAreQuarterTurns | src/pfb_channelizer/pfb_channelizer_internal.hpp:204-225 | every phase map turns hop j forward or back by phase + j quarters, for all data |
| PfbD4x4.ExactPeriod | src/pfb_channelizer/pfb_channelizer_internal.hpp:194-202 | the exact layout repeats its phases every four hops |
| PfbD4x4.NetworkHopIsDirect | src/pfb_channelizer/pfb_channelizer_avx2_fma.cpp:63-126 | network slot times post phase is the promised output, for every eight-bin layout and time |
| PfbD4x4.FourHopsAreDirect | src/pfb_channelizer/pfb_channelizer_avx2_fma.cpp:94-112 | network and phase map give the promised outputs of four hops, from any starting hop |
| PfbD4x4.AxisPhases | src/pfb_channelizer/pfb_channelizer_avx2_fma.cpp:136-146 | eight bins at a decimation divisible by four have axis phases only, and blending with signs multiplies by them |
| PfbD4x4.SharedWindow | src/pfb_channelizer/pfb_channelizer_avx2_fma.cpp:454-489 | a hop two hops later reads in row r + 1 the window of row r, thanks to the mirror |
| PfbD4x4.AccumulatePaired | src/pfb_channelizer/pfb_channelizer_avx2_fma.cpp:454-489 | two rows at a time with shared windows accumulate as row by row does, for any multiply-add, rounding included |
| PfbWide.AccumulateEight | src/pfb_channelizer/pfb_channelizer_avx512f.cpp:347-437 | the 4/2/1-row loops apply every row once, in ascending order, to each hop pair, for every row count |
| PfbWide.WindowOfHop | src/pfb_channelizer/pfb_channelizer_avx512f.cpp:447-457 | with either origin every read lies in the doubled ring and shows the intended hop's row |
| PfbWide.HalvesAreHops | src/pfb_channelizer/pfb_channelizer_avx512f.cpp:341-346 | each half of a pair accumulates one hop as row by row does |
| PfbWide.BatchOfEight | src/pfb_channelizer/pfb_channelizer_avx512f.cpp:447-469 | regrouped, the eight accumulators are those of hops 0 to 7 |
| PfbWide.RowHoldsSamples | src/pfb_channelizer/pfb_channelizer_avx512f.cpp:447-457 | the lanes of a row are eight consecutive samples of the stream |
| PfbExact.RowsAreBranches | src/pfb_channelizer/pfb_channelizer_avx2_fma.cpp:454-489 | lane l of the exact accumulators is branch 7 - l of the filter bank |
| PfbExact.BatchOfFour | src/pfb_channelizer/pfb_channelizer_avx2_fma.cpp:454-489 | the four-hop batch from ring to outputs: every output is the promised sum |
| PfbExact.BatchOfEightHops | src/pfb_channelizer/pfb_channelizer_avx512f.cpp:439-523 | the eight-hop batch gives the promised outputs in both halves |
| PfbEight.AccumulateRows | src/pfb_channelizer/pfb_channelizer_avx2_fma.cpp:537-545 | row by row over any number of hops accumulates each of them in ascending row order |
| PfbEight.IntegerGridIsRotated | src/pfb_channelizer/pfb_channelizer_avx2_fma.cpp:555-567 | leaving the rotation out on the integer grid changes nothing |
| PfbEight.FourByTable | src/pfb_channelizer/pfb_channelizer_avx2_fma.cpp:490-524 | the four-hop batch of every other eight-bin, decimate-by-4 layout, from ring to outputs |
| PfbEight.TransformHops | src/pfb_channelizer/pfb_channelizer_avx2_fma.cpp:577-594 | up to four hops stored one after another are each transformed |
| PfbEight.FewByTable | src/pfb_channelizer/pfb_channelizer_avx2_fma.cpp:593-598 | a batch of fewer hops, from ring to outputs |
| PfbStaged.FilterBatch | src/pfb_channelizer/pfb_channelizer_avx2_fma.cpp:617-637 | a batch of one to four hops in the form the backend dispatches it to gives the promised outputs |
| PfbStaged.FilterEight | src/pfb_channelizer/pfb_channelizer_avx512f.cpp:573-590 | so do eight hops of the exact layout in the wide backend |
| PfbStaged.WriteRun | src/pfb_channelizer/pfb_channelizer_avx2_fma.cpp:206-234 | consecutive samples written with or without wrapping |
| PfbStaged.StagedQueue | src/pfb_channelizer/pfb_channelizer_avx2_fma.cpp:255-298 | cursors and phases of a staged span, by mask or by wrapping counter |
| PfbStaged.StageSpan | src/pfb_channelizer/pfb_channelizer_avx2_fma.cpp:254-298 | a span written ahead of its filtering still gives every hop its own samples |
| PfbStaged.StageGroup | src/pfb_channelizer/pfb_channelizer_avx2_fma.cpp:303-324 | thirteen samples complete four hops, three follow |
| PfbStaged.Align | src/pfb_channelizer/pfb_channelizer_avx2_fma.cpp:200-204 | no hop ends before the next boundary |
| PfbStaged.ProcessStaged | src/pfb_channelizer/pfb_channelizer_avx2_fma.cpp:174-348 | from samples to outputs: alignment, 256- and 64-sample spans, groups and remainder, filtered by the vector batches, meet the contract of the sample-by-sample loop for any block |
| PfbStaged.ProcessRest | src/pfb_channelizer/pfb_channelizer_avx2_fma.cpp:326-343 | the remainder queues at most four hops |
| SyncLoop.AdvanceMeans | src/symbol_sync/symbol_sync_generic.cpp:82-88 | shortcut and clamped form are one law: omega becomes omega plus beta times the error, or the bound this passes, and the step is the new omega plus alpha times the error |
| SyncLoop.ClampedIndex | src/symbol_sync/symbol_sync_generic.cpp:24-29 | the stencil index is the whole part of the position, or the nearest that keeps the stencil inside the data |
| SyncLoop.DetectorsAreProducts | include/uni_simd_typedefs.h:264-267 | Gardner is the real part of the conjugate mid-point times the difference of the symbols, Mueller and Muller that of the decisions against the other symbol |
| SyncLoop.LateClock | src/symbol_sync/symbol_sync_generic.cpp:77-81 | on a straight crossing both detectors give minus the lateness of the clock times a positive gain |
| SyncLoop.NormIsRelative | src/symbol_sync/symbol_sync_generic.cpp:90-99 | the norm times the squared power of the samples the detector used is the squared error |
| SyncLoop.MidIsHalfway | src/symbol_sync/symbol_sync_generic.cpp:72-76 | without an error the mid-point of a symbol lies halfway between it and the one before |
| SyncLoop.RunStops | src/symbol_sync/symbol_sync_generic.cpp:71-124 | a pass keeps omega in bounds, never exceeds its room, and stops short of it only at the limit |
| SyncLoop.SymbolsFit | src/symbol_sync/symbol_sync_generic.cpp:71-124 | n symbols cover at least n - 1 smallest steps |
| SyncLoop.RunThen | src/symbol_sync/symbol_sync_common.cpp:195-209 | continuing a pass with a later limit and more room is one longer pass |
| SyncLoop.RunShifted | src/symbol_sync/symbol_sync_common.cpp:193-199 | signals that show the same along a run, seen from two time origins, give the same run |
| SyncLoop.FittingRun | src/symbol_sync/symbol_sync_generic.cpp:25-27 | a run over a buffer stays inside it exactly if the run over the stream stays inside its place, and then both see the same |
| SyncLoop.NothingClamped | src/symbol_sync/symbol_sync_generic.cpp:25-27 | inside the data the stencil is not clamped and shows the stream |
| SyncLoop.LaterSamples | src/symbol_sync/symbol_sync_common.cpp:147-148 | values up to two samples before the end do not depend on later samples |
| SyncLock.TrackStep | src/symbol_sync/symbol_sync_generic.cpp:99-113 | a symbol switches exactly when its run reaches the hold count, and a run grows by at most one |
| SyncLock.AverageIsTracked | src/symbol_sync/symbol_sync_generic.cpp:99-113 | until a switch the average is (1 - a)^n of the start plus a (1 - a)^(n - 1 - i) of every norm i |
| SyncLock.AverageSettles | include/uni_simd_typedefs.h:277-283 | constant norms are approached by the factor 1 - a per symbol |
| SyncLock.SwitchRule | include/uni_simd_typedefs.h:277-284 | from a cleared run the next symbol switches if and only if the averages after the last hold count of symbols, itself included, were all below the threshold after the least number of symbols, or for falling back above theirs; never without a hold count |
| SyncLock.RunSwitchRule | src/symbol_sync/symbol_sync_generic.cpp:71-124 | the same for the symbols of every run of the timing loop |
| SyncLock.RunTells | src/symbol_sync/symbol_sync_generic.cpp:72-82 | symbol i of a run is the signal at its time, and its error comes from symbol i - 1 as put out, the signal half an omega back, and itself; the first without a previous one has none |
| SyncLock.RunFollowsErrors | include/uni_simd_typedefs.h:272-275 | after every symbol of a run omega is the previous one plus beta times the error or the bound this passes, and the next symbol lies omega plus alpha times the error ahead |
| SyncLock.NoSwitchInside | src/symbol_sync/symbol_sync_avx2_fma.cpp:527-529 | a stretch shorter than hold minus run switches nothing |
| SyncLock.SwitchNeedsHold | src/symbol_sync/symbol_sync_generic.cpp:99-113 | from cleared runs a switch takes at least the hold count of tracked symbols, and none without a hold count |
| SyncLock.SwitchesArePaid | src/symbol_sync/symbol_sync_generic.cpp:99-113 | hold times the number of switches never exceeds the run at the start plus the tracked symbols |
| SyncLock.LockIsTracked | src/symbol_sync/symbol_sync_generic.cpp:90-114 | the lock state after any number of symbols of the loop is tracking over the errors those symbols had |
| SyncLock.RunSwitches | src/symbol_sync/symbol_sync_generic.cpp:71-124 | in every pass: a first switch takes the hold count of symbols, and all switches are paid for in symbols |
| SyncLock.RunSwitchesAreApart | src/symbol_sync/symbol_sync_common.cpp:66-72 | in every pass at least the new detector's hold count of symbols lies between two switches |
| SyncLock.SwitchesAreApart | src/symbol_sync/symbol_sync_common.cpp:66-72 | between two switches lie at least as many tracked symbols as the new detector's hold count |
| SyncGeneric.RunLane | src/symbol_sync/symbol_sync_generic.cpp:59-131 | the scalar loop of one lane is the specified pass, with count within capacity |
| SyncGeneric.RunGeneric | src/symbol_sync/symbol_sync_generic.cpp:55-133 | every lane of a pass, one after another |
| SyncFarrow.FarrowIsInterpolant | src/symbol_sync/symbol_sync_avx2_fma.cpp:180-240 | the prepared Farrow polynomial equals the factored Lagrange weights, cubic and linear, for every mu |
| SyncFarrow.CubicIsExact | src/symbol_sync/symbol_sync_generic.cpp:30-41 | the cubic weights reproduce every polynomial up to degree three |
| SyncFarrow.StreamFollowsCubic | src/symbol_sync/symbol_sync_generic.cpp:24-46 | a stream that follows a cubic around a position has that cubic as its interpolated value there, at every position |
| SyncFarrow.SpeculationHolds | src/symbol_sync/symbol_sync_avx2_fma.cpp:300-305 | a stencil loaded ahead serves the final position whenever mu lies in [0, 1) |
| SyncVector.BatchLoadsInside | src/symbol_sync/symbol_sync_avx2_fma.cpp:409-413 | the batch range keeps every unclamped load inside the data |
| SyncVector.AdvanceLaneMeans | src/symbol_sync/symbol_sync_avx2_fma.cpp:266-284 | the vector loop filter gives the scalar one and the next mid-point, whichever lane forces the clamped form |
| SyncVector.LaneFollows | src/symbol_sync/symbol_sync_avx2_fma.cpp:331-378 | one step of a batch lane is one step of the scalar loop |
| SyncVector.LockIsReplayed | src/symbol_sync/symbol_sync_avx2_fma.cpp:527-562 | within a batch the per-symbol lock state is what tracking the logged errors afterwards gives |
| SyncVector.Batch | src/symbol_sync/symbol_sync_avx2_fma.cpp:311-397 | all four lanes after n batch steps are the scalar loop after n steps, lock tracking aside |
| SyncVector.ReplayLock | src/symbol_sync/symbol_sync_avx2_fma.cpp:532-562 | the replay recurrences are per-symbol tracking |
| SyncVector.SafeBudgetIsSafe | src/symbol_sync/symbol_sync_avx2_fma.cpp:598-604 | a budget of hold - run - 1 lets no lane reach its hold count inside the batch |
| SyncVector.BatchBudget | src/symbol_sync/symbol_sync_avx2_fma.cpp:581-611 | a batch is taken only where it is safe, with a budget that is |
| SyncVector.TrackMasked | src/symbol_sync/symbol_sync_avx2_fma.cpp:455-473 | blended lock tracking is per-symbol tracking on the selected lanes and nothing on the others |
| SyncVector.MaskedStep | src/symbol_sync/symbol_sync_avx2_fma.cpp:491-525 | one symbol for every active lane, any mix of detectors |
| SyncVector.RunVector | src/symbol_sync/symbol_sync_avx2_fma.cpp:399-627 | batches, replays and masked steps terminate and leave every lane where the scalar loop leaves it |
| SyncStream.HistoryFits | src/symbol_sync/symbol_sync_internal.hpp:15-21 | the kept history fits its buffers and the mid-point stencil of the earliest symbol |
| SyncStream.HistoryIsLeast | src/symbol_sync/symbol_sync_common.cpp:99-100 | the history is the least multiple of four that holds half the longest symbol and eight samples; the earliest time leaves that half and four of them |
| SyncStream.PassesStop | src/symbol_sync/symbol_sync_common.cpp:219-222 | short of capacity the next symbol lies at most two samples before the end of the block |
| SyncStream.SeamPass | src/symbol_sync/symbol_sync_common.cpp:180-195 | the seam pass clamps nothing exactly if the absolute-time loop keeps to the seam, and then it is that loop |
| SyncStream.BlockPass | src/symbol_sync/symbol_sync_common.cpp:197-209 | likewise the block pass from there on |
| SyncStream.UnclampedMeans | src/symbol_sync/symbol_sync_common.cpp:137-149 | a call clamps no stencil if and only if the loop over the stream keeps to the samples its passes have |
| SyncStream.PassesAreOneLoop | src/symbol_sync/symbol_sync_common.cpp:137-149 | both passes of a call that clamps nothing are one loop over the whole stream, state and symbols, for every block length and capacity |
| SyncStream.PassesNeverClamp | src/symbol_sync/symbol_sync_common.cpp:137-149 | no stencil and no mid-point stencil of either pass is clamped while no step goes back in time |
| SyncStream.OneLoopGoesOn | include/uni_simd_typedefs.h:311-315 | as long as nothing is clamped, a further block keeps all symbols those of one loop over the stream |
| SyncStream.NothingMissing | src/symbol_sync/symbol_sync_common.cpp:147-148 | a lane that reached the limit has produced every symbol before it |
| SyncStream.CapacitySuffices | include/uni_simd_typedefs.h:321-326 | input_count / gain + 2 symbols of capacity are never filled while every step gains at least gain; with omega_min it is the documented capacity |
| SyncStream.KeptAfterKeeps | src/symbol_sync/symbol_sync_common.cpp:216-217 | the history after a block is the tail of the stream |
| SyncBounds.StreamWithin | src/symbol_sync/symbol_sync_generic.cpp:24-46 | an interpolated value exceeds the largest sample by at most a quarter, cubic or linear |
| SyncBounds.BoundedIsForward | src/symbol_sync/symbol_sync_generic.cpp:77-88 | if alpha times the largest error samples of that size can cause is at most omega_min, no step goes back in time |
| SyncBounds.BoundedCall | src/symbol_sync/symbol_sync_common.cpp:137-149 | then no call clamps a stencil, its passes are the loop over the stream, and the next call starts from such a state again |
| SyncBounds.BoundedCapacity | include/uni_simd_typedefs.h:321-326 | and the output capacity that is always enough, from the same bound |
| SyncSkip.FirstAtOrAfter | src/symbol_sync/symbol_sync_common.cpp:268-278 | coasting ends on the first grid point at or after the end |
| SyncSkip.SkipEndsInside | src/symbol_sync/symbol_sync_common.cpp:279 | after a skip the earliest-time bound plays no part |
| SyncSkip.SkipsCompose | include/uni_simd.h:153-160 | skipping twice is skipping the whole, in grid time and symbol count |
| SyncSkip.HistoriesCompose | src/symbol_sync/symbol_sync_common.cpp:261-267 | so it is in the kept history |
| SyncKernel.Kernel.constructor | src/symbol_sync/symbol_sync_common.cpp:74-110 | a fresh kernel: first symbol at time 1 with the configured omega and detector, silence before it, every loop parameter the configured one, the least history that holds the longest lane |
| SyncKernel.Initialize | src/symbol_sync/symbol_sync_common.cpp:17-35 | accepts exactly the documented ranges of omega, gains, smoothing and thresholds |
| SyncKernel.Kernel.Reset | src/symbol_sync/symbol_sync_common.cpp:131-135 | back to the first symbol at time 1, with silence before it |
| SyncKernel.Kernel.Execute | src/symbol_sync/symbol_sync_common.cpp:150-243 | rejects oversized counts unchanged; otherwise every lane is left by the two passes, its time moved up to the earliest; unclamped it is the loop over the stream; truncated if and only if the output is full and next_time < -2; time skipped if and only if the loop stopped before the earliest time |
| SyncKernel.Kernel.Skip | src/symbol_sync/symbol_sync_common.cpp:245-283 | every lane moves on by whole steps of omega to the first at or after the end, counts them, forgets its previous symbol and keeps the last samples |
| SyncKernel.SkipMeans | src/symbol_sync/symbol_sync_common.cpp:260-281 | a skip in the lane's own terms: whole steps of omega, at or after the end, by less than one step |
| SyncKernel.LaneCall | src/symbol_sync/symbol_sync_common.cpp:211-241 | one lane of a call, its whole new state and what makes it truncated or moved |
| SyncKernel.TruncationDefers | src/symbol_sync/symbol_sync_common.cpp:219-241 | a call that stopped for lack of room and one without samples after it give what one call with both rooms gives, unless the time was moved |
| SyncKernel.TruncatedSymbolComesLater | include/uni_simd_typedefs.h:321-326 | an input where the documentation drops a symbol and the next call produces it |
| SyncKernel.LaneSwitchesArePaid | src/symbol_sync/symbol_sync_common.cpp:66-72 | over all calls since the anchor detector switches are paid for in symbols |
| CostasLoop.SplitStream | src/costas_loop/costas_loop_generic.cpp:15-62 | a stream in two blocks is the stream in one, normalisation counter included |
| CostasLoop.SplitOutputs | src/costas_loop/costas_loop_generic.cpp:15-62 | and so are its outputs |
| CostasEquations.DerotatedIsConjugate | src/costas_loop/costas_loop_generic.cpp:20-25 | the output is the scaled sample times the conjugate of the oscillator |
| CostasEquations.DetectorSlope | src/costas_loop/costas_loop_generic.cpp:27-28 | on any of the four symbols turned by less than an eighth the error is twice the sine of the turn times the amplitude |
| CostasEquations.ClampedIsNearest | src/costas_loop/costas_loop_generic.cpp:29-36 | no value within the bound is nearer; a bound of zero is none |
| CostasEquations.StepPhasor | src/costas_loop/costas_loop_common.cpp:30-46 | the polynomials of a small step stay within a millionth of the unit circle and within the next Taylor term, larger steps use the library |
| CostasEquations.PolynomialPhasor | src/costas_loop/costas_loop_common.cpp:35-41 | their distance from the unit circle, exactly |
| CostasEquations.NormalizedIsUnit | src/costas_loop/costas_loop_common.cpp:19-23 | given an inverse square root, a phasor keeps its direction and gets length 1 |
| CostasEquations.LoopEquations | src/costas_loop/costas_loop_generic.cpp:27-54 | frequency moves by beta times the error as far as its limit allows, the newest step is that frequency plus alpha times the error, and the oldest pending step turns the oscillator |
| CostasEquations.FrequencyIsErrorSum | src/costas_loop/costas_loop_generic.cpp:29-37 | without a limit frequency is its start plus beta times the sum of the clipped errors of all outputs, across normalisations |
| CostasEquations.StepAfterFour | include/uni_simd_typedefs.h:176-182 | a step decided at one sample is added to the phase four samples later |
| CostasEquations.NormalizesEvery512 | src/costas_loop/costas_loop_generic.cpp:55-60 | the phase adds up the applied steps, and every 512th sample of the count takes whole turns off it, and no other |
| CostasEquations.RunIsFollowed | src/costas_loop/costas_loop_generic.cpp:15-62 | any run: first output by the starting oscillator, last error by the last output, frequency by all outputs, newest step by both |
| CostasKernel.Kernel.ProcessGeneric | src/costas_loop/costas_loop_generic.cpp:15-62 | in place, every lane and output is the specified run, normalised at every 512th sample |
| CostasKernel.RingShifts | src/costas_loop/costas_loop_avx2_fma.cpp:164-170 | overwriting the oldest ring slot and moving on by mask is shifting the queue |
| CostasKernel.FilterIsClamped | src/costas_loop/costas_loop_avx2_fma.cpp:120-136 | clamping only when some lane leaves a bound gives the clamped values on every lane |
| CostasKernel.VectorStepIsStep | src/costas_loop/costas_loop_avx2_fma.cpp:113-170 | one sample of a vector lane is one of the scalar lane |
| CostasKernel.Kernel.VectorChunk | src/costas_loop/costas_loop_avx2_fma.cpp:109-173 | a chunk never passes a normalisation |
| CostasKernel.StoreQueue | src/costas_loop/costas_loop_avx2_fma.cpp:192-198 | the ring is written back oldest first |
| CostasKernel.Kernel.ProcessVector | src/costas_loop/costas_loop_avx2_fma.cpp:57-199 | ring, chunks and lazy clamp meet the generic contract for any block length |
| CostasKernel.Kernel.Execute | src/costas_loop/costas_loop_common.cpp:131-171 | blocks with a negative limit or a gain that is not positive change nothing; otherwise either backend leaves every lane and output by the run from the overridden frequency, and by the configured gains: frequency is the start plus beta times the errors of the outputs, the newest step that plus alpha times the last error; the counter is taken modulo 512 |
| CostasKernel.InitialAtStart | src/costas_loop/costas_loop_common.cpp:91-103 | a fresh lane: the configured phase brought into one turn, its cosine and sine, the configured frequency, four steps that turn nothing |
| CostasKernel.Initialize | src/costas_loop/costas_loop_common.cpp:52-65 | accepts exactly clips that are not negative |
| CostasKernel.Kernel.Skip | src/costas_loop/costas_loop_common.cpp:182-217 | the loops over pending steps and queue slots leave every lane as coasting sample by sample leaves it, whole turns aside, its phase within half a turn, its oscillator rebuilt and its last error forgotten |
| CostasKernel.Kernel.Rotate | src/costas_loop/costas_loop_common.cpp:219-236 | every lane becomes the same lane with its oscillator turned by the requested quarters and its phase within half a turn |
| CostasRotation.WrappedApart | src/costas_loop/costas_loop_common.cpp:12-17 | wrapping a phase takes off whole turns and ends above -pi and not above pi |
| CostasRotation.DetectorIsBlind | src/costas_loop/costas_loop_generic.cpp:27-28 | for each number of quarters, the detector ignores the turn exactly on the samples that tolerate it, and sees the opposite error on all others |
| CostasRotation.QuarterShows | src/costas_loop/costas_loop_generic.cpp:27-28 | an input where a quarter turn shows: the error changes sign |
| CostasRotation.StepTurns | src/costas_loop/costas_loop_generic.cpp:18-54 | a step of a turned lane turns its output back, and is the turned step with the same error if and only if the sample tolerates the turn |
| CostasRotation.NormalizedTurns | src/costas_loop/costas_loop_common.cpp:12-28 | normalisation commutes with quarter turns, phasor rebuilt or not |
| CostasRotation.RunTurns | include/uni_simd.h:172-177 | a later run of a turned lane keeps its errors if and only if every output tolerates the turn, and then keeps frequencies and pending steps and multiplies each output by (-i)^k |
| CostasSkip.SkipIsCoasting | src/costas_loop/costas_loop_common.cpp:189-212 | the closed form of a skip is coasting sample by sample |
| CostasSkip.SkipsCompose | src/costas_loop/costas_loop_common.cpp:182-217 | skipping twice is skipping once, whole turns of the phase aside |
| CostasSkip.SkipKeepsFrequency | src/costas_loop/costas_loop_common.cpp:182-217 | an input where they differ: the frequency stays beyond the limit |
| CostasSkip.SkipIsSilence | include/uni_simd.h:163-169 | a skip leaves phase, frequency and pending steps where as many samples without detector error leave them, whole turns aside, if and only if nothing is skipped or the frequency is inside the limit |

## Left out

- Rounding, NaN and infinity: the models are exact, so trigonometric accuracy, table snapping and the restart of a synchronizer lane poisoned by a non-finite sample are not modelled.
- Signed zeros: a zero has no sign here, so sign transfers treat it as positive; with signed zeros a turned zero carries its sign along.
- CostasRotation.RunTurns: the condition on zero components comes from modelling zeros without a sign.
- ComplexNumbers.CircleTableIsRoots: sine and cosine are parameters; their addition theorem is asked for, not proved.
- Caller buffers: the channelizer returns outputs hop by hop as sequences and the synchronizer returns them per lane; interleaved float layout, alignment and overlap checks are not modelled. The Viterbi decisions, the transforms and the Costas samples are written in place.
- CostasKernel.Kernel.Execute: the four channel buffers are the rows of one two-dimensional array, so separate allocations and the overlap check are not modelled.
- SyncKernel.Kernel.Execute: state and history live in arrays, segments and outputs are sequences; the pointers into seam and block are not modelled.
- PfbWide.AccumulateEight: one of the I and Q accumulations, which run the same code on two histories.
- PfbBatched.ProcessBatch: filters each queued hop by the generic hop; the accumulations of the 4-, 16- and 32-bin vector batches are the same sums in other registers.
- Taking over the state of another kernel: assignments of fields that are already determined by the stream.
- Backend selection, CPU detection, descriptor sizes and the C interface around the kernels.
- Byte primitives, dot products, power spectra, quantisation and the carrier analyzer.
- The NEON files: the streaming and radix-2 structure of the modelled forms.
