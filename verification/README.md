# Verification of the camera firmware's core logic

Dafny models and proofs for the parts of a battery camera's firmware where an argument over all inputs or all runs is
needed. Each component has a specification on values, the code's own imperative form proved against it, and theorems
about the specification.

* **G.722 codec** (`G722*.dfy`, `Streams.dfy`): encoder and decoder objects with their in-place band state, filters and
  bit registers. Main results: `G722Coder.Lockstep`, `G722Link.ConnectedCodersAgree`, `G722Fidelity.Fidelity`,
  `G722Packing.PackedRoundTrip` and `UnpackCount`, `G722Mirror.SamplesOnlyDelay` (the filter pairs undo each other),
  `G722Ideal.AdaptFollowsEquations` (the adaptation against sections 3.5 and 3.6 of ITU-T G.722). Right shifts of signed
  values are floor division; every local of the code is a 32-bit subset type, so that verification shows that no product
  or sum overflows.
* **FLV recorder** (`Flv*.dfy`, `MemFile.dfy`): tag writer, tag parsers, start-code scanner, the ping-pong hand-over of
  two threads interleaved step by step, the recording loop and the memory file. Main results:
  `FlvRecorder.EveryFileIsShaped`, `FlvLength.RecordingsAreMeasured`, `FlvHandover.StepKeeps`,
  `FlvFate.EveryPacketHasOneFate`, `FlvNal.ScanMeetsUnits`, `FlvTag.TagsComeBack`, `FlvParse.ScanIsLongestWhole`. The
  layout of tags is section E.4.1 of Adobe's Video File Format Specification 10.1, the byte stream is section B.1 of
  ITU-T H.264 Annex B.
* **Selective-repeat transfer** (`Arq*.dfy`): the sender with its records, and runs over a channel that may lose, delay,
  repeat and reorder, with a receiver that acknowledges only what it has. Main results: `ArqChannel.KnowledgeIsSound`,
  `ArqChannel.RunsAreSpaced`, `ArqChannel.OffExactlyWhen`, `ArqSweep.BurstSweeps`.
* **Firmware upgrade** (`Md5*.dfy`, `Upgrade*.dfy`): streaming MD5 against sections 3.1 to 3.5 of RFC 1321, the
  receive/verify/burn machine, and the flag protocol at every moment of the three writes. Main results:
  `Md5.Context.Final`, `Md5.ValidateBin`, `Md5Suite.SuiteDigest`, `UpgradeFlash.BurnIsCrashSafe`, `UpgradeRuns.RunsAreSafe`,
  `UpgradeRuns.PiecesArrive`.
* **Containers** (`RingBuffers.dfy`, `CircularList.dfy`): the two byte queues and the intrusive circular list.

`CInt.dfy`, `BigEndian.dfy`, `Memory.dfy`, `Sequences.dfy` and `Options.dfy` hold C integers, byte order, `memcpy`,
slices and optional values.
`dafny verify dfyconfig.toml` verifies all of it, in a few minutes at most.

## Where the code and its comments or expectations part

* The packed decoder stops when the bytes run out, even if a whole code waits in its register (`G722Packing.UnpackCount`
  says exactly when).
* The range the frame scan gives a sequence parameter set includes whatever stands before the picture parameter set
  (`FlvNal.AccessUnit`). A parameter set of either kind that ends a frame without a slice takes over the length of the
  last one of its kind, which can be too long: `FlvRanges.RangesInsideExactlyWhen` says exactly when,
  `FlvRanges.ShorterSetOverruns` shows a frame.
* `max_dur` limits the duration reported, not the data written (`FlvParse.LimitDoesNotTrim`).
* `FLVMuxerHeaderGet` appends one more header tag at every call (`FlvMux.Muxer.HeaderGet`), so that the second file has two.
* A memory file that fills its buffer exactly is taken for one being written when it is opened for reading again
  (`MemFile.ReopeningKeepsPosition`).
* A repetition of the last packet of a transfer is not noted, so that the 1300 ticks between transmissions hold for all
  packets but that one (`ArqRuns.LastPacketRepeats`, `ArqRuns.LastPacketTooSoon`). A tick count of 0 is taken for "never
  sent" (`ArqRuns.DueExactlyWhen`, `ArqRuns.ZeroTickTooSoon`), and as long as every progress was at such a time,
  silence does not end a transfer (`ArqChannel.OffExactlyWhen`).
* A partition write that returns -1 counts as done (`UpgradeFlash.SafeExactlyWhen`, `UpgradeFlash.UnnoticedFailureBreaks`).
* An upgrade image that arrives in one packet is never verified (`UpgradeRuns.PiecesArrive`).
* A character that is no hexadecimal digit is taken for F in a digest (`Upgrade.OtherCharactersAreF`).
* `MD5Final` wipes as many bytes as a pointer has, not the context (`Md5.Context.Final`).

## Model

| member | source | states |
|---|---|---|
| `G722Coder.Lockstep` | baterycam/platform/apps/audio/g722_decode.c:280-363 | For every input stream and every rate, from equal states: after the decoder has read the encoder's codes its low band equals the encoder's field by field, and its high band too when both agree on the 8 kHz option. |
| `G722Coder.EmbeddedIndices` | baterycam/platform/apps/audio/g722_encode.c:320-378 | What adaptation uses, the four upper low-band bits and the two high-band bits, is read back from the code after the rate shift at every rate; the code has as many bits as the rate. |
| `G722Coder.SameStep` | baterycam/platform/apps/audio/g722_decode.c:280-363 | One sample through the encoder and its code through the decoder take equal states to equal states. |
| `G722Coder.LowCodeRange` | baterycam/platform/apps/audio/g722_encode.c:306-318 | A low-band code is a 6-bit number and never one of 0 to 3. |
| `G722Coder.CodeFitsRate` | baterycam/platform/apps/audio/g722_encode.c:345-378 | A code fits the bits of its rate. |
| `G722Coder.AdaptLowOk` | baterycam/platform/apps/audio/g722_encode.c:320-340 | Adapting the low band keeps `nb` in 0..18432, `det` the table function of it, the poles in the stability triangle and every sample in 16 bits. |
| `G722Coder.AdaptHighOk` | baterycam/platform/apps/audio/g722_encode.c:358-377 | The same for the high band with 0..22528. |
| `G722Band.AdaptOk` | baterycam/platform/apps/audio/g722_encode.c:64-150 | Block 4 keeps a2 within 12288 of zero, a1 within 15360 - a2 of zero, and everything else in 16 bits. |
| `G722Band.PolesStayOk` | baterycam/platform/apps/audio/g722_encode.c:78-105 | The new pole coefficients lie in the stability triangle for any history. |
| `G722Band.ZeroTapNeverClips` | baterycam/platform/apps/audio/g722_encode.c:107-116 | The saturation in UPZERO never clips a reachable coefficient. |
| `G722Band.SaturateByCast` | baterycam/platform/apps/audio/g722_encode.c:51-61 | The test by a cast to 16 bits is saturation. |
| `G722Band.ScaleMonotone` | baterycam/platform/apps/audio/g722_encode.c:334-338 | `det` grows with `nb` and lies in 32..16384 in the low and 8..16384 in the high band. |
| `G722Fidelity.CellIsUnique` | baterycam/platform/apps/audio/g722_encode.c:309-317 | The linear search ends at the one cell of the decision levels that holds the magnitude of the prediction error. |
| `G722Fidelity.LevelsFit` | baterycam/platform/apps/audio/g722_decode.c:280-304 | The output level of every code outside overload has the sign of the error and lies inside the cell, or the merged cell at 56 and 48 kbit/s; at 48 kbit/s the two smallest cells have level zero. |
| `G722Fidelity.QuantiserError` | baterycam/platform/apps/audio/g722_decode.c:280-304 | Outside overload the low-band reconstruction differs from the prediction error by at most the width of the cell, merged at 56 and 48 kbit/s, and is on the same side of zero. |
| `G722Fidelity.HighError` | baterycam/platform/apps/audio/g722_encode.c:349-360 | In the inner cells the high-band reconstruction is within the decision level of the error. |
| `G722Fidelity.Fidelity` | baterycam/platform/apps/audio/g722_decode.c:280-344 | At every position of every stream, at every rate, the decoded low-band sample is within one merged quantiser cell, and the high-band sample within the inner cell, of the sample coded there, outside overload and limiting. |
| `G722Fidelity.LowCodeSides` | baterycam/platform/apps/audio/g722_decode.c:280-304 | In every cell, that of overload included, the level heard has the sign of the error. |
| `G722Fidelity.OverloadLevels` | baterycam/platform/apps/audio/g722_decode.c:280-304 | In overload it is the outermost level of the rate. |
| `G722Fidelity.HighCodeSides` | baterycam/platform/apps/audio/g722_encode.c:349-360 | The high band is heard on the side of the error, at the outer level if and only if the error is in the outer cell. |
| `G722Ideal.ZeroStepIsEquation` | baterycam/platform/apps/audio/g722_encode.c:107-116 | UPZERO is the sign-sign equation of the standard, rounded down: leak by 1/256, push by 128 towards the agreement of the signs of the difference and the past difference. |
| `G722Ideal.PushFollowsSigns` | baterycam/platform/apps/audio/g722_encode.c:107-116 | The push has the sign of the product of both differences and is 128 unless the current one is zero. |
| `G722Ideal.PoleOneIsEquation` | baterycam/platform/apps/audio/g722_encode.c:94-105 | UPPOL1 is the equation of the standard within one unit, limited by the second pole. |
| `G722Ideal.PoleTwoIsEquation` | baterycam/platform/apps/audio/g722_encode.c:78-92 | UPPOL2 is the equation of the standard, with its term for the first pole, within little more than two units. |
| `G722Ideal.PoleSectionIsEquation` | baterycam/platform/apps/audio/g722_encode.c:131-137 | The pole section predicts the two coefficients times the two last reconstructed samples. |
| `G722Ideal.ZeroSumIsEquation` | baterycam/platform/apps/audio/g722_encode.c:139-146 | The zero section predicts the six coefficients times the six last differences. |
| `G722Ideal.AdaptFollowsEquations` | baterycam/platform/apps/audio/g722_encode.c:64-150 | For any reachable state all eight coefficients after block 4 are those of the equations, rounded and limited. |
| `G722Ideal.LinesHoldHistory` | baterycam/platform/apps/audio/g722_encode.c:118-130 | In any run of adaptations, k places back stand the difference of k steps ago, and the signal and the partial signal it reconstructed. |
| `G722Ideal.LowBandMovesLines` | baterycam/platform/apps/audio/g722_encode.c:320-343 | A low-band code moves the lines on by the difference at the step size before it. |
| `G722Ideal.HighBandMovesLines` | baterycam/platform/apps/audio/g722_encode.c:358-377 | A high-band code does the same. |
| `G722Ideal.ZeroSectionFollows` | baterycam/platform/apps/audio/g722_encode.c:107-146 | The zero taps are moved so that their prediction from the same past goes towards the difference that showed. |
| `G722Ideal.NextNbIsEquation` | baterycam/platform/apps/audio/g722_encode.c:325-332 | The logarithm of the step size leaks by 1/128, takes in the step of the code, and stays within its limits. |
| `G722Ideal.LowStepGrowsWithLevel` | baterycam/platform/apps/audio/g722_encode.c:323-326 | The farther out the level, the larger the step size becomes; the innermost levels make it smaller. |
| `G722Ideal.HighStepGrowsWithLevel` | baterycam/platform/apps/audio/g722_encode.c:361-366 | The outer level makes the step size larger, the inner one smaller. |
| `G722Ideal.MantissasAreGeometric` | baterycam/platform/apps/audio/g722_encode.c:334-338 | The mantissas grow by one ratio, 32 of them to the octave, rounding aside. |
| `G722Ideal.ScaleDoubles` | baterycam/platform/apps/audio/g722_encode.c:334-338 | An octave more doubles the step size. |
| `G722BandState.BandState.Block4` | baterycam/platform/apps/audio/g722_encode.c:64-150 | The in-place block 4, in 32-bit arithmetic throughout and in both orders of summing UPPOL2, makes the band exactly the specified update of it. |
| `G722BandState.BandState.Uppol2Encoder` | baterycam/platform/apps/audio/g722_encode.c:78-92 | UPPOL2 in the encoder's order of additions computes the specified second pole without leaving 32 bits. |
| `G722BandState.BandState.Uppol2Decoder` | baterycam/platform/apps/audio/g722_decode.c:79-94 | The decoder's order gives the same. |
| `G722BandState.BandState.Upzero` | baterycam/platform/apps/audio/g722_encode.c:107-116 | The loop over the taps computes the specified zero coefficients. |
| `G722BandState.BandState.Delaya` | baterycam/platform/apps/audio/g722_encode.c:118-130 | The shifting loops make the specified delay lines. |
| `G722BandState.BandState.Filtez` | baterycam/platform/apps/audio/g722_encode.c:139-146 | The accumulator of the zero section stays in 32 bits and is the specified sum. |
| `G722BandState.BandState.LogScaleEncoder` | baterycam/platform/apps/audio/g722_encode.c:325-332 | The leaky logarithmic step, limited at both ends. |
| `G722BandState.BandState.LogScaleDecoder` | baterycam/platform/apps/audio/g722_decode.c:315-323 | The decoder's way of writing it gives the same step. |
| `G722BandState.BandState.Antilog` | baterycam/platform/apps/audio/g722_encode.c:334-338 | `det` becomes the table function of `nb`; every table index is in range. |
| `G722Filter.SumsFit` | baterycam/platform/apps/audio/g722_encode.c:294-303 | Neither filter accumulator, for any delay line, leaves 32 bits. |
| `G722Filter.Accumulate` | baterycam/platform/apps/audio/g722_decode.c:384-390 | The multiply-accumulate loop computes both sums in 32-bit arithmetic. |
| `G722Filter.ShiftIn` | baterycam/platform/apps/audio/g722_encode.c:287-292 | The in-place shuffle drops the two oldest samples and appends two. |
| `G722Mirror.SplitIsConvolution` | baterycam/platform/apps/audio/g722_encode.c:285-304 | The low-band sample is the convolution of the last 24 samples with a symmetric low-pass prototype, the high-band sample that with its mirror image. |
| `G722Mirror.ConstantIsLow` | baterycam/platform/apps/audio/g722_encode.c:285-304 | A constant signal is in the low band only, at half its value. |
| `G722Mirror.AlternatingIsHigh` | baterycam/platform/apps/audio/g722_encode.c:285-304 | An alternating signal is in the high band only. |
| `G722Mirror.SteadyBandsJoin` | baterycam/platform/apps/audio/g722_decode.c:376-390 | Steady bands give a steady signal, in which the high band alternates. |
| `G722Mirror.FiltersOnlyDelay` | baterycam/platform/apps/audio/g722_decode.c:376-390 | Transmit and receive filters one after the other delay any stream by eleven frames and change a sample by at most a 413th of the loudest of the 23 frames it depends on, and 7. |
| `G722Mirror.SamplesOnlyDelay` | baterycam/platform/apps/audio/g722_decode.c:376-390 | The same sample by sample: what is put out is what was put in 22 samples before, in order. |
| `G722Mirror.UnfilteredSamples` | baterycam/platform/apps/audio/g722_encode.c:272-284 | Without the filters a sample comes back with its lowest bit cleared. |
| `G722Encoder.EncoderState.constructor` | baterycam/platform/apps/audio/g722_encode.c:153-176 | A new encoder has the stated rate, options and smallest step sizes. |
| `G722Encoder.EncoderState.Search` | baterycam/platform/apps/audio/g722_encode.c:309-317 | The search loop returns the specified cell. |
| `G722Encoder.EncoderState.EncodePair` | baterycam/platform/apps/audio/g722_encode.c:306-379 | Both bands of one frame: the state and the code are those of one encoder step. |
| `G722Encoder.EncoderState.Emit` | baterycam/platform/apps/audio/g722_encode.c:381-397 | One code is appended to the output, packed into the bit register or as a byte. |
| `G722Encoder.EncoderState.Encode` | baterycam/platform/apps/audio/g722_encode.c:272-399 | A call on any block of samples leaves the state and writes the bytes of the specified coding loop run over the block. |
| `G722Decoder.DecoderState.Unpick` | baterycam/platform/apps/audio/g722_decode.c:280-300 | The switch over the rate yields the adaptation index, the high-band index and the output level. |
| `G722Decoder.DecoderState.DecodePair` | baterycam/platform/apps/audio/g722_decode.c:280-363 | The state and the limited band pair are those of one decoder step. |
| `G722Decoder.DecoderState.NextCode` | baterycam/platform/apps/audio/g722_decode.c:263-278 | Taking a code refills the register when it runs low and leaves exactly the codes that follow; 8 times the bytes left plus the bits held falls. |
| `G722Decoder.DecoderState.Decode` | baterycam/platform/apps/audio/g722_decode.c:261-396 | A call on any bytes takes the specified codes, ends, and leaves the state and writes the samples of the specified decoding loop run over them. |
| `G722Packing.PackKeepsBits` | baterycam/platform/apps/audio/g722_encode.c:381-392 | Packed bytes followed by the register are the codes' bits, in order. |
| `G722Packing.UnpackKeepsBits` | baterycam/platform/apps/audio/g722_decode.c:263-274 | Decoded codes followed by the register are the bytes' bits, in order. |
| `G722Packing.UnpackCount` | baterycam/platform/apps/audio/g722_decode.c:261-274 | A call yields every complete code if and only if the bits it had, modulo the code width n, are at least 8 - n; otherwise it is exactly one short. |
| `G722Packing.UnpackOneShort` | baterycam/platform/apps/audio/g722_decode.c:261-274 | Three bytes at 6 bits: three codes instead of four. |
| `G722Packing.UnpackConcat` | baterycam/platform/apps/audio/g722_decode.c:261-274 | Unpacking in several calls is unpacking in one. |
| `G722Packing.PackConcat` | baterycam/platform/apps/audio/g722_encode.c:381-392 | Packing in several calls is packing in one. |
| `G722Packing.PackedRoundTrip` | baterycam/platform/apps/audio/g722_decode.c:263-274 | What the decoder reads is a prefix of what the encoder packed, at most two codes short, and the missing codes are exactly the bits in both registers. |
| `G722Link.SendIsPipeline` | baterycam/platform/apps/audio/g722_encode.c:272-397 | The coding loop is the transmit filter, the coder and the packer run one after the other over the whole block. |
| `G722Link.ConnectedCodersAgree` | baterycam/platform/apps/audio/g722_decode.c:261-396 | Encoder and decoder joined by nothing but the bytes, packed or not: the decoder hears all codes but at most two, and its bands are those the encoder had after the codes heard. |
| `G722Link.AsManySamples` | baterycam/platform/apps/audio/g722_decode.c:365-396 | As many samples are heard as were sent, for every block with whole frames; in test mode both bands of every sample. |
| `G722Link.EncoderCallsCompose` | baterycam/platform/apps/audio/g722_encode.c:186-399 | Two calls of the encoder are one call on both blocks. |
| `G722Link.DecoderCallsCompose` | baterycam/platform/apps/audio/g722_decode.c:187-397 | Two calls of the decoder are one call on both blocks, whatever the register holds in between. |
| `FlvNal.ParseFrame` | baterycam/platform/apps/flv_recorder/mux.c:202-275 | The scanning loop and its two shortcuts return the specified frame information. |
| `FlvNal.ScanMeetsUnits` | baterycam/platform/apps/flv_recorder/mux.c:230-270 | On a byte stream of any number of units without inner start codes the scan meets exactly the units, at their boundaries. |
| `FlvNal.AccessUnit` | baterycam/platform/apps/flv_recorder/mux.c:208-272 | For a sequence parameter set, other units, a picture parameter set and a slice the exact ranges and flags; the other units count as part of the first range. |
| `FlvNal.KeyIffFirstSliceIsIdr` | baterycam/platform/apps/flv_recorder/mux.c:208-265 | A frame is flagged as key if and only if its first slice is an IDR slice. |
| `FlvRanges.RangesInsideExactlyWhen` | baterycam/platform/apps/flv_recorder/mux.c:230-270 | On every frame of five bytes or more: the ranges lie inside it if and only if it has a slice, or does not end with a parameter set, or that set is at least as long as the stretch of the last one of its kind before it. |
| `FlvRanges.UnitsInsideExactlyWhen` | baterycam/platform/apps/flv_recorder/mux.c:230-270 | The same on the units of any clean byte stream, by their types and sizes. |
| `FlvRanges.ShorterSetOverruns` | baterycam/platform/apps/flv_recorder/mux.c:236-246 | A frame of thirteen bytes, two picture parameter sets of which the second is shorter: its range ends one byte outside. |
| `FlvMux.CheckIsSize` | baterycam/platform/apps/flv_recorder/mux.c:109-132 | The packet check passes on a tag if and only if its body is shorter than 2^24. |
| `FlvMux.Muxer.FillVideo` | baterycam/platform/apps/flv_recorder/mux.c:445-587 | A frame becomes the bytes of one video tag with the right stamp and key mark, or none exactly when it is too short, too long for the buffer or for the format; a parameter set found is kept unless it is empty or too long, and then the one from before stays. |
| `FlvMux.Muxer.FillAudio` | baterycam/platform/apps/flv_recorder/mux.c:605-684 | Samples become the bytes of one audio tag with one companded byte for each sample, or none in the same cases. |
| `FlvMux.Muxer.TakeStamp` | baterycam/platform/apps/flv_recorder/mux.c:511-541 | Stamps are relative to the first time seen; the clock is used without a time, and starts anew past 0xEFFFFFFF. |
| `FlvMux.Muxer.StoreParameterSets` | baterycam/platform/apps/flv_recorder/mux.c:466-489 | Of each kind the range found is kept, unless it is empty or longer than the store; otherwise the set from before. |
| `FlvMux.CopiesInsideExactlyWhen` | baterycam/platform/apps/flv_recorder/mux.c:466-489 | On every frame of five bytes or more: what is copied into the stores lies inside it if and only if no set overruns it, or the length taken over is too long to be kept. |
| `FlvMux.OtherTagsAreNotKeys` | baterycam/platform/apps/flv_recorder/mux.c:546-563 | Tags of samples never read as key frames; header tags always do. |
| `FlvMux.Muxer.HeaderGet` | baterycam/platform/apps/flv_recorder/mux.c:411-431 | Every call appends one more AVC header tag with the current parameter sets. |
| `FlvMux.StampsKeepDistances` | baterycam/platform/apps/flv_recorder/mux.c:511-522 | Stamps made from callers' times are as far apart as the times, modulo 2^32. |
| `FlvBody.StampCountsFromBase` | baterycam/platform/apps/flv_recorder/mux.c:503-529 | Base and stamp make the time now, the caller's or the clock's; the base is set to the first time seen and stays, until the clock runs past the limit and both start anew, which alone is told as a reset. |
| `FlvBody.RestartExactlyWhen` | baterycam/platform/apps/flv_recorder/mux.c:515-522 | Stamps by the clock start anew if and only if it is more than 0xEFFFFFFF past the base, modulo 2^32. |
| `FlvBody.StampsCountFromFirst` | baterycam/platform/apps/flv_recorder/mux.c:503-513 | A muxer whose callers give the time stamps every packet with the time since the first one, which gets 0. |
| `FlvBody.FrameComesBack` | baterycam/platform/apps/flv_recorder/mux.c:546-577 | A player reads a frame tag as AVC units of a key or an inter frame with the frame as its data. |
| `FlvBody.SetsComeBack` | baterycam/platform/apps/flv_recorder/mux.c:411-431 | A player reads a header tag as the AVC sequence header of both sets. |
| `FlvBody.SoundComesBack` | baterycam/platform/apps/flv_recorder/mux.c:664-674 | A player reads an audio tag as A-law in mono, a byte a sample, in order. |
| `FlvBody.TagExample` | baterycam/platform/apps/flv_recorder/mux.c:533-577 | The bytes of one tag, in the order the format prescribes. |
| `FlvBody.HeaderCarriesSets` | baterycam/platform/apps/flv_recorder/mux.c:230-270 | The scan finds both sets in the payload of a header, where they stand. |
| `FlvBody.AccessUnitKeepsSets` | baterycam/platform/apps/flv_recorder/mux.c:466-489 | After an access unit of both sets and a slice the muxer holds both, unless too long. |
| `FlvMux.KeyTagIffIdr` | baterycam/platform/apps/flv_recorder/mux.c:546-563 | A video tag reads as a key frame if and only if the first slice of its frame is IDR. |
| `FlvTag.TagsComeBack` | baterycam/platform/apps/flv_recorder/mux.c:533-577 | Reading the bytes of any tags gives back the tags: boundaries, types, 32-bit stamps and bodies. |
| `FlvTag.BytesDetermineTags` | baterycam/platform/apps/flv_recorder/mux.c:533-577 | Different tag streams have different bytes. |
| `FlvParse.IFrameSearch` | baterycam/platform/apps/flv_recorder/flv_pp_buff.c:133-182 | The search loop returns the specified position of the first key-frame tag. |
| `FlvParse.SearchFindsFirstKey` | baterycam/platform/apps/flv_recorder/flv_pp_buff.c:150-181 | On whole tags the search answers with the first key-frame tag, or with nothing if and only if there is none; the tags before and from it on are the two parts. |
| `FlvParse.DurationGet` | baterycam/platform/apps/flv_recorder/flv_pp_buff.c:213-275 | The scan returns the specified duration, size, count and first stamp. |
| `FlvParse.ScanIsLongestWhole` | baterycam/platform/apps/flv_recorder/flv_pp_buff.c:233-263 | On any bytes, without a limit, the size reported is that of the longest stretch of well-sealed tags. |
| `FlvParse.MeasureOfTags` | baterycam/platform/apps/flv_recorder/flv_pp_buff.c:231-274 | On whole tags the size is never cut; without a limit the duration is last minus first stamp and every video tag is counted. |
| `FlvParse.LimitDoesNotTrim` | baterycam/platform/apps/flv_recorder/flv_pp_buff.c:265-274 | With a limit the duration stops at the first tag that reaches it, but the size stays that of all tags. |
| `FlvBuffers.PingPong.PrepareSize` | baterycam/platform/apps/flv_recorder/flv_pp_buff.c:285-323 | The write buffer is handed over exactly when there is no room or three seconds are recorded. |
| `FlvBuffers.SwitchExactlyWhen` | baterycam/platform/apps/flv_recorder/flv_pp_buff.c:285-310 | A buffer of whole tags is handed over if and only if there is no room or its first and last stamp are three seconds or more apart; an empty one with room never is. |
| `FlvBuffers.PingPong.PushData` | baterycam/platform/apps/flv_recorder/flv_pp_buff.c:387-402 | A push is preparation, copy and count, in that order. |
| `FlvBuffers.PingPong.FlushToFile` | baterycam/platform/apps/flv_recorder/flv_pp_buff.c:416-488 | A flush fetches what is ready, selects from the first key frame if asked, writes all or nothing and clears; it reports the duration, the number of video tags and, unless the scan stopped early, the first time stamp. |
| `FlvBuffers.PingPong.ResetAll` | baterycam/platform/apps/flv_recorder/flv_pp_buff.c:540-567 | All three buffers are emptied and the read flag is set. |
| `FlvHandover.StepKeeps` | baterycam/platform/apps/flv_recorder/flv_pp_buff.c:285-488 | Every step of either thread, at the grain of single bytes copied, keeps: the write buffer is not the read buffer, buffers hold whole pushed packets, order, and the bytes the consumer relies on. |
| `FlvHandover.ThreadsDoNotMeet` | baterycam/platform/apps/flv_recorder/flv_pp_buff.c:387-488 | The producer never touches the buffer being read or the temporary bytes, the consumer never the others; the write position is never the read position. |
| `FlvHandover.WrittenIsPackets` | baterycam/platform/apps/flv_recorder/flv_pp_buff.c:453-483 | What a flush gives to the file is whole packets as pushed, from a key frame if one was asked for, even if a reset comes during the search. |
| `FlvHandover.ReportedDuration` | baterycam/platform/apps/flv_recorder/flv_pp_buff.c:464-472 | What is reported of the packets written is the time from the first to the last, or with a limit to the first that reaches it. |
| `FlvHandover.LookKeeps` | baterycam/platform/apps/flv_recorder/flv_pp_buff.c:444-462 | The unlocked search leaves the consumer at the start of a packet. |
| `FlvFate.StepFate` | baterycam/platform/apps/flv_recorder/flv_pp_buff.c:285-488 | For every packet and every step of either thread: the step loses it if and only if it was waiting and is then neither waiting nor written. The losing steps are a switch (without room or after three seconds) before the packet was read, a reset, fetching over it, skipping it to a key frame that is there, a reset noticed after the search, and a refused write; a lost packet never comes back, and no step adds one but its own publication. |
| `FlvFate.EveryPacketHasOneFate` | baterycam/platform/apps/flv_recorder/flv_pp_buff.c:285-488 | Conservation over every run of both threads: each packet pushed waits, has been written, or has been lost at exactly one step, and no two of these; a packet not pushed is none of them. |
| `FlvEngine.PushIsLast` | baterycam/platform/apps/flv_recorder/flv_pp_buff.c:387-402 | A packet that fits an empty buffer can always be pushed and is then the last whole packet of the write buffer; the packets before it stay together until there is no room or three seconds are recorded, and are then in the buffer to read. |
| `FlvEngine.Engine.PushVideo` | baterycam/platform/apps/flv_recorder/flv_engine.c:122-144 | A frame becomes the last whole packet of the write buffer behind those before it, which stay together until there is no room or three seconds are recorded; or nothing changes, exactly when the muxer makes none; when the time base starts anew all buffers are emptied first, and whether it does is stated. |
| `FlvEngine.Engine.PushAudio` | baterycam/platform/apps/flv_recorder/flv_engine.c:91-111 | The same for samples. |
| `FlvEngine.Engine.WriteHeader` | baterycam/platform/apps/flv_recorder/flv_engine.c:197-214 | The preamble and then all header tags made so far are written, the result of the first write ignored. |
| `FlvEngine.Engine.WriteToFile` | baterycam/platform/apps/flv_recorder/flv_engine.c:154-160 | A flush; the write buffer and its packets are left alone. |
| `FlvAlone.PushIsItsSteps` | baterycam/platform/apps/flv_recorder/flv_pp_buff.c:387-402 | Without interference the producer's steps are the push of the buffer object. |
| `FlvAlone.FetchIsItsSteps` | baterycam/platform/apps/flv_recorder/flv_pp_buff.c:428-446 | Without interference the locked copy is the fetch of the buffer object. |
| `FlvAlone.FlushIsItsSteps` | baterycam/platform/apps/flv_recorder/flv_pp_buff.c:444-488 | Without interference the unlocked steps are the rest of the flush. |
| `FlvRecorder.PreambleIsTag` | baterycam/platform/apps/flv_recorder/flv_header.c:28-66 | The 365 constant bytes are the FLV header and one well-formed script tag. |
| `FlvRecorder.NextKeeps` | baterycam/platform/apps/flv_recorder/rec.c:85-123 | Every step of the recorder and of both threads keeps the shape of the file and of the recorder's variables. |
| `FlvRecorder.EveryFileIsShaped` | baterycam/platform/apps/flv_recorder/rec.c:66-145 | After any run a recorded file is the FLV header, the script tag, the AVC header tags of the parameter sets stored so far, and pushed packets in push order, each at most once over all recordings, the first a key frame; reading it back gives these tags. A recording that has counted anything goes on only below the length asked for. |
| `FlvLength.RecordingsAreMeasured` | baterycam/platform/apps/flv_recorder/rec.c:84-123 | After any run, and whenever no flush is under way, the packets of the recording are those of its flushes one after the other, and the length counted is the total of theirs: each the time from its first packet to its last, or to the first that reaches what is left of the length asked for, and nothing if time runs backwards. |
| `FlvLength.GoesOnExactlyWhen` | baterycam/platform/apps/flv_recorder/rec.c:104-123 | After a flush the recording goes on if and only if the flush was no error, the clock does not stop it, and the total of the flushes is still below the length asked for. |
| `FlvRecorder.StartsSound` | baterycam/platform/apps/flv_recorder/rec.c:56-82 | Runs may begin with new buffers of any size and no file. |
| `FlvRecorder.HeaderKeeps` | baterycam/platform/apps/flv_recorder/flv_engine.c:197-214 | On a new file the preamble and all header tags fit and are written. |
| `FlvRecorder.FileWrittenKeeps` | baterycam/platform/apps/flv_recorder/flv_engine.c:154-160 | A flush appends whole packets or, out of space, nothing. |
| `MemFile.MemoryFile.FOpen` | baterycam/platform/apps/flv_recorder/file_on_mem.c:9-41 | Opening as specified for each mode. |
| `MemFile.MemoryFile.FWrite` | baterycam/platform/apps/flv_recorder/file_on_mem.c:43-56 | All elements or none, at the current position. |
| `MemFile.MemoryFile.FRead` | baterycam/platform/apps/flv_recorder/file_on_mem.c:63-82 | As many bytes as are left, of which whole elements are counted, and the rest of the target unchanged. |
| `MemFile.MemoryFile.FErase` | baterycam/platform/apps/flv_recorder/file_on_mem.c:96-101 | Only the name is taken away, and only from a buffer in use. |
| `MemFile.RoundTrip` | baterycam/platform/apps/flv_recorder/file_on_mem.c:9-86 | Any blocks written to a new file, then read in any pieces, give back what was accepted; writing is refused until it is erased. |
| `MemFile.ReopeningKeepsPosition` | baterycam/platform/apps/flv_recorder/file_on_mem.c:20-26 | Opening for reading once more keeps the position if and only if the file does not fill the buffer exactly. |
| `Md5Operation.F1IsF` | baterycam/platform/apps/fwupgrade/md5.c:158-159 | The shortened first function is the one of the standard. |
| `Md5Operation.F2IsG` | baterycam/platform/apps/fwupgrade/md5.c:160 | So is the second, made from the first. |
| `Md5Operation.ProcessIsMix` | baterycam/platform/apps/fwupgrade/md5.c:165-166 | The step macro is the standard's operation. |
| `Md5Operation.RotatedMovesUp` | baterycam/platform/apps/fwupgrade/md5.c:165-167 | A rotation takes every bit up by the number of places, |
| `Md5Operation.RotatedMovesAround` | baterycam/platform/apps/fwupgrade/md5.c:165-167 | and those that leave at the top to the bottom. |
| `Md5Rounds.Round1` | baterycam/platform/apps/fwupgrade/md5.c:183-198 | The unrolled lines are operations 0 to 15 of the standard's tables. |
| `Md5Rounds.Round2` | baterycam/platform/apps/fwupgrade/md5.c:200-215 | Operations 16 to 31. |
| `Md5Rounds.Round3` | baterycam/platform/apps/fwupgrade/md5.c:217-232 | Operations 32 to 47. |
| `Md5Rounds.Round4` | baterycam/platform/apps/fwupgrade/md5.c:234-249 | Operations 48 to 63. |
| `Md5.MacrosAreStandard` | baterycam/platform/apps/fwupgrade/md5.c:156-249 | The macros compute on every block what the standard's functions do. |
| `Md5.Context.Transform` | baterycam/platform/apps/fwupgrade/md5.c:174-255 | The registers become those of the standard's compression of the block. |
| `Md5.Context.CountBits` | baterycam/platform/apps/fwupgrade/md5.c:64-71 | The two halves count 8 times the length modulo 2^64 through the carry, and tell the bytes in the buffer. |
| `Md5.Context.Update` | baterycam/platform/apps/fwupgrade/md5.c:60-105 | The context stands for the message so far with the new data behind it: registers, buffer and count. |
| `Md5.Context.Final` | baterycam/platform/apps/fwupgrade/md5.c:111-153 | The digest is that of RFC 1321 for the whole message; only the first register is wiped. |
| `Md5Blocks.HashEnds` | baterycam/platform/apps/fwupgrade/md5.c:116-149 | Padding ends the tail with one block if it is shorter than 56 bytes and with two otherwise. |
| `Md5Blocks.PaddingFills` | baterycam/platform/apps/fwupgrade/md5.c:116-149 | Message and padding are whole blocks, whatever the length. |
| `Md5.ValidateBin` | baterycam/platform/apps/fwupgrade/fwupgrade.c:445-480 | The loop over pieces of 4096 bytes computes the digest of the whole image. |
| `Md5Suite.SuiteDigest` | baterycam/platform/apps/fwupgrade/md5.c:111-240 | The digest of the 62 letters and digits is that in the test suite of RFC 1321, section A.5, through all 128 operations of its two blocks: tables, orders of words, registers and bytes, and padding are those that give it. |
| `Md5Suite.FirstBlock` | baterycam/platform/apps/fwupgrade/md5.c:173-240 | The registers after the 64 operations on the first block of that message. |
| `ArqSend.PacketCount` | baterycam/platform/apps/p2p_sdcard_streaming/p2p_sdcard_streaming.c:222-231 | The least number of 1024-byte packets that holds the file. |
| `ArqSend.Streamer.SendBurst` | baterycam/platform/apps/p2p_sdcard_streaming/p2p_sdcard_streaming.c:490-568 | The sending loop sends what the specification says and leaves its times and position. |
| `ArqSweep.BurstSweeps` | baterycam/platform/apps/p2p_sdcard_streaming/p2p_sdcard_streaming.c:490-568 | A burst sweeps a stretch of packets: it sends exactly those that are due at the reading it has for them, in rising order and once, notes exactly those that work and do not repeat the last packet, and ends before the last packet only with its eighth success; where it goes on and when filler is sent is stated. |
| `ArqSend.Streamer.ProcessAcks` | baterycam/platform/apps/p2p_sdcard_streaming/p2p_sdcard_streaming.c:317-406 | Only the last acknowledgement counts; it marks the packets below the smallest and those of the bitmap, and sending resumes at the first gap. |
| `ArqSend.Streamer.PollAndDecide` | baterycam/platform/apps/p2p_sdcard_streaming/p2p_sdcard_streaming.c:575-613 | Where sending goes on, and whether, after a poll. |
| `ArqAck.AckComesBack` | baterycam/platform/apps/p2p_sdcard_streaming/p2p_sdcard_streaming.c:338-346 | An acknowledgement laid out by a receiver is read back as it was. |
| `ArqAck.AckExample` | baterycam/platform/apps/p2p_sdcard_streaming/p2p_sdcard_streaming.c:338-346 | The bytes of one acknowledgement and what they tell. |
| `ArqAck.BelowResumeIsMarked` | baterycam/platform/apps/p2p_sdcard_streaming/p2p_sdcard_streaming.c:347-388 | Everything below the place where sending resumes is acknowledged. |
| `ArqAck.ResumeIsOldestMissing` | baterycam/platform/apps/p2p_sdcard_streaming/p2p_sdcard_streaming.c:355-388 | If the acknowledgement misses a packet, sending resumes at the first packet it does not tell of; otherwise at its smallest packet. |
| `ArqAck.ResumeAtEnd` | baterycam/platform/apps/p2p_sdcard_streaming/p2p_sdcard_streaming.c:355-388 | Sending resumes at the end if and only if the smallest packet is the end. |
| `ArqRuns.BurstIsProper` | baterycam/platform/apps/p2p_sdcard_streaming/p2p_sdcard_streaming.c:490-568 | A burst sends only packets not acknowledged, at most eight with success, never nothing, and ends at a packet that exists. |
| `ArqRuns.BurstIsSpaced` | baterycam/platform/apps/p2p_sdcard_streaming/p2p_sdcard_streaming.c:498-545 | Every transmission in a burst comes at least 1300 ticks after the time noted last for that packet. |
| `ArqRuns.DueExactlyWhen` | baterycam/platform/apps/p2p_sdcard_streaming/p2p_sdcard_streaming.c:498-520 | A packet sent at time t is due at time u if and only if t reads as tick 0, which stands for never, or 1300 ticks have passed modulo 2^32. |
| `ArqRuns.ZeroTickTooSoon` | baterycam/platform/apps/p2p_sdcard_streaming/p2p_sdcard_streaming.c:498-545 | A run that sends a packet at a time that reads as 0, notes it, and sends it again one tick later. |
| `ArqRuns.LastPacketRepeats` | baterycam/platform/apps/p2p_sdcard_streaming/p2p_sdcard_streaming.c:521-534 | The last packet, once repeated, is repeated by the next burst if and only if the noted time, that of the first transmission, is still long enough ago. |
| `ArqRuns.LastPacketTooSoon` | baterycam/platform/apps/p2p_sdcard_streaming/p2p_sdcard_streaming.c:521-534 | A run that repeats the last packet one tick after it was repeated. |
| `ArqChannel.KnowledgeIsSound` | baterycam/platform/apps/p2p_sdcard_streaming/p2p_sdcard_streaming.c:296-413 | Over a channel that loses, delays, repeats and reorders, acknowledged packets were received and received ones sent, none is taken back, everything below the resume point is acknowledged, and at the end the receiver has the whole file. |
| `ArqChannel.RunsAreSpaced` | baterycam/platform/apps/p2p_sdcard_streaming/p2p_sdcard_streaming.c:490-568 | In every run transmissions keep their distance from the time noted, and every one that works is noted except repetitions of the last packet. |
| `ArqChannel.OffExactlyWhen` | baterycam/platform/apps/p2p_sdcard_streaming/p2p_sdcard_streaming.c:575-605 | A transfer goes off if and only if a poll finds the end of the file, or makes none when the last progress, at a time that does not read as 0, was seven seconds ago modulo 2^32. |
| `ArqChannel.OldestIsSent` | baterycam/platform/apps/p2p_sdcard_streaming/p2p_sdcard_streaming.c:490-613 | After a poll with progress, or one that finds the oldest packet overdue, the next burst sends that packet, if it is still due and not acknowledged. |
| `ArqChannel.ReportBringsUpToDate` | baterycam/platform/apps/p2p_sdcard_streaming/p2p_sdcard_streaming.c:338-388 | A receiver that reports its first gap and the packets behind it brings the sender's record up to date as far as the report reaches, and no farther; sending resumes at the gap. |
| `ArqChannel.FullReportEnds` | baterycam/platform/apps/p2p_sdcard_streaming/p2p_sdcard_streaming.c:347-406 | Once everything has arrived such a report ends the transfer. |
| `ArqChannel.OldestFirst` | baterycam/platform/apps/p2p_sdcard_streaming/p2p_sdcard_streaming.c:577-613 | After a poll, sending goes on at the oldest packet not acknowledged if there was progress or it is overdue. |
| `UpgradeFlash.Partitions.WriteFlag` | baterycam/platform/apps/fwupgrade/fwupgrade.c:106-148 | A write reports failure only for results below -1; everything the partition holds meanwhile is accounted for. |
| `UpgradeFlash.Partitions.KernelOta` | baterycam/platform/apps/fwupgrade/fwupgrade.c:222-257 | Erase flag, burn, set flag; stop at the first failure. |
| `UpgradeFlash.ResultTellsStep` | baterycam/platform/apps/fwupgrade/fwupgrade.c:222-257 | The result is 0 if and only if all three writes count as done, and otherwise tells the first that does not; the steps after it change nothing. |
| `UpgradeFlash.BurnIsCrashSafe` | baterycam/platform/apps/fwupgrade/fwupgrade.c:190-257 | At every moment of the three writes the flag vouches only for a complete kernel, the old or the new, and a result of 0 means the new one. |
| `UpgradeFlash.SafeExactlyWhen` | baterycam/platform/apps/fwupgrade/fwupgrade.c:106-164 | When all writes are reported as done, every moment is safe if and only if the kernel ends complete and the flag was really erased, or the burning went through complete kernels only. |
| `UpgradeFlash.UnnoticedFailureBreaks` | baterycam/platform/apps/fwupgrade/fwupgrade.c:133-144 | A result of -1 counts as done: if it can mean that the erasure did not happen, some moment vouches for a broken kernel. |
| `Upgrade.HexComesBack` | baterycam/platform/apps/fwupgrade/fwupgrade.c:483-524 | Digest text in digits decodes to the digest. |
| `Upgrade.DigitsRead` | baterycam/platform/apps/fwupgrade/fwupgrade.c:483-524 | The digits of the digest above are its bytes. |
| `Upgrade.OtherCharactersAreF` | baterycam/platform/apps/fwupgrade/fwupgrade.c:498-501 | Any other character reads as F. |
| `Upgrade.StringToHex` | baterycam/platform/apps/fwupgrade/fwupgrade.c:504-524 | The decoding loop, two characters a byte. |
| `Upgrade.Upgrader.SaveData` | baterycam/platform/apps/fwupgrade/fwupgrade.c:351-384 | A payload is copied behind what is there if its position is the length so far, and refused otherwise. |
| `Upgrade.Upgrader.ActionInit` | baterycam/platform/apps/fwupgrade/fwupgrade.c:557-613 | The first packet. |
| `Upgrade.Upgrader.ActionReceive` | baterycam/platform/apps/fwupgrade/fwupgrade.c:614-653 | A later packet; verification begins when the length is that announced. |
| `Upgrade.Upgrader.ActionVerify` | baterycam/platform/apps/fwupgrade/fwupgrade.c:690-766 | The kernel is burned if and only if the digest of the image is the one sent. |
| `Upgrade.Upgrader.Process` | baterycam/platform/apps/fwupgrade/fwupgrade.c:873-896 | One packet through the state table, and the restart after an error. |
| `UpgradeRuns.StepIsSafe` | baterycam/platform/apps/fwupgrade/fwupgrade.c:557-766 | Any packet keeps: the image is the payloads accepted, in order, and where the flag vouches, the flash is as it was at the beginning, flag included, or the kernel is one whose digest was right. |
| `UpgradeRuns.RunsAreSafe` | baterycam/platform/apps/fwupgrade/fwupgrade.c:838-914 | In every run of packets, from any state of the flash, and at every moment of the next packet, the same: a kernel for which the flag did not vouch at the beginning is never vouched for without a right digest. |
| `UpgradeRuns.PiecesArrive` | baterycam/platform/apps/fwupgrade/fwupgrade.c:557-653 | Any image in pieces is received as it is and is ready for its digest at the last piece, if and only if there are at least two. |
| `UpgradeRuns.DigestDecides` | baterycam/platform/apps/fwupgrade/fwupgrade.c:690-766 | With the right digest the image is burned and vouched for; with a wrong one the flash is not touched and the system restarts. |
| `UpgradeRuns.SuiteImageIsGood` | baterycam/platform/apps/fwupgrade/fwupgrade.c:690-766 | An image and a digest text that verify. |
| `RingBuffers.CountedRing.WriteByte` | baterycam/platform/apps/audio/ringbuf_1.c:127-150 | A bounded queue: appended if and only if not full. |
| `RingBuffers.CountedRing.ReadByte` | baterycam/platform/apps/audio/ringbuf_1.c:159-182 | The oldest byte, if and only if there is one. |
| `RingBuffers.CountedRing.WriteBuf` | baterycam/platform/apps/audio/ringbuf_1.c:192-219 | All bytes appended in order or none, as by single bytes. |
| `RingBuffers.CountedRing.ReadBuf` | baterycam/platform/apps/audio/ringbuf_1.c:229-257 | The oldest bytes in order or none. |
| `RingBuffers.ResettingRing.Write` | baterycam/platform/apps/ringbuffer/ringbuffer.c:57-98 | Appended if and only if there is room behind the data, or in the whole buffer if it is empty; the branch for negative space is dead. |
| `RingBuffers.ResettingRing.Read` | baterycam/platform/apps/ringbuffer/ringbuffer.c:100-140 | The oldest bytes or an error; the branch for negative data is dead. |
| `RingBuffers.ResettingRing.Flush` | baterycam/platform/apps/ringbuffer/ringbuffer.c:143-150 | Nothing is left. |
| `CircularList.Add` | baterycam/kernel/include/list.h:57-60 | Behind the head, the ring stays a ring. |
| `CircularList.AddTail` | baterycam/kernel/include/list.h:70-73 | At the end. |
| `CircularList.Delete` | baterycam/kernel/include/list.h:99-104 | The ring without the entry. |
| `CircularList.DeleteInit` | baterycam/kernel/include/list.h:133-137 | The entry becomes a ring of its own. |
| `CircularList.Move` | baterycam/kernel/include/list.h:144-148 | Within a list. |
| `CircularList.MoveAcross` | baterycam/kernel/include/list.h:144-148 | To another list. |
| `CircularList.MoveTail` | baterycam/kernel/include/list.h:155-160 | To the end of its own list. |
| `CircularList.MoveTailAcross` | baterycam/kernel/include/list.h:155-160 | To the end of another list. |
| `CircularList.RotateLeft` | baterycam/kernel/include/list.h:205-213 | The first entry becomes the last. |
| `CircularList.Splice` | baterycam/kernel/include/list.h:283-288 | The entries of one list behind the head of the other. |
| `CircularList.SpliceTail` | baterycam/kernel/include/list.h:295-300 | At its end. |
| `CircularList.SpliceInit` | baterycam/kernel/include/list.h:309-316 | And the emptied list is a list again. |
| `CircularList.CutPosition` | baterycam/kernel/include/list.h:250-262 | The entries up to one become a list of their own, the others stay; cutting an empty list touches nothing. |
| `CircularList.CutThenSplice` | baterycam/kernel/include/list.h:224-316 | Cutting and splicing back restores the ring. |

## Left out

- G722Encoder.EncoderState.Encode: an odd number of samples with the filter bank reads past the input in the code, and the output has to have room; both are preconditions. Allocation failure is not modelled.
- G722Decoder.DecoderState.Decode: PCM samples are truncated to 16 bits as the code does, not bounded; only the accumulators are.
- G722BandState.BandState.Block4: the arrays of the band structure are sequences that the methods reassign element by element.
- FlvNal.ParseFrame: frames have at least five bytes, since byte 4 is read first.
- FlvMux.Muxer.FillVideo: not for frames of exactly four bytes, frames that pass the size check with fewer than 15 bytes to spare, and frames for which `FlvMux.CopiesInsideExactlyWhen` says that a copy leaves the frame: there the code reads or writes outside its memory.
- FlvMux.Muxer.StoreParameterSets: for the same frames only.
- FlvMux.Muxer.FillAudio: A-law companding is an arbitrary function of a sample; frames that pass the size check have room for header and seal.
- FlvEngine.Engine.PushVideo: for the frames that `FillVideo` is for.
- FlvEngine.Engine.PushAudio: for the samples that `FillAudio` is for.
- FlvMux.Muxer.TakeStamp: `long` is taken to have 32 bits, as on the target; the clock is a parameter.
- FlvBuffers.PingPong.FlushToFile: waiting until a buffer has been handed over; in `FlvHandover` a flush begins only then.
- FlvMux.Muxer.HeaderGet: the header tags made so far fit the 2048 bytes of the header buffer; the code does not ask.
- FlvEngine.Engine.WriteHeader: for the same reason.
- FlvParse.IFrameSearch: the first eight bytes of every tag header met are inside the memory, which holds for whole tags and with seven bytes to spare (`FlvTag.SlackIsEnough`).
- FlvParse.DurationGet: for the same data only.
- FlvHandover.StepKeeps: the producers are one thread, since the engine's lock serialises them; preparation and reset are single steps, since they run under the buffers' lock; the search and the write read bytes no other step changes and are single steps.
- FlvRecorder.NextKeeps: the header tag is made in one step, though the code makes it without the lock the muxer is used under; another task opens and removes files only between recordings; the branch of the preamble for recordings of 15 seconds.
- FlvRecorder.EveryFileIsShaped: the recording task and the outer loop of a transfer (`ArqChannel`) are runs of steps on values, not methods with a loop, since they end only by what other threads do; the methods are those of one pass.
- `FLVPPBuffFlushCurrent`, `FLVEngineGetHeader` and the buffers' tag counts and durations: no use of them is in this model.
- MemFile.MemoryFile.FOpen: names of 64 characters or more, which the code copies over the beginning of the file; the branch with an SD card.
- ArqSend.Streamer.ProcessAcks: not for acknowledgements whose smallest packet is beyond the file or whose bitmap leaves the packet.
- ArqSend.Streamer.PollAndDecide: at the end of the file the code reads the time of a record past the last one; the value does not matter and is not read here.
- ArqSend.Streamer.SendBurst: sleeping, printing and the link itself; each transmission reports success or failure, and the clock is read where the code reads it.
- How a file is wrapped into packets (`packet_create*`, encryption): a file is its number of packets.
- `p2psdstream_resend.c`, `p2psdstream_list.c`, `p2p_process_ack`: not used by the transfer.
- Upgrade.Upgrader.ActionInit: payloads have room in the buffer of the announced length; a new buffer holds zeros; allocation does not fail.
- Upgrade.Upgrader.SaveData: payloads have room in the buffer, which the code does not check.
- Upgrade.Upgrader.ActionReceive: for the same reason.
- Upgrade.Upgrader.ActionVerify: packets with 32 characters of digest text at least; the digest text is read from the packet, not copied to a buffer first; the notifications and the watchdog.
- Upgrade.Upgrader.Process: packets of the form their state reads; responses to the other processor, among them a notice to stop that is overwritten by the position before it is sent.
- UpgradeFlash.BurnIsCrashSafe: for devices that report what they did not write, and write the 16 bytes of the flag at once.
- `fwupgrade_main`, the partition reader and MD5 on big-endian processors: nothing hard is added by them.
- CircularList.Delete: poisoned pointers are null. `list_replace`, the iteration macros and the hash lists are not modelled.
- RingBuffers.ResettingRing.Write: lengths are not negative.
- Drivers, threads, semaphores, Wi-Fi, photo and factory-test code: input and output, or libraries that are not part of this model.
