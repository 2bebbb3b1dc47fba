/** The PDM-to-PCM loopback of the SAI audio playback example on the
    STM32H745I-DISCO board (CM7 core).

    DMA fills a 256-halfword capture buffer with PDM words in a circle and
    raises a half-complete and a complete interrupt; a second DMA drains a
    256-halfword PCM buffer.  The main loop waits for the half event,
    decimates the first capture half into the next 32-entry PCM chunk, waits
    for the complete event, decimates the second half into the chunk after
    that, and wraps its write cursor after the second half.

    The globals of the example are the fields of one `Loopback` object.  The
    two interrupt callbacks are methods that run atomically between steps of
    the main loop; the two busy-waits are modelled by `LoopStep`, which
    either converts a half (the awaited bit is set) or changes nothing (one
    more spin). */
module SaiAudioPlayback {
  import opened PdmFilter

  // Constants of the example.
  const AUDIO_FREQUENCY: nat := 16000          // SAI_AUDIO_FREQUENCY_16K
  const AUDIO_CHANNEL_NUMBER: nat := 2
  const AUDIO_BUFFER_SIZE: nat := 256
  const AUDIO_PCM_CHUNK_SIZE: nat := 32
  const HALF_WORDS: nat := 128                 // AUDIO_BUFFER_SIZE / 2, the words of one capture half
  const MIC_GAIN: int := 24
  const HIGH_PASS_TAP: int := 2122358088

  /** BUFFER_StateTypeDef, used as a bit set by the callbacks and the loop. */
  type Status = bv32
  const BUFFER_OFFSET_NONE: Status := 0
  const BUFFER_OFFSET_HALF: Status := 1
  const BUFFER_OFFSET_FULL: Status := 2

  /** The two halves of the capture buffer. */
  datatype Half = First | Second

  /** Where `main` is: before the clear that precedes the loop, or spinning
      on one of the two waits. */
  datatype Phase = Setup | AwaitHalf | AwaitFull

  /** The half the k-th conversion (from 0) reads: they alternate. */
  function HalfAt(k: nat): Half { if k % 2 == 0 then First else Second }

  /** First halfword of a capture half: &audioPdmBuf[0] or &audioPdmBuf[AUDIO_BUFFER_SIZE/2]. */
  function HalfStart(h: Half): nat { if h == First then 0 else AUDIO_BUFFER_SIZE / 2 }

  /** The bit whose arrival ends the wait before converting half `h`. */
  function AwaitedBit(h: Half): Status { if h == First then BUFFER_OFFSET_HALF else BUFFER_OFFSET_FULL }

  /** pcmPtr after converting half `h`: advance by one chunk; the wrap test
      follows only the second half. */
  function NextPcmPtr(ptr: nat, h: Half): nat
  {
    if h == First then ptr + AUDIO_PCM_CHUNK_SIZE
    else if ptr + AUDIO_PCM_CHUNK_SIZE >= AUDIO_BUFFER_SIZE then 0
    else ptr + AUDIO_PCM_CHUNK_SIZE
  }

  /** pcmPtr after `n` conversions from the initial 0, by running the loop's update. */
  function PcmPtrAfter(n: nat): nat
  {
    if n == 0 then 0 else NextPcmPtr(PcmPtrAfter(n - 1), HalfAt(n - 1))
  }

  /** One step of the cursor keeps it at 32·n mod 256, although the wrap
      test only follows the second half. */
  lemma NextPcmPtrModular(n: nat)
    ensures NextPcmPtr((AUDIO_PCM_CHUNK_SIZE * n) % AUDIO_BUFFER_SIZE, HalfAt(n))
            == (AUDIO_PCM_CHUNK_SIZE * (n + 1)) % AUDIO_BUFFER_SIZE
  {
    var q, r := n / 2, n % 2;
    assert 32 * n == 64 * q + 32 * r;
    assert (32 * n) % 256 == 64 * (q % 4) + 32 * r;
    if r == 0 {
      assert (32 * (n + 1)) % 256 == 64 * (q % 4) + 32;
    } else {
      assert 32 * (n + 1) == 64 * (q + 1);
      assert (32 * (n + 1)) % 256 == 64 * ((q + 1) % 4);
    }
  }

  /** After `n` half conversions from pcmPtr = 0, pcmPtr = 32·n mod 256. */
  lemma {:induction false} PcmPtrAfterIsModular(n: nat)
    ensures PcmPtrAfter(n) == (AUDIO_PCM_CHUNK_SIZE * n) % AUDIO_BUFFER_SIZE
  {
    if n > 0 {
      PcmPtrAfterIsModular(n - 1);
      NextPcmPtrModular(n - 1);
    }
  }

  /** Before the n-th conversion the chunk written fits in the PCM buffer;
      first-half chunks start at a multiple of 64, second-half ones at 64k + 32. */
  lemma ChunkInBounds(n: nat)
    ensures var ptr := (AUDIO_PCM_CHUNK_SIZE * n) % AUDIO_BUFFER_SIZE;
            && ptr + AUDIO_PCM_CHUNK_SIZE <= AUDIO_BUFFER_SIZE
            && ptr % AUDIO_PCM_CHUNK_SIZE == 0
            && (HalfAt(n) == First ==> ptr % 64 == 0)
            && (HalfAt(n) == Second ==> ptr % 64 == 32)
  {
    var q, r := n / 2, n % 2;
    var t := q % 4;
    assert 32 * n == 64 * q + 32 * r;
    assert (32 * n) % 256 == 64 * t + 32 * r;
    assert t == 0 || t == 1 || t == 2 || t == 3;
  }

  /** Buffers a cache operation can name. */
  datatype Region = PdmRegion | PcmRegion

  /** A cache maintenance call, by region, byte offset and byte length. */
  datatype CacheOp =
    | Invalidate(region: Region, start: nat, length: nat)  // SCB_InvalidateDCache_by_Addr
    | Clean(region: Region, start: nat, length: nat)       // SCB_CleanDCache_by_Addr

  /** The byte range of halfwords [lo, hi) of a uint16_t buffer. */
  predicate CoversWords(start: nat, length: nat, lo: nat, hi: nat)
  {
    lo <= hi && start == 2 * lo && length == 2 * (hi - lo)
  }

  /** The cache maintenance of one AUDIO_IN_PDMToPCM call with the capture
      half at halfword `pdmStart` and the chunk at entry `pcmOffset`: the
      invalidate of AUDIO_BUFFER_SIZE bytes, then the clean of
      AUDIO_PCM_CHUNK_SIZE * 2 bytes. */
  function ConversionCacheOps(pdmStart: nat, pcmOffset: nat): seq<CacheOp>
  {
    [Invalidate(PdmRegion, 2 * pdmStart, AUDIO_BUFFER_SIZE), Clean(PcmRegion, 2 * pcmOffset, AUDIO_PCM_CHUNK_SIZE * 2)]
  }

  /** The invalidate of a conversion covers exactly the capture half it reads,
      and the clean covers exactly the 32-entry PCM chunk it writes. */
  lemma CacheRangesMatchHalfAndChunk(h: Half, pcmOffset: nat)
    ensures var ops := ConversionCacheOps(HalfStart(h), pcmOffset);
            && ops[0].Invalidate? && ops[0].region == PdmRegion
            && CoversWords(ops[0].start, ops[0].length, HalfStart(h), HalfStart(h) + HALF_WORDS)
            && ops[1].Clean? && ops[1].region == PcmRegion
            && CoversWords(ops[1].start, ops[1].length, pcmOffset, pcmOffset + AUDIO_PCM_CHUNK_SIZE)
    ensures AUDIO_CHANNEL_NUMBER * OUTPUT_SAMPLES == AUDIO_PCM_CHUNK_SIZE
  {
  }

  /** The interleaved output of at most two channels fits the 32-entry chunk:
      nothing outside it changes. */
  lemma ChunkHoldsInterleaved(pcm: seq<bv16>, pcmOffset: nat, channels: nat, blocks: seq<ChannelBlock>)
    requires |blocks| <= channels <= FILTER_SLOTS && pcmOffset + AUDIO_PCM_CHUNK_SIZE <= |pcm|
    ensures pcmOffset + channels * OUTPUT_SAMPLES <= |pcm|
    ensures forall p :: 0 <= p < |pcm| && !(pcmOffset <= p < pcmOffset + AUDIO_PCM_CHUNK_SIZE) ==>
              Interleaved(pcm, pcmOffset, channels, blocks)[p] == pcm[p]
  {
    assert channels * OUTPUT_SAMPLES <= AUDIO_PCM_CHUNK_SIZE;
    InterleavedLayout(pcm, pcmOffset, channels, blocks);
  }

  /** The capture bytes of the half starting at halfword `start`. */
  function HalfBytes(pdm: seq<bv16>, start: nat): (bytes: seq<bv8>)
    requires start + HALF_WORDS <= |pdm|
    ensures |bytes| == 2 * HALF_WORDS
  {
    LeBytes(pdm[start..start + HALF_WORDS])
  }

  /** The PDM_Filter call of each channel `i < channels`: the bytes of the
      half the channel consumes, with handler `i`. */
  function FilterRun(lib: FilterLibrary, bytes: seq<bv8>, handlers: seq<FilterHandler>, channels: nat): (steps: seq<FilterStep>)
    requires channels <= |handlers| && channels <= FILTER_SLOTS
    requires |bytes| == 2 * HALF_WORDS
    ensures |steps| == channels
  {
    seq(channels, i requires 0 <= i < channels => lib.filter(ChannelInput(bytes, i, channels), handlers[i]))
  }

  function BlocksOf(steps: seq<FilterStep>): (blocks: seq<ChannelBlock>)
    ensures |blocks| == |steps|
  {
    seq(|steps|, i requires 0 <= i < |steps| => steps[i].pcm)
  }

  /** The handlers after the filter calls: only the library memory of the
      channels run changes. */
  function WithMemories(handlers: seq<FilterHandler>, steps: seq<FilterStep>): (r: seq<FilterHandler>)
    requires |steps| <= |handlers|
    ensures |r| == |handlers|
  {
    seq(|handlers|, i requires 0 <= i < |handlers| =>
          if i < |steps| then handlers[i].(memory := steps[i].memory) else handlers[i])
  }

  lemma WithMemoriesStep(handlers: seq<FilterHandler>, steps: seq<FilterStep>, i: nat)
    requires i < |steps| <= |handlers|
    ensures WithMemories(handlers, steps[..i + 1])
            == WithMemories(handlers, steps[..i])[i := handlers[i].(memory := steps[i].memory)]
  {
  }

  /** A handler after AUDIO_IN_PDMToPCM_Init's fields, PDM_Filter_Init and
      PDM_Filter_setConfig. */
  function ConfiguredHandler(lib: FilterLibrary, h: FilterHandler, channels: nat, config: FilterConfig): FilterHandler
  {
    var h1 := h.(bitOrder := Msb, endianness := LittleEndian, highPassTap := HIGH_PASS_TAP,
                 outPtrChannels := channels, inPtrChannels := channels);
    var h2 := h1.(memory := lib.init(h1));
    h2.(memory := lib.setConfig(h2, config))
  }

  /** The configuration AUDIO_IN_PDMToPCM_Init gives every channel. */
  function ChannelConfig(audioFreq: nat): FilterConfig
  {
    FilterConfig(DEC_FACTOR_64, audioFreq / 1000, MIC_GAIN)
  }

  /** The global state of the example. */
  class Loopback {
    const lib: FilterLibrary
    const pdmBuf: array<bv16>               // audioPdmBuf, filled by DMA
    const pcmBuf: array<bv16>               // audioPcmBuf, drained by DMA
    const handlers: array<FilterHandler>    // PDM_FilterHandler
    const configs: array<FilterConfig>      // PDM_FilterConfig
    var pcmPtr: nat
    var bufferStatus: Status
    var phase: Phase
    /** The halves converted so far, in order. */
    ghost var conversions: seq<Half>
    /** The cache maintenance calls issued so far, in order. */
    ghost var cacheLog: seq<CacheOp>

    ghost predicate Valid()
      reads this`phase, this`conversions, this`pcmPtr
    {
      BuffersSized() && CursorTracksConversions()
    }

    /** The buffers and filter tables have the sizes the example declares and
        are distinct globals. */
    ghost predicate BuffersSized()
    {
      && pdmBuf.Length == AUDIO_BUFFER_SIZE && pcmBuf.Length == AUDIO_BUFFER_SIZE
      && handlers.Length == FILTER_SLOTS && configs.Length == FILTER_SLOTS
      && pdmBuf != pcmBuf && configs as object != pcmBuf && configs as object != handlers
    }

    /** The halves alternate from the first, the phase awaits the next one,
        and pcmPtr is 32 entries per conversion, modulo the buffer size. */
    ghost predicate CursorTracksConversions()
      reads this`phase, this`conversions, this`pcmPtr
    {
      && (phase == Setup ==> conversions == [])
      && (phase == AwaitHalf ==> |conversions| % 2 == 0)
      && (phase == AwaitFull ==> |conversions| % 2 == 1)
      && (forall k :: 0 <= k < |conversions| ==> conversions[k] == HalfAt(k))
      && pcmPtr == (AUDIO_PCM_CHUNK_SIZE * |conversions|) % AUDIO_BUFFER_SIZE
      && pcmPtr + AUDIO_PCM_CHUNK_SIZE <= AUDIO_BUFFER_SIZE
    }

    /** The filters of channels 0 .. channels-1 are set up for interleaved
        16 kHz input and output of `channels` channels. */
    predicate FiltersReady(channels: nat)
      reads handlers, configs
    {
      && channels <= handlers.Length && channels <= configs.Length && channels <= FILTER_SLOTS
      && forall i :: 0 <= i < channels ==>
           && handlers[i].inPtrChannels == channels
           && handlers[i].outPtrChannels == channels
           && configs[i].outputSamplesNumber == OUTPUT_SAMPLES
    }

    /** The PCM buffer and the handlers hold what the channel loop makes of
        capture half `pdmStart` of `pdm`, the PCM contents `pcm` and the
        handlers `hs`: the interleaved filter output in the chunk at
        `pcmOffset`, and each channel's advanced library memory. */
    ghost predicate Filtered(pdm: seq<bv16>, pdmStart: nat, pcm: seq<bv16>, hs: seq<FilterHandler>,
                             pcmOffset: nat, channels: nat)
      reads pcmBuf, handlers
    {
      && pdmStart + HALF_WORDS <= |pdm| && channels <= |hs| && channels <= FILTER_SLOTS
      && pcmOffset + channels * OUTPUT_SAMPLES <= |pcm|
      && var steps := FilterRun(lib, HalfBytes(pdm, pdmStart), hs, channels);
         && pcmBuf[..] == Interleaved(pcm, pcmOffset, channels, BlocksOf(steps))
         && handlers[..] == WithMemories(hs, steps)
    }

    /** Every entry of the PCM buffer outside the 32-entry chunk at
        `pcmOffset` still holds its value in `pcm`. */
    ghost predicate OutsideChunkUnchanged(pcm: seq<bv16>, pcmOffset: nat)
      reads pcmBuf
    {
      && |pcm| == pcmBuf.Length
      && forall p :: 0 <= p < |pcm| && !(pcmOffset <= p < pcmOffset + AUDIO_PCM_CHUNK_SIZE) ==> pcmBuf[p] == pcm[p]
    }

    /** The statically initialised globals, before `main` runs. */
    constructor (lib: FilterLibrary)
      ensures Valid() && this.lib == lib
      ensures fresh(pdmBuf) && fresh(pcmBuf) && fresh(handlers) && fresh(configs)
      ensures pdmBuf[..] == seq(AUDIO_BUFFER_SIZE, _ => 0) && pcmBuf[..] == seq(AUDIO_BUFFER_SIZE, _ => 0)
      ensures handlers[..] == [ZERO_HANDLER, ZERO_HANDLER] && configs[..] == [ZERO_CONFIG, ZERO_CONFIG]
      ensures pcmPtr == 0 && bufferStatus == BUFFER_OFFSET_NONE && phase == Setup && cacheLog == []
    {
      this.lib := lib;
      pdmBuf := new bv16[AUDIO_BUFFER_SIZE](_ => 0);
      pcmBuf := new bv16[AUDIO_BUFFER_SIZE](_ => 0);
      handlers := new FilterHandler[FILTER_SLOTS](_ => ZERO_HANDLER);
      configs := new FilterConfig[FILTER_SLOTS](_ => ZERO_CONFIG);
      pcmPtr := 0;
      bufferStatus := BUFFER_OFFSET_NONE;
      phase := Setup;
      conversions := [];
      cacheLog := [];
      new;
      assert handlers[..] == [ZERO_HANDLER, ZERO_HANDLER];
      assert configs[..] == [ZERO_CONFIG, ZERO_CONFIG];
    }

    /** AUDIO_IN_PDMToPCM_Init: sets up and configures the filter of every
        channel below `channelNumber`; the other slots are untouched. */
    method InitFilters(audioFreq: nat, channelNumber: nat)
      requires Valid()
      requires channelNumber <= FILTER_SLOTS
      modifies handlers, configs
      ensures Valid()
      ensures forall i :: 0 <= i < channelNumber ==>
                && configs[i] == ChannelConfig(audioFreq)
                && handlers[i] == ConfiguredHandler(lib, old(handlers[i]), channelNumber, configs[i])
      ensures forall i :: channelNumber <= i < FILTER_SLOTS ==>
                handlers[i] == old(handlers[i]) && configs[i] == old(configs[i])
    {
      var index := 0;
      while index < channelNumber
        invariant 0 <= index <= channelNumber
        invariant forall i :: 0 <= i < index ==>
                    && configs[i] == ChannelConfig(audioFreq)
                    && handlers[i] == ConfiguredHandler(lib, old(handlers[i]), channelNumber, configs[i])
        invariant forall i :: index <= i < FILTER_SLOTS ==>
                    handlers[i] == old(handlers[i]) && configs[i] == old(configs[i])
      {
        var h := handlers[index].(bitOrder := Msb, endianness := LittleEndian, highPassTap := HIGH_PASS_TAP,
                                  outPtrChannels := channelNumber, inPtrChannels := channelNumber);
        handlers[index] := h.(memory := lib.init(h));
        configs[index] := FilterConfig(DEC_FACTOR_64, audioFreq / 1000, MIC_GAIN);
        handlers[index] := handlers[index].(memory := lib.setConfig(handlers[index], configs[index]));
        index := index + 1;
      }
    }

    /** AUDIO_IN_PDMToPCM: decimates the capture half at `pdmStart` into the
        PCM buffer from `pcmOffset`, channel `i` reading from byte `i` of the
        half and writing from entry `pcmOffset + i`, interleaved.  The
        capture half is invalidated first and the chunk cleaned last. */
    method PdmToPcm(pdmStart: nat, pcmOffset: nat, channels: nat)
      requires Valid() && FiltersReady(channels)
      requires pdmStart + HALF_WORDS <= AUDIO_BUFFER_SIZE
      requires pcmOffset + AUDIO_PCM_CHUNK_SIZE <= AUDIO_BUFFER_SIZE
      modifies pcmBuf, handlers, this`cacheLog
      ensures Valid() && FiltersReady(channels)
      ensures Filtered(old(pdmBuf[..]), pdmStart, old(pcmBuf[..]), old(handlers[..]), pcmOffset, channels)
      ensures OutsideChunkUnchanged(old(pcmBuf[..]), pcmOffset)
      ensures cacheLog == old(cacheLog) + ConversionCacheOps(pdmStart, pcmOffset)
    {
      cacheLog := cacheLog + [Invalidate(PdmRegion, 2 * pdmStart, AUDIO_BUFFER_SIZE)];
      FilterChannels(HalfBytes(pdmBuf[..], pdmStart), pcmOffset, channels);
      cacheLog := cacheLog + [Clean(PcmRegion, 2 * pcmOffset, AUDIO_PCM_CHUNK_SIZE * 2)];
    }

    /** The channel loop of AUDIO_IN_PDMToPCM over the bytes of one capture
        half: after it, the chunk holds every channel's block interleaved
        and each handler has advanced its library memory. */
    method FilterChannels(bytes: seq<bv8>, pcmOffset: nat, channels: nat)
      requires BuffersSized()
      requires FiltersReady(channels) && |bytes| == 2 * HALF_WORDS
      requires pcmOffset + AUDIO_PCM_CHUNK_SIZE <= AUDIO_BUFFER_SIZE
      modifies pcmBuf, handlers
      ensures FiltersReady(channels)
      ensures var steps := FilterRun(lib, bytes, old(handlers[..]), channels);
              && pcmBuf[..] == Interleaved(old(pcmBuf[..]), pcmOffset, channels, BlocksOf(steps))
              && handlers[..] == WithMemories(old(handlers[..]), steps)
      ensures OutsideChunkUnchanged(old(pcmBuf[..]), pcmOffset)
    {
      ghost var steps := FilterRun(lib, bytes, handlers[..], channels);
      ChunkHoldsInterleaved(pcmBuf[..], pcmOffset, channels, BlocksOf(steps));
      var index := 0;
      while index < channels
        invariant 0 <= index <= channels
        invariant pcmBuf[..] == Interleaved(old(pcmBuf[..]), pcmOffset, channels, BlocksOf(steps)[..index])
        invariant handlers[..] == WithMemories(old(handlers[..]), steps[..index])
        invariant FiltersReady(channels)
      {
        InterleavedStep(old(pcmBuf[..]), pcmOffset, channels, BlocksOf(steps), index);
        WithMemoriesStep(old(handlers[..]), steps, index);
        FilterChannel(bytes, index, pcmOffset, channels);
        index := index + 1;
      }
      assert BlocksOf(steps)[..channels] == BlocksOf(steps);
      assert steps[..channels] == steps;
    }

    /** One PDM_Filter call of the channel loop: channel `index` filters the
        half's bytes from offset `index`, one every `in_ptr_channels`, and stores its samples from PCM entry
        `pcmOffset + index`, one every `out_ptr_channels` entries; its handler
        keeps every field but the library memory. */
    method FilterChannel(bytes: seq<bv8>, index: nat, pcmOffset: nat, channels: nat)
      requires BuffersSized()
      requires index < channels <= FILTER_SLOTS && |bytes| == 2 * HALF_WORDS
      requires FiltersReady(channels)
      requires pcmOffset + AUDIO_PCM_CHUNK_SIZE <= AUDIO_BUFFER_SIZE
      modifies pcmBuf, handlers
      ensures FiltersReady(channels)
      ensures var step := lib.filter(ChannelInput(bytes, index, channels), old(handlers[index]));
              && pcmBuf[..] == StoreBlock(old(pcmBuf[..]), pcmOffset + index, channels, step.pcm)
              && handlers[..] == old(handlers[..])[index := old(handlers[index]).(memory := step.memory)]
    {
      var step := lib.filter(ChannelInput(bytes, index, handlers[index].inPtrChannels), handlers[index]);
      var stride := handlers[index].outPtrChannels;
      var base := pcmOffset + index;
      assert base + stride * (OUTPUT_SAMPLES - 1) < pcmBuf.Length by {
        assert stride * (OUTPUT_SAMPLES - 1) == 15 * stride;
      }
      forall p | 0 <= p < pcmBuf.Length && IsSlot(p, base, stride) {
        pcmBuf[p] := step.pcm[SampleOf(p - base, stride)];
      }
      handlers[index] := handlers[index].(memory := step.memory);
    }

    /** HAL_SAI_RxHalfCpltCallback: raises the HALF bit and nothing else. */
    method RxHalfCpltCallback()
      requires Valid()
      modifies this`bufferStatus
      ensures Valid()
      ensures bufferStatus & BUFFER_OFFSET_HALF == BUFFER_OFFSET_HALF
      ensures bufferStatus & !BUFFER_OFFSET_HALF == old(bufferStatus) & !BUFFER_OFFSET_HALF
    {
      bufferStatus := bufferStatus | BUFFER_OFFSET_HALF;
    }

    /** HAL_SAI_RxCpltCallback: raises the FULL bit and nothing else. */
    method RxCpltCallback()
      requires Valid()
      modifies this`bufferStatus
      ensures Valid()
      ensures bufferStatus & BUFFER_OFFSET_FULL == BUFFER_OFFSET_FULL
      ensures bufferStatus & !BUFFER_OFFSET_FULL == old(bufferStatus) & !BUFFER_OFFSET_FULL
    {
      bufferStatus := bufferStatus | BUFFER_OFFSET_FULL;
    }

    /** The capture DMA (the circular transfer HAL_SAI_Receive_DMA starts)
        filling half `h` of audioPdmBuf with the PDM words `words`: only that
        half changes, and the next conversion of it hands the filter exactly
        the bytes of `words`. */
    method CaptureHalf(h: Half, words: seq<bv16>)
      requires Valid() && |words| == HALF_WORDS
      modifies pdmBuf
      ensures Valid()
      ensures pdmBuf[HalfStart(h)..HalfStart(h) + HALF_WORDS] == words
      ensures forall p :: 0 <= p < AUDIO_BUFFER_SIZE && !(HalfStart(h) <= p < HalfStart(h) + HALF_WORDS) ==>
                pdmBuf[p] == old(pdmBuf[p])
      ensures HalfBytes(pdmBuf[..], HalfStart(h)) == LeBytes(words)
    {
      var start := HalfStart(h);
      forall p | 0 <= p < HALF_WORDS {
        pdmBuf[start + p] := words[p];
      }
      assert pdmBuf[..][start..start + HALF_WORDS] == words;
    }

    /** `bufferStatus &= BUFFER_OFFSET_NONE`: drops every bit, whatever was raised. */
    method ClearStatus()
      requires Valid()
      modifies this`bufferStatus
      ensures Valid()
      ensures bufferStatus == BUFFER_OFFSET_NONE
    {
      bufferStatus := bufferStatus & BUFFER_OFFSET_NONE;
    }

    /** The clear before the loop: the status is cleared once the DMA transfers run, and the
        loop starts waiting for the first half. */
    method StartLoopback()
      requires Valid() && phase == Setup
      modifies this`bufferStatus, this`phase
      ensures Valid()
      ensures bufferStatus == BUFFER_OFFSET_NONE && phase == AwaitHalf
    {
      ClearStatus();
      phase := AwaitHalf;
    }

    /** One half of the loop body (the first-half conversion after the HALF
        wait, or the second-half one after the FULL wait), entered once the
        awaited bit is seen: convert capture half `h` into the chunk at
        pcmPtr, advance pcmPtr, clear the status. */
    method ConvertHalf(h: Half)
      requires Valid() && FiltersReady(AUDIO_CHANNEL_NUMBER)
      requires phase != Setup && HalfAt(|conversions|) == h
      requires bufferStatus & AwaitedBit(h) == AwaitedBit(h)
      modifies this`pcmPtr, this`bufferStatus, this`phase, this`conversions, this`cacheLog, pcmBuf, handlers
      ensures Valid() && FiltersReady(AUDIO_CHANNEL_NUMBER)
      ensures conversions == old(conversions) + [h]
      ensures phase == if h == First then AwaitFull else AwaitHalf
      ensures h == First ==> pcmPtr == old(pcmPtr) + AUDIO_PCM_CHUNK_SIZE
      ensures h == Second ==> pcmPtr == (old(pcmPtr) + AUDIO_PCM_CHUNK_SIZE) % AUDIO_BUFFER_SIZE
      ensures bufferStatus == BUFFER_OFFSET_NONE
      ensures Filtered(old(pdmBuf[..]), HalfStart(h), old(pcmBuf[..]), old(handlers[..]), old(pcmPtr), AUDIO_CHANNEL_NUMBER)
      ensures OutsideChunkUnchanged(old(pcmBuf[..]), old(pcmPtr))
      ensures cacheLog == old(cacheLog) + ConversionCacheOps(HalfStart(h), old(pcmPtr))
    {
      PdmToPcm(HalfStart(h), pcmPtr, AUDIO_CHANNEL_NUMBER);
      AdvancePcmPtr(h);
      ClearStatus();
    }

    /** The cursor update after a conversion: after converting half `h`, pcmPtr moves one
        chunk on, and after the second half it wraps to 0 at the buffer end;
        the loop then waits for the other event.  The first half never
        reaches the end, so the missing wrap test there loses nothing. */
    method AdvancePcmPtr(h: Half)
      requires Valid() && phase != Setup && HalfAt(|conversions|) == h
      modifies this`pcmPtr, this`conversions, this`phase
      ensures Valid()
      ensures pcmPtr == (old(pcmPtr) + AUDIO_PCM_CHUNK_SIZE) % AUDIO_BUFFER_SIZE
      ensures h == First ==> pcmPtr == old(pcmPtr) + AUDIO_PCM_CHUNK_SIZE
      ensures conversions == old(conversions) + [h]
      ensures phase == if h == First then AwaitFull else AwaitHalf
    {
      ChunkInBounds(|conversions|);
      NextPcmPtrModular(|conversions|);
      pcmPtr := pcmPtr + AUDIO_PCM_CHUNK_SIZE;
      if h == Second && pcmPtr >= AUDIO_BUFFER_SIZE {
        pcmPtr := 0;
      }
      conversions := conversions + [h];
      phase := if h == First then AwaitFull else AwaitHalf;
      ChunkInBounds(|conversions|);
    }

    /** One pass of the loop body: if the awaited bit is set the pending half
        is converted, otherwise the wait spins once and nothing changes. */
    method LoopStep() returns (converted: bool)
      requires Valid() && phase != Setup && FiltersReady(AUDIO_CHANNEL_NUMBER)
      modifies this`pcmPtr, this`bufferStatus, this`phase, this`conversions, this`cacheLog, pcmBuf, handlers
      ensures Valid() && FiltersReady(AUDIO_CHANNEL_NUMBER) && phase != Setup
      ensures var h := HalfAt(|old(conversions)|);
              converted <==> old(bufferStatus) & AwaitedBit(h) == AwaitedBit(h)
      ensures !converted ==> unchanged(this) && unchanged(pcmBuf) && unchanged(handlers)
      ensures converted ==>
                && conversions == old(conversions) + [HalfAt(|old(conversions)|)]
                && bufferStatus == BUFFER_OFFSET_NONE
                && pcmPtr == PcmPtrAfter(|conversions|)
                && Filtered(old(pdmBuf[..]), HalfStart(HalfAt(|old(conversions)|)), old(pcmBuf[..]), old(handlers[..]),
                            old(pcmPtr), AUDIO_CHANNEL_NUMBER)
                && OutsideChunkUnchanged(old(pcmBuf[..]), old(pcmPtr))
                && cacheLog == old(cacheLog) + ConversionCacheOps(HalfStart(HalfAt(|old(conversions)|)), old(pcmPtr))
    {
      var h := if phase == AwaitHalf then First else Second;
      converted := bufferStatus & AwaitedBit(h) == AwaitedBit(h);
      if converted {
        ConvertHalf(h);
      }
      PcmPtrAfterIsModular(|conversions|);
    }
  }

  /** A FULL event raised while the first half is still being converted is
      dropped by the status clear that follows the first-half conversion: the
      loop then waits for the next one, which converts the second half. */
  method EarlyFullEventIsDropped(lib: FilterLibrary)
  {
    var m := new Loopback(lib);
    m.InitFilters(AUDIO_FREQUENCY, AUDIO_CHANNEL_NUMBER);
    m.StartLoopback();
    BothEventsBeforeFirstConversion(m);
    NextFullEventConvertsSecondHalf(m);
  }

  /** HALF and FULL both raised before the loop sees HALF: the first half is
      converted, and the FULL bit does not survive it. */
  method BothEventsBeforeFirstConversion(m: Loopback)
    requires m.Valid() && m.FiltersReady(AUDIO_CHANNEL_NUMBER)
    requires m.phase == AwaitHalf && m.conversions == []
    modifies m, m.pcmBuf, m.handlers
    ensures m.Valid() && m.FiltersReady(AUDIO_CHANNEL_NUMBER)
    ensures m.phase == AwaitFull && m.conversions == [First] && m.bufferStatus == BUFFER_OFFSET_NONE
  {
    m.RxHalfCpltCallback();
    m.RxCpltCallback();
    var first := m.LoopStep();
    assert first && m.pcmPtr == 32;
    var second := m.LoopStep();
    assert !second;
  }

  /** Once the early event is lost, the next FULL event converts the second
      half into the chunk after the first. */
  method NextFullEventConvertsSecondHalf(m: Loopback)
    requires m.Valid() && m.FiltersReady(AUDIO_CHANNEL_NUMBER)
    requires m.phase == AwaitFull && m.conversions == [First] && m.bufferStatus == BUFFER_OFFSET_NONE
    modifies m, m.pcmBuf, m.handlers
  {
    m.RxCpltCallback();
    var second := m.LoopStep();
    assert second && m.pcmPtr == 64 && m.conversions == [First, Second];
  }
}
