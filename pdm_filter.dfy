/** The PDM-to-PCM decimation filter as the SAI playback example uses it.
    The vendor library (PDM_Filter_Init, PDM_Filter_setConfig, PDM_Filter) is
    closed: it is modelled as three function values that act only on the
    library's private memory inside a handler.  What the example relies on is
    stated here: the little-endian byte view of the 16-bit capture words, and
    where a channel's output samples land in the PCM buffer (every
    `out_ptr_channels`-th entry, starting at the channel's own offset). */
module PdmFilter {

  /** Output samples produced per channel and per call: output_samples_number,
      which the example sets to AudioFreq/1000 = 16000/1000. */
  const OUTPUT_SAMPLES: nat := 16

  /** PDM_FilterHandler[2] and PDM_FilterConfig[2]: two filter slots. */
  const FILTER_SLOTS: nat := 2

  /** PDM_FILTER_DEC_FACTOR_64, written as the decimation ratio it selects. */
  const DEC_FACTOR_64: nat := 64

  datatype BitOrder = Lsb | Msb                    // PDM_FILTER_BIT_ORDER_LSB = 0, _MSB = 1
  datatype Endianness = LittleEndian | BigEndian   // PDM_FILTER_ENDIANNESS_LE = 0, _BE = 1

  /** The library-private part of a handler (its internal memory words). */
  datatype FilterMemory = FilterMemory(words: seq<bv32>)

  /** PDM_Filter_Handler_t: the fields the application fills in, then the
      library's memory. */
  datatype FilterHandler = FilterHandler(
    bitOrder: BitOrder,
    endianness: Endianness,
    highPassTap: int,
    outPtrChannels: nat,
    inPtrChannels: nat,
    memory: FilterMemory)

  /** PDM_Filter_Config_t. */
  datatype FilterConfig = FilterConfig(
    decimationFactor: nat,
    outputSamplesNumber: nat,
    micGain: int)

  /** The zero-initialised static handler and configuration. */
  const ZERO_HANDLER := FilterHandler(Lsb, LittleEndian, 0, 0, 0, FilterMemory([]))
  const ZERO_CONFIG := FilterConfig(0, 0, 0)

  /** One channel's output of one PDM_Filter call. */
  type ChannelBlock = s: seq<bv16> | |s| == OUTPUT_SAMPLES
    witness seq(OUTPUT_SAMPLES, k => 0 as bv16)

  datatype FilterStep = FilterStep(pcm: ChannelBlock, memory: FilterMemory)

  /** The closed vendor library.  `filter` receives the capture bytes the
      channel consumes (`ChannelInput`: every in_ptr_channels-th byte of the
      half from the channel's first) and the channel's handler. */
  datatype FilterLibrary = FilterLibrary(
    init: FilterHandler -> FilterMemory,                      // PDM_Filter_Init
    setConfig: (FilterHandler, FilterConfig) -> FilterMemory, // PDM_Filter_setConfig
    filter: (seq<bv8>, FilterHandler) -> FilterStep)          // PDM_Filter

  // ---------------------------------------------------------------------------
  // Byte view of the 16-bit capture buffer (the filter is handed a uint8_t*)
  // ---------------------------------------------------------------------------

  function Low(w: bv16): bv8 { (w & 0xFF) as bv8 }
  function High(w: bv16): bv8 { (w >> 8) as bv8 }
  function Join(lo: bv8, hi: bv8): bv16 { ((hi as bv16) << 8) | (lo as bv16) }

  lemma JoinSplit(w: bv16)
    ensures Join(Low(w), High(w)) == w
  {
  }

  /** The bytes of a run of halfwords in memory order on a little-endian core. */
  function LeBytes(words: seq<bv16>): (bytes: seq<bv8>)
    ensures |bytes| == 2 * |words|
    ensures forall j :: 0 <= j < |words| ==> bytes[2 * j] == Low(words[j]) && bytes[2 * j + 1] == High(words[j])
  {
    seq(2 * |words|, n requires 0 <= n < 2 * |words| =>
          if n % 2 == 0 then Low(words[n / 2]) else High(words[n / 2]))
  }

  /** Reads a byte run back as halfwords; the reference the byte view is checked against. */
  function LeWords(bytes: seq<bv8>): (words: seq<bv16>)
    requires |bytes| % 2 == 0
    ensures |words| == |bytes| / 2
  {
    if bytes == [] then [] else [Join(bytes[0], bytes[1])] + LeWords(bytes[2..])
  }

  /** Halfword j read back is made of bytes 2j and 2j+1. */
  lemma {:induction false} LeWordsAt(bytes: seq<bv8>, j: nat)
    requires |bytes| % 2 == 0 && j < |bytes| / 2
    ensures LeWords(bytes)[j] == Join(bytes[2 * j], bytes[2 * j + 1])
  {
    if j > 0 {
      LeWordsAt(bytes[2..], j - 1);
    }
  }

  /** The byte view loses nothing: reading it back gives the capture words. */
  lemma LeBytesRoundTrip(words: seq<bv16>)
    ensures LeWords(LeBytes(words)) == words
  {
    var bytes := LeBytes(words);
    forall j | 0 <= j < |words|
      ensures LeWords(bytes)[j] == words[j]
    {
      LeWordsAt(bytes, j);
      assert bytes[2 * j] == Low(words[j]) && bytes[2 * j + 1] == High(words[j]);
      JoinSplit(words[j]);
    }
    assert |LeWords(bytes)| == |words|;
  }

  // ---------------------------------------------------------------------------
  // Where PDM_Filter writes a channel's samples
  // ---------------------------------------------------------------------------

  /** Lane and sample number of entry `q` of a chunk with `stride` lanes,
      that is q % stride and q / stride, written out for the one- and
      two-lane layouts the two filter slots allow. */
  function LaneOf(q: int, stride: nat): int
    requires 1 <= stride <= FILTER_SLOTS
  {
    if stride == 1 then 0 else q % 2
  }

  function SampleOf(q: int, stride: nat): int
    requires 1 <= stride <= FILTER_SLOTS
  {
    if stride == 1 then q else q / 2
  }

  lemma LaneAndSampleAreModAndDiv(q: int, stride: nat)
    requires 1 <= stride <= FILTER_SLOTS
    ensures LaneOf(q, stride) == q % stride && SampleOf(q, stride) == q / stride
  {
  }

  /** Position `p` is the slot of some sample of a block written from `base`
      with stride `stride`. */
  predicate IsSlot(p: int, base: nat, stride: nat)
    requires 1 <= stride <= FILTER_SLOTS
  {
    base <= p && LaneOf(p - base, stride) == 0 && SampleOf(p - base, stride) < OUTPUT_SAMPLES
  }

  /** Entry `i + stride * k` of a chunk is sample k of lane i. */
  lemma LaneIndex(i: nat, stride: nat, k: nat)
    requires 1 <= stride <= FILTER_SLOTS && i < stride
    ensures LaneOf(i + stride * k, stride) == i && SampleOf(i + stride * k, stride) == k
  {
    if stride == 2 {
      assert i + stride * k == i + 2 * k;
    }
  }

  /** Entry `q` of a chunk is in lane `i` exactly when it is a slot of the
      block written from `i`, and then that block's sample at q is the
      lane's sample number. */
  lemma LaneSlot(q: int, i: nat, stride: nat)
    requires 1 <= stride <= FILTER_SLOTS && i < stride && 0 <= q
    ensures (LaneOf(q, stride) == i && SampleOf(q, stride) < OUTPUT_SAMPLES) <==> IsSlot(q, i, stride)
    ensures LaneOf(q, stride) == i ==> SampleOf(q - i, stride) == SampleOf(q, stride)
  {
  }

  /** The PCM buffer after one channel's block is stored from `base`, one
      sample every `stride` entries. */
  function StoreBlock(pcm: seq<bv16>, base: nat, stride: nat, block: ChannelBlock): (r: seq<bv16>)
    requires 1 <= stride <= FILTER_SLOTS
    requires base + stride * (OUTPUT_SAMPLES - 1) < |pcm|
    ensures |r| == |pcm|
    ensures forall k :: 0 <= k < OUTPUT_SAMPLES ==> r[base + stride * k] == block[k]
    ensures forall p :: 0 <= p < |pcm| && !IsSlot(p, base, stride) ==> r[p] == pcm[p]
  {
    var r := seq(|pcm|, p requires 0 <= p < |pcm| =>
                   if IsSlot(p, base, stride) then block[SampleOf(p - base, stride)] else pcm[p]);
    forall k | 0 <= k < OUTPUT_SAMPLES
      ensures r[base + stride * k] == block[k]
    {
      LaneIndex(0, stride, k);
      assert base + stride * k - base == 0 + stride * k;
    }
    r
  }

  /** The PCM buffer after the blocks of channels 0 .. |blocks|-1 are stored:
      the chunk from `offset` has `stride` lanes, lane `i` holding channel
      `i`'s samples; lanes without a block keep their values. */
  function Interleaved(pcm: seq<bv16>, offset: nat, stride: nat, blocks: seq<ChannelBlock>): (r: seq<bv16>)
    requires |blocks| <= stride <= FILTER_SLOTS
    requires offset + stride * OUTPUT_SAMPLES <= |pcm|
    ensures |r| == |pcm|
    ensures blocks == [] ==> r == pcm
  {
    if stride == 0 || blocks == [] then pcm
    else
      seq(|pcm|, p requires 0 <= p < |pcm| =>
            if offset <= p && SampleOf(p - offset, stride) < OUTPUT_SAMPLES && LaneOf(p - offset, stride) < |blocks|
            then blocks[LaneOf(p - offset, stride)][SampleOf(p - offset, stride)]
            else pcm[p])
  }

  /** Sample k of channel i lands at `offset + i + stride * k`, and nothing
      outside the `stride * 16` entries from `offset` changes. */
  lemma InterleavedLayout(pcm: seq<bv16>, offset: nat, stride: nat, blocks: seq<ChannelBlock>)
    requires |blocks| <= stride <= FILTER_SLOTS
    requires offset + stride * OUTPUT_SAMPLES <= |pcm|
    ensures var r := Interleaved(pcm, offset, stride, blocks);
            && (forall i, k :: 0 <= i < |blocks| && 0 <= k < OUTPUT_SAMPLES ==> r[offset + i + stride * k] == blocks[i][k])
            && (forall p :: 0 <= p < |pcm| && !(offset <= p < offset + stride * OUTPUT_SAMPLES) ==> r[p] == pcm[p])
  {
    var r := Interleaved(pcm, offset, stride, blocks);
    if stride > 0 {
      forall i, k | 0 <= i < |blocks| && 0 <= k < OUTPUT_SAMPLES
        ensures r[offset + i + stride * k] == blocks[i][k]
      {
        LaneIndex(i, stride, k);
        assert offset + i + stride * k - offset == i + stride * k;
      }
      forall p | 0 <= p < |pcm| && !(offset <= p < offset + stride * OUTPUT_SAMPLES)
        ensures r[p] == pcm[p]
      {
        if offset <= p {
          assert stride * OUTPUT_SAMPLES == 16 * stride;
          assert SampleOf(p - offset, stride) >= OUTPUT_SAMPLES;
        }
      }
    }
  }

  /** Storing the blocks one channel after the other builds the interleaved buffer. */
  lemma InterleavedStep(pcm: seq<bv16>, offset: nat, stride: nat, blocks: seq<ChannelBlock>, i: nat)
    requires i < |blocks| <= stride <= FILTER_SLOTS
    requires offset + stride * OUTPUT_SAMPLES <= |pcm|
    ensures offset + i + stride * (OUTPUT_SAMPLES - 1) < |pcm|
    ensures Interleaved(pcm, offset, stride, blocks[..i + 1])
            == StoreBlock(Interleaved(pcm, offset, stride, blocks[..i]), offset + i, stride, blocks[i])
  {
    assert stride * OUTPUT_SAMPLES == 16 * stride && stride * (OUTPUT_SAMPLES - 1) == 15 * stride;
    var after := Interleaved(pcm, offset, stride, blocks[..i + 1]);
    var stored := StoreBlock(Interleaved(pcm, offset, stride, blocks[..i]), offset + i, stride, blocks[i]);
    forall p | 0 <= p < |pcm|
      ensures after[p] == stored[p]
    {
      InterleavedStepAt(pcm, offset, stride, blocks, i, p);
    }
    assert after == stored;
  }

  /** InterleavedStep at one entry `p`. */
  lemma InterleavedStepAt(pcm: seq<bv16>, offset: nat, stride: nat, blocks: seq<ChannelBlock>, i: nat, p: nat)
    requires i < |blocks| <= stride <= FILTER_SLOTS
    requires offset + stride * OUTPUT_SAMPLES <= |pcm| && p < |pcm|
    ensures offset + i + stride * (OUTPUT_SAMPLES - 1) < |pcm|
    ensures Interleaved(pcm, offset, stride, blocks[..i + 1])[p]
            == StoreBlock(Interleaved(pcm, offset, stride, blocks[..i]), offset + i, stride, blocks[i])[p]
  {
    assert stride * OUTPUT_SAMPLES == 16 * stride && stride * (OUTPUT_SAMPLES - 1) == 15 * stride;
    if IsSlot(p, offset + i, stride) {
      NewLaneAt(pcm, offset, stride, blocks, i, p);
    } else {
      OtherLanesAt(pcm, offset, stride, blocks, i, p);
    }
  }

  /** A slot of lane `i` takes channel i's sample when block i is added. */
  lemma NewLaneAt(pcm: seq<bv16>, offset: nat, stride: nat, blocks: seq<ChannelBlock>, i: nat, p: nat)
    requires i < |blocks| <= stride <= FILTER_SLOTS
    requires offset + stride * OUTPUT_SAMPLES <= |pcm| && p < |pcm|
    requires IsSlot(p, offset + i, stride)
    ensures Interleaved(pcm, offset, stride, blocks[..i + 1])[p] == blocks[i][SampleOf(p - (offset + i), stride)]
  {
    var q := p - offset;
    LaneSlot(q, i, stride);
    assert IsSlot(q, i, stride);
    assert blocks[..i + 1][i] == blocks[i];
  }

  /** Adding block i leaves every entry off lane i's slots as it was. */
  lemma OtherLanesAt(pcm: seq<bv16>, offset: nat, stride: nat, blocks: seq<ChannelBlock>, i: nat, p: nat)
    requires i < |blocks| <= stride <= FILTER_SLOTS
    requires offset + stride * OUTPUT_SAMPLES <= |pcm| && p < |pcm|
    requires !IsSlot(p, offset + i, stride)
    ensures Interleaved(pcm, offset, stride, blocks[..i + 1])[p] == Interleaved(pcm, offset, stride, blocks[..i])[p]
  {
    if offset <= p {
      var q := p - offset;
      LaneSlot(q, i, stride);
      assert !IsSlot(q, i, stride);
      if LaneOf(q, stride) < i {
        assert blocks[..i + 1][LaneOf(q, stride)] == blocks[..i][LaneOf(q, stride)];
      }
    }
  }

  /** PDM bytes one channel consumes per call: 16 samples decimated by 64 are
      1024 PDM bits. */
  const INPUT_BYTES_PER_CHANNEL: nat := OUTPUT_SAMPLES * DEC_FACTOR_64 / 8

  /** Every byte channel `i` consumes (bytes i, i + C, i + 2C, ..., 128 of them)
      lies inside a 256-byte capture half, so inside the slice it is handed. */
  lemma ChannelInputInsideHalf(channels: nat, i: nat, k: nat)
    requires 1 <= channels <= FILTER_SLOTS && i < channels
    requires k < INPUT_BYTES_PER_CHANNEL
    ensures i + channels * k < FILTER_SLOTS * INPUT_BYTES_PER_CHANNEL
  {
  }

  /** The bytes channel `i` of `channels` interleaved channels consumes from
      a capture half: bytes i, i + channels, i + 2 * channels, ..., 128 of them. */
  function ChannelInput(half: seq<bv8>, i: nat, channels: nat): (input: seq<bv8>)
    requires 1 <= channels <= FILTER_SLOTS && i < channels
    requires |half| == FILTER_SLOTS * INPUT_BYTES_PER_CHANNEL
    ensures |input| == INPUT_BYTES_PER_CHANNEL
  {
    seq(INPUT_BYTES_PER_CHANNEL, k requires 0 <= k < INPUT_BYTES_PER_CHANNEL =>
          ChannelInputInsideHalf(channels, i, k); half[i + channels * k])
  }

  /** With two channels every byte of the half is consumed: byte b is input
      byte b / 2 of channel b % 2. */
  lemma StereoInputCoversHalf(half: seq<bv8>, b: nat)
    requires |half| == FILTER_SLOTS * INPUT_BYTES_PER_CHANNEL && b < |half|
    ensures ChannelInput(half, b % 2, 2)[b / 2] == half[b]
  {
  }
}
