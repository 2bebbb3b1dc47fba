/** AUDIO_OUT_ClockConfig of the USB device audio application on the
    STM32H743I-EVAL board: picks the PLL2 settings that clock SAI1 for a
    given audio frequency.  The structure read back from the RCC is changed
    in the SAI1 and PLL2 fields and handed, otherwise as read, to the one
    HAL_RCCEx_PeriphCLKConfig call; the function below returns that
    structure.  The SAI handle and the extra parameter of the C function are
    not used by it and are not parameters here. */
module UsbAudioClock {

  /** The frequencies of the board's audio interface (its BSP header) that
      the function tests for. */
  const AUDIO_FREQUENCY_11K: nat := 11025
  const AUDIO_FREQUENCY_22K: nat := 22050
  const AUDIO_FREQUENCY_44K: nat := 44100

  /** The external crystal: 25 MHz. */
  const HSE_VALUE: nat := 25000000

  /** Peripherals named in RCC_PeriphCLKInitTypeDef.PeriphClockSelection. */
  datatype Peripheral = Sai1 | Sai23 | Sai4A | Sai4B | OtherPeripheral(bit: nat)

  /** RCC_SAI1CLKSOURCE_*: PLL1 Q, PLL2 P, PLL3 P, the external pin, the per_ck clock. */
  datatype Sai1ClockSource = Pll1Q | Pll2P | Pll3P | Pin | PerClock

  /** RCC_PLL2InitTypeDef. */
  datatype Pll2Init = Pll2Init(m: nat, n: nat, p: nat, q: nat, r: nat, rge: nat, vcosel: nat, fracn: nat)

  /** RCC_PeriphCLKInitTypeDef: the fields this function writes, and the
      value of every other field, in declaration order. */
  datatype PeriphClkInit = PeriphClkInit(
    periphClockSelection: set<Peripheral>,
    sai1ClockSelection: Sai1ClockSource,
    pll2: Pll2Init,
    otherFields: seq<int>)

  /** The frequencies served from the 11.2896 MHz family. */
  predicate IsElevenKFamily(audioFreq: nat)
  {
    audioFreq == AUDIO_FREQUENCY_11K || audioFreq == AUDIO_FREQUENCY_22K || audioFreq == AUDIO_FREQUENCY_44K
  }

  /** The structure AUDIO_OUT_ClockConfig passes to HAL_RCCEx_PeriphCLKConfig,
      given the frequency and the structure HAL_RCCEx_GetPeriphCLKConfig read. */
  function ClockConfig(audioFreq: nat, readBack: PeriphClkInit): (r: PeriphClkInit)
    ensures r.periphClockSelection == {Sai1} && r.sai1ClockSelection == Pll2P
    ensures r.pll2.m == 25 && r.pll2.q == 1 && r.pll2.r == 1 && r.pll2.fracn == 0
    ensures IsElevenKFamily(audioFreq) <==> r.pll2.n == 429
    ensures IsElevenKFamily(audioFreq) ==> r.pll2.p == 38
    ensures !IsElevenKFamily(audioFreq) ==> r.pll2.n == 344 && r.pll2.p == 7
    ensures r.pll2.rge == readBack.pll2.rge && r.pll2.vcosel == readBack.pll2.vcosel
    ensures r.otherFields == readBack.otherFields
  {
    if IsElevenKFamily(audioFreq) then
      readBack.(periphClockSelection := {Sai1}, sai1ClockSelection := Pll2P,
                pll2 := readBack.pll2.(p := 38, q := 1, r := 1, n := 429, fracn := 0, m := 25))
    else
      readBack.(periphClockSelection := {Sai1}, sai1ClockSelection := Pll2P,
                pll2 := readBack.pll2.(p := 7, q := 1, r := 1, n := 344, fracn := 0, m := 25))
  }

  /** The PLL2 P output in Hz: (HSE / M) * (N + FRACN / 2^13) / P. */
  function Pll2PClockHz(hse: nat, pll: Pll2Init): real
    requires pll.m > 0 && pll.p > 0
  {
    (hse as real / pll.m as real) * (pll.n as real + pll.fracn as real / 8192.0) / pll.p as real
  }

  /** The VCO input is 1 MHz, and SAI1 runs at exactly 429/38 MHz for the
      11.025 kHz family and 344/7 MHz otherwise. */
  lemma ClockConfigSaiClock(audioFreq: nat, readBack: PeriphClkInit)
    ensures var pll := ClockConfig(audioFreq, readBack).pll2;
            && HSE_VALUE as real / pll.m as real == 1000000.0
            && Pll2PClockHz(HSE_VALUE, pll)
               == if IsElevenKFamily(audioFreq) then 429000000.0 / 38.0 else 344000000.0 / 7.0
  {
    var pll := ClockConfig(audioFreq, readBack).pll2;
    assert HSE_VALUE as real / pll.m as real == 1000000.0;
    assert pll.n as real + pll.fracn as real / 8192.0 == pll.n as real;
  }

  /** The clock values written in the comments beside the two branches
      (11.267 MHz and 49.333 MHz) are not the quotients the settings give. */
  lemma CommentedClocksAreNotTheQuotients()
    ensures 429.0 / 38.0 != 11.267 && 11.289 < 429.0 / 38.0 < 11.290
    ensures 344.0 / 7.0 != 49.333 && 49.142 < 344.0 / 7.0 < 49.143
  {
  }

  /** What the two settings aim at: 11.2896 MHz = 1024 * 11025 = 512 * 22050
      = 256 * 44100 Hz, within 130 Hz, and 49.152 MHz = 6144 * 8000 =
      3072 * 16000 = 1024 * 48000 = 512 * 96000 Hz, within 9200 Hz. */
  lemma SaiClockNearSampleRateMultiple(audioFreq: nat, readBack: PeriphClkInit)
    ensures var clock := Pll2PClockHz(HSE_VALUE, ClockConfig(audioFreq, readBack).pll2);
            var target := if IsElevenKFamily(audioFreq) then 11289600.0 else 49152000.0;
            && (IsElevenKFamily(audioFreq) ==> clock <= target && target - clock < 130.0)
            && (!IsElevenKFamily(audioFreq) ==> clock <= target && target - clock < 9200.0)
  {
    ClockConfigSaiClock(audioFreq, readBack);
  }

  /** The structure passed on depends on nothing but the frequency and the
      fields of the read-back structure the function does not write. */
  lemma ClockConfigDependsOnlyOnFrequency(audioFreq: nat, a: PeriphClkInit, b: PeriphClkInit)
    requires a.pll2.rge == b.pll2.rge && a.pll2.vcosel == b.pll2.vcosel && a.otherFields == b.otherFields
    ensures ClockConfig(audioFreq, a) == ClockConfig(audioFreq, b)
  {
  }
}
