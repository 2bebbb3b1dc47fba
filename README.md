# PDM-to-PCM loopback and SAI clock selection (STM32H7 examples)

This project models, in Dafny, two pieces of the STM32CubeH7 example code.

**The SAI audio playback example (STM32H745I-DISCO, Cortex-M7).** A DMA
channel fills `audioPdmBuf` (256 halfwords) with PDM microphone data in a
circle and raises a half-complete and a complete interrupt. A second DMA
channel drains `audioPcmBuf` (256 halfwords) to the codec. The two callbacks
OR the bits `BUFFER_OFFSET_HALF` and `BUFFER_OFFSET_FULL` into `bufferStatus`.
The main loop works in two steps:

- It waits for HALF, decimates the first capture half into the 32-entry PCM
  chunk at `pcmPtr`, advances `pcmPtr` by 32 and clears the status.
- It waits for FULL and does the same with the second half. Only after this
  second half does it wrap `pcmPtr` to 0 at the end of the buffer.

Each conversion (`AUDIO_IN_PDMToPCM`) does three things:

- It invalidates the cache over the capture half.
- It runs the vendor `PDM_Filter` once per channel. Channel `i` reads from
  byte `i` of the half and writes from PCM entry `i`, interleaved.
- It cleans the cache over the 32-entry chunk.

`AUDIO_IN_PDMToPCM_Init` sets up the two filter handlers and configurations.

The globals of the example are the fields of the class
`SaiAudioPlayback.Loopback`. The callbacks, the conversion, the filter set-up
and the loop body (one half per step) are its methods. A ghost log records the
halves converted and the cache maintenance calls, so that the class invariant
can state the following:

- `pcmPtr` is always `32·n mod 256` after `n` conversions.
- The conversions alternate first half, second half.

The vendor filter library is closed, so it is a parameter. It is a value of
`PdmFilter.FilterLibrary`: three functions (`PDM_Filter_Init`,
`PDM_Filter_setConfig`, `PDM_Filter`) that change only the library memory
inside a handler. What is proved does not depend on what they compute.

**`AUDIO_OUT_ClockConfig` of the USB audio application (STM32H743I-EVAL).**
It is the function `UsbAudioClock.ClockConfig` from the audio frequency and
the read-back RCC structure to the structure passed to
`HAL_RCCEx_PeriphCLKConfig`. For 11.025, 22.05 and 44.1 kHz it selects
PLL2 N = 429, P = 38. For every other frequency it selects N = 344, P = 7.
Both branches set M = 25, Q = R = 1, FRACN = 0 and SAI1 from PLL2 P. With the
25 MHz crystal, SAI1 then runs at exactly 429/38 MHz (about 11.2895 MHz) or
344/7 MHz (about 49.1429 MHz).

The comments beside the two branches of the source give 11.267 MHz and
49.333 MHz. Neither is the quotient the settings give; the lemma
`CommentedClocksAreNotTheQuotients` states the exact values. This is a
comment error only; the code is modelled as written.

The loop has no start/stop operations, no fault state and no overrun
detection. A FULL event raised while the first half is still being converted
is dropped by the status clear that follows that conversion (main.c:188), and
the loop waits for the next FULL event. The methods `EarlyFullEventIsDropped`
and `NextFullEventConvertsSecondHalf` show this sequence.

## Model

| member | source | states |
|---|---|---|
| PdmFilter.LeBytes | Projects/STM32H745I-DISCO/Examples/SAI/SAI_AudioPlayback/CM7/Src/main.c:506 | the filter's `uint8_t*` view of the halfword capture buffer: twice as many bytes, byte 2j the low and byte 2j+1 the high byte of halfword j |
| PdmFilter.LeBytesRoundTrip | Projects/STM32H745I-DISCO/Examples/SAI/SAI_AudioPlayback/CM7/Src/main.c:61-76 | reading the byte view back as little-endian halfwords gives the capture words: the view loses nothing |
| PdmFilter.StoreBlock | Projects/STM32H745I-DISCO/Examples/SAI/SAI_AudioPlayback/CM7/Src/main.c:478-506 | a channel's 16 samples land at `base + stride·k`, and every other PCM entry keeps its value |
| PdmFilter.InterleavedLayout | Projects/STM32H745I-DISCO/Examples/SAI/SAI_AudioPlayback/CM7/Src/main.c:504-507 | sample k of channel i lands at `offset + i + stride·k`; nothing outside `[offset, offset + 16·stride)` changes |
| PdmFilter.InterleavedStep | Projects/STM32H745I-DISCO/Examples/SAI/SAI_AudioPlayback/CM7/Src/main.c:504-507 | running the channels one after the other builds the interleaved buffer, one channel's store at a time |
| PdmFilter.ChannelInputInsideHalf | Projects/STM32H745I-DISCO/Examples/SAI/SAI_AudioPlayback/CM7/Src/main.c:479-485 | the 128 bytes a channel consumes per call (16 samples at decimation 64), every C-th from byte i, lie inside one 256-byte capture half; it bounds every index `ChannelInput` takes, so the bytes handed to `PDM_Filter` are all in the half |
| PdmFilter.StereoInputCoversHalf | Projects/STM32H745I-DISCO/Examples/SAI/SAI_AudioPlayback/CM7/Src/main.c:479-506 | with the example's two interleaved channels every byte b of the half is consumed, as input byte b/2 of channel b mod 2 |
| SaiAudioPlayback.NextPcmPtrModular | Projects/STM32H745I-DISCO/Examples/SAI/SAI_AudioPlayback/CM7/Src/main.c:184-201 | one step of the loop's update (add 32; wrap to 0 only after the second half) takes 32·n mod 256 to 32·(n+1) mod 256 |
| SaiAudioPlayback.PcmPtrAfterIsModular | Projects/STM32H745I-DISCO/Examples/SAI/SAI_AudioPlayback/CM7/Src/main.c:83-201 | after N conversions from pcmPtr = 0, pcmPtr = 32·N mod 256 |
| SaiAudioPlayback.ChunkInBounds | Projects/STM32H745I-DISCO/Examples/SAI/SAI_AudioPlayback/CM7/Src/main.c:182-201 | before each conversion pcmPtr + 32 ≤ 256 and pcmPtr is a multiple of 32: a multiple of 64 before a first half, 64k + 32 before a second half |
| SaiAudioPlayback.CacheRangesMatchHalfAndChunk | Projects/STM32H745I-DISCO/Examples/SAI/SAI_AudioPlayback/CM7/Src/main.c:502-510 | the conversion's invalidate covers exactly the 256 bytes of the capture half read, and its clean exactly the 64 bytes of the 32-entry chunk; 2 channels · 16 samples = 32 |
| SaiAudioPlayback.Loopback.constructor | Projects/STM32H745I-DISCO/Examples/SAI/SAI_AudioPlayback/CM7/Src/main.c:61-86 | the statically initialised globals: zero buffers and filter slots, pcmPtr = 0, status NONE |
| SaiAudioPlayback.Loopback.InitFilters | Projects/STM32H745I-DISCO/Examples/SAI/SAI_AudioPlayback/CM7/Src/main.c:465-488 | for each channel below ChannelNumber (at most 2): MSB first, little endian, high-pass tap 2122358088, in/out channels = ChannelNumber, then init and a config of decimation 64, AudioFreq/1000 samples, gain 24; slots at or above ChannelNumber untouched |
| SaiAudioPlayback.Loopback.FilterChannel | Projects/STM32H745I-DISCO/Examples/SAI/SAI_AudioPlayback/CM7/Src/main.c:506 | one PDM_Filter call: channel i filters the half's bytes from offset i, stores its samples from entry pcmOffset + i every out_ptr_channels entries, and only its handler's library memory changes |
| SaiAudioPlayback.Loopback.FilterChannels | Projects/STM32H745I-DISCO/Examples/SAI/SAI_AudioPlayback/CM7/Src/main.c:504-507 | after the channel loop the PCM buffer is the interleaved output of all channels' filter calls over one capture half, every entry outside the 32-entry chunk keeps its value, and each handler holds its advanced library memory |
| SaiAudioPlayback.Loopback.PdmToPcm | Projects/STM32H745I-DISCO/Examples/SAI/SAI_AudioPlayback/CM7/Src/main.c:497-511 | the PCM buffer becomes the interleaved filter output of the half and the handlers advance their memory; every PCM entry outside the 32-entry chunk keeps its value; the capture buffer is unchanged; the cache log gains the invalidate of the half, then the clean of the chunk |
| SaiAudioPlayback.Loopback.RxHalfCpltCallback | Projects/STM32H745I-DISCO/Examples/SAI/SAI_AudioPlayback/CM7/Src/main.c:548-554 | sets the HALF bit, keeps every other bit, and changes nothing else |
| SaiAudioPlayback.Loopback.RxCpltCallback | Projects/STM32H745I-DISCO/Examples/SAI/SAI_AudioPlayback/CM7/Src/main.c:534-540 | sets the FULL bit, keeps every other bit, and changes nothing else |
| SaiAudioPlayback.Loopback.CaptureHalf | Projects/STM32H745I-DISCO/Examples/SAI/SAI_AudioPlayback/CM7/Src/main.c:161 | the circular capture DMA writing one half: that half takes the new words, the other half is unchanged, and the bytes the next conversion of that half hands the filter are exactly the little-endian bytes of the new words |
| SaiAudioPlayback.Loopback.ClearStatus | Projects/STM32H745I-DISCO/Examples/SAI/SAI_AudioPlayback/CM7/Src/main.c:188 | `bufferStatus &= BUFFER_OFFSET_NONE` leaves NONE whatever bits were set |
| SaiAudioPlayback.Loopback.StartLoopback | Projects/STM32H745I-DISCO/Examples/SAI/SAI_AudioPlayback/CM7/Src/main.c:172-176 | events raised before the loop starts are discarded and the loop waits for HALF |
| SaiAudioPlayback.Loopback.ConvertHalf | Projects/STM32H745I-DISCO/Examples/SAI/SAI_AudioPlayback/CM7/Src/main.c:178-204 | entered with the awaited bit (HALF for the first half, FULL for the second) seen: the PCM buffer becomes the interleaved filter output of capture half h (from entry 0 or 128) at the old pcmPtr, the handlers advance, every PCM entry outside the chunk keeps its value, pcmPtr moves 32 on (wrapping to 0 only after the second half), the status is NONE, the cache log gains the invalidate of that half and the clean of that chunk, the invariant is kept |
| SaiAudioPlayback.Loopback.AdvancePcmPtr | Projects/STM32H745I-DISCO/Examples/SAI/SAI_AudioPlayback/CM7/Src/main.c:184-201 | pcmPtr becomes (pcmPtr + 32) mod 256; after a first half this is pcmPtr + 32 with no wrap, so the missing wrap test loses nothing; the invariant `pcmPtr = 32·n mod 256` is kept |
| SaiAudioPlayback.Loopback.LoopStep | Projects/STM32H745I-DISCO/Examples/SAI/SAI_AudioPlayback/CM7/Src/main.c:176-208 | a conversion happens exactly when the awaited bit is set; otherwise nothing changes; a conversion is of the next half in alternation, writes the interleaved filter output of that half into the chunk at the old pcmPtr and nothing else of the PCM buffer, advances the handlers, logs the two cache calls, clears the status and leaves pcmPtr = 32·n mod 256 |
| UsbAudioClock.ClockConfig | Projects/STM32H743I-EVAL/Applications/USB_Device/Audio_Standalone/Src/main.c:92-136 | N = 429, P = 38 exactly for 11K, 22K and 44K, else N = 344, P = 7; always M = 25, Q = R = 1, FRACN = 0, SAI1 from PLL2; the other read-back fields pass through unchanged |
| UsbAudioClock.ClockConfigSaiClock | Projects/STM32H743I-EVAL/Applications/USB_Device/Audio_Standalone/Src/main.c:100-135 | VCO input 1 MHz and SAI1 clock exactly 429/38 MHz or 344/7 MHz |
| UsbAudioClock.CommentedClocksAreNotTheQuotients | Projects/STM32H743I-EVAL/Applications/USB_Device/Audio_Standalone/Src/main.c:103-125 | 429/38 is about 11.2895 (not 11.267) and 344/7 about 49.1429 (not 49.333) |
| UsbAudioClock.SaiClockNearSampleRateMultiple | Projects/STM32H743I-EVAL/Applications/USB_Device/Audio_Standalone/Src/main.c:100-135 | the selected clock is within 130 Hz below 11.2896 MHz (1024 · 11025 Hz), or within 9200 Hz below 49.152 MHz (1024 · 48000 Hz) |
| UsbAudioClock.ClockConfigDependsOnlyOnFrequency | Projects/STM32H743I-EVAL/Applications/USB_Device/Audio_Standalone/Src/main.c:92-136 | the result depends only on the frequency and on the read-back fields it does not write; the SAI handle and Params play no part |

## Left out

- The arithmetic inside `PDM_Filter`, `PDM_Filter_Init` and `PDM_Filter_setConfig` is a closed vendor library. It is a parameter, and the model assumes three things about it. First, it changes only its own memory inside a handler. Second, each `PDM_Filter` call yields exactly `output_samples_number` = 16 samples per channel (the subset type `ChannelBlock`). Third, a call reads only the 128 bytes its channel consumes (every `in_ptr_channels`-th byte from its input pointer, `ChannelInput`), and writes its 16 samples at every `out_ptr_channels`-th entry from its output pointer and nothing else of the PCM buffer (`FilterChannel`'s body). The frame property of a conversion, that nothing outside the 32-entry chunk changes, rests on this third assumption. The status codes these calls return are ignored by the source and are not modelled.
- Cache maintenance (`SCB_InvalidateDCache_by_Addr`, `SCB_CleanDCache_by_Addr`, `CPU_CACHE_Enable`) has no semantics here. Only the address ranges of the calls and their order are recorded, in a ghost log.
- Interrupt concurrency is not modelled. Each callback is an atomic step between loop steps, and each busy-wait is a guard (`LoopStep`) or a precondition (`ConvertHalf`).
- The capture DMA is modelled only as `CaptureHalf`, a step that writes one whole half at once; its timing against the callbacks is not modelled, and neither are the DMA reads from `audioPcmBuf`. The conversion contracts hold for whatever the capture buffer holds.
- `pcmPtr` is a `nat` rather than a `uint32_t`. The invariant keeps it below 256, so 32-bit wrap-around cannot arise.
- `AUDIO_PDM_GET_FS_FREQUENCY` (main.c:47) is used only in `Playback_Init`'s SAI set-up, which is left out below, so it is not modelled.
- The LED toggle, `Error_Handler`, `assert_failed` and the `HAL_SAI_Receive_DMA`/`HAL_SAI_Transmit_DMA` starts are not modelled. Neither are `SystemClock_Config`, `Playback_Init`'s SAI register set-up, `MPU_Config`, `WM8994_Probe` and the codec calls. These are hardware and driver calls with no logic of their own.
- The USB application's `main` is not modelled. It is only device-stack start-up calls and an empty loop.
- `UsbAudioClock.ClockConfig` does not model the return values of `HAL_RCCEx_GetPeriphCLKConfig` and `HAL_RCCEx_PeriphCLKConfig`, or the RCC registers. The source ignores those values, and the register programming is the HAL's.
- The values 11025, 22050 and 44100 of `AUDIO_FREQUENCY_11K/22K/44K` come from the board's audio BSP header, which is not part of this model.
