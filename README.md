# BSA stream buffers

A Dafny model of the real-time BSA (beam synchronous acquisition) stream
buffers in `BSAStreamBuffers.py`:

- `BSAStreamBuffer` keeps a 2800-sample ring buffer for one channel. It is
  seeded from a history snapshot and then fed one value per update. Missed
  pulses are padded with NaN, worked out from the 14-bit pulse ID in the
  low bits of each update's nanoseconds field.
- `dualBSAStreamBuffer.get_data` reads two such buffers. It aligns them by
  the sample offset between their latest pulse IDs, allowing for the
  point where the ID counter wraps.

Modules, in dependency order:

- `Scalars`: the float model and Python's scalar operations (`int()`
  truncation, `&` on naturals, and `min`).
- `PulseIds`: `ns_to_pulse_ID` and the `% 2**14` wrap.
- `Ring`: numpy `roll`, `b[-k:] = nan`, and `_push_to_ring_buffer`. Each
  has a meaning on sequences and is carried out on arrays.
- `Beamlines`: the configuration tables and the history channel name.
- `Rates`: `_rate_update` and its derived timing constants.
- `StreamBuffers`: the `StreamBuffer` class (`BSAStreamBuffer`).
- `DualStreams`: the alignment function and the `DualStreamBuffer` class.

How the model represents values:

- A float64 is `Float = NaN | Real(r)`, with exact real arithmetic. NaN
  marks missing samples and the derived quantities at a zero rate.
- `int()` on NaN, a negative `ndarray` dimension and division by zero
  raise. They appear as `PyError` values: `Stream` returns `raised`, and
  `Align` and `GetData` return `Fails` and `Raised`.
- Buffers are arrays. Every update builds a fresh array, as `deepcopy`
  and `roll` do, so a buffer that `get_data` has already returned is
  never written again. `Stream` proves this.

Where the code differs from its documentation, the model follows the code:

- **The sign of the shot offset.** The offset takes the sign of `dp`, and
  the rollover reading only contributes a magnitude. A raw count of 2727
  samples at modulus 2730 therefore gives +3, not −3 (see
  `RolloverKeepsSignOfDelta`). For `dp < 0` the rollover reading never
  wins (see `NegativeDeltaIsDirect`).
- **The history suffix.** The `elif` that would pick `HH`/`BR` is never
  reached, because every facility maximum is at least 10 Hz. Only `1H` and
  `TH` occur (see `HistorySuffixTwoBuckets`).
- **Lag of the previous cursor.** `_p_prev` trails the latest ID by one
  update, so an on-time update still computes a jump of 1 and pads one NaN
  (see `OnTimeUpdatePadsOne`).
- **A zero rate at initialisation.** This leaves `_p_prev` as NaN. Every
  later update that passes the rate check then raises in `int()` and
  changes nothing (see `StreamBuffer.Stream`).
- **Pairing across the wrap.** When the rollover reading wins, the offset
  keeps the sign of `dp`. A rollover offset `o` then pairs slots that lie
  between `2o − 1` and `2o + 1` samples apart in nominal ID, where they
  should be within one sample (see `RolloverPairsApart`). With `o = 1`
  that is two samples (see `RolloverPairsAcrossTheWrap`).
- **A subsample lag.** When the raw pulse IDs differ by less than one
  sample, with no wrap between them, the offset is 0. `get_data` then
  returns a 2×2800 array that no branch fills (see
  `SubSampleDeltaIsUnfilled`). Across the wrap, the same half-sample lag
  gives a raw difference near 2^14 and a large offset instead.

## Model

| member | source | states |
|---|---|---|
| PulseIds.NsToPulseId | BSAStreamBuffers.py:41-43 | the pulse ID is the nanoseconds value modulo 2^14, so it lies in [0, 16384); the mask `& 0x3fff` is proved equal to that remainder |
| PulseIds.PulseIdPeriodic | BSAStreamBuffers.py:41-43 | adding any multiple of 2^14 nanoseconds leaves the pulse ID unchanged |
| PulseIds.PulseIdOfSmall | BSAStreamBuffers.py:41-43 | a nanoseconds value below 2^14 is its own pulse ID |
| PulseIds.WrapId | BSAStreamBuffers.py:137 | Python's float `% 2**14` lands in [0, 16384) and differs from its argument by a whole number of periods |
| PulseIds.WrapIdPeriodic | BSAStreamBuffers.py:137 | shifting the argument by whole periods does not change the wrapped ID |
| Scalars.Trunc | BSAStreamBuffers.py:138 | `int()` of a float rounds toward zero: within one of x, on the same side of zero |
| Scalars.TruncError | BSAStreamBuffers.py:256-257 | truncation moves a value by less than one and never increases its magnitude |
| Scalars.MaskIsMod | BSAStreamBuffers.py:43 | masking with 2^k − 1 is the remainder modulo 2^k |
| Scalars.BitAnd | BSAStreamBuffers.py:43 | `a & b` is no larger than either operand |
| Scalars.Min | BSAStreamBuffers.py:93 | `min` of two rates is one of them and no larger than either |
| Scalars.MinInt | BSAStreamBuffers.py:248 | `min(p1, p2)` is one of the two IDs and no larger than either |
| Ring.Roll | BSAStreamBuffers.py:45 | numpy `roll` keeps the length |
| Ring.RollAt | BSAStreamBuffers.py:45 | element j of `roll(b, s)` is element (j − s) mod n of b |
| Ring.RollInverse | BSAStreamBuffers.py:142 | rolling back by the same shift restores the buffer |
| Ring.Push | BSAStreamBuffers.py:45 | `_push_to_ring_buffer` keeps the length, moves every sample one slot older and puts the value last |
| Ring.FillTail | BSAStreamBuffers.py:143 | `b[-k:] = nan` keeps the length, sets the slots from n − k on to NaN and keeps the others |
| Ring.GapPad | BSAStreamBuffers.py:139-143 | the gap padding keeps the buffer length (its contents are given by `GapPadSpec`) |
| Ring.GapPadSpec | BSAStreamBuffers.py:139-143 | a jump ≤ 0 leaves the buffer alone; a jump of k < n shifts the data left by k and NaN-fills the last k slots; a jump ≥ n makes the whole buffer NaN |
| Ring.PaddedPushSpec | BSAStreamBuffers.py:139-150 | gap padding then push: the new value is last, and the older data is shifted by jump + 1 behind the NaN gap (by one with no gap; entirely NaN for a jump ≥ n) |
| Ring.CopyArray | BSAStreamBuffers.py:136 | `deepcopy` gives a fresh array with the same contents |
| Ring.RollArray | BSAStreamBuffers.py:142 | the array `roll` gives a fresh array holding `Roll` of the input |
| Ring.FillTailInPlace | BSAStreamBuffers.py:143 | the slice assignment sets the last k slots (all slots when k ≥ n) to NaN and nothing else |
| Ring.PadArray | BSAStreamBuffers.py:136-143 | the padded copy is fresh and holds `GapPad` of the current buffer |
| Ring.PushArray | BSAStreamBuffers.py:45 | the pushed copy is fresh and holds `Push` of its input |
| Beamlines.Name | BSAStreamBuffers.py:18-25 | each configuration key is two to seven characters, starts with the facility prefix `NC`, `SC` or `F2`, and is exactly `F2` for FACET-II and no other line |
| Beamlines.ParseBeamlineCorrect | BSAStreamBuffers.py:174 | a string is accepted as a beamline exactly when it is that beamline's key |
| Beamlines.ParseRejectsUnknown | BSAStreamBuffers.py:174 | any other string is rejected |
| Beamlines.ParseBeamline | BSAStreamBuffers.py:174 | an accepted name is the key of the beamline it yields |
| Beamlines.HistoryEdef | BSAStreamBuffers.py:18-25 | every history event definition starts with `HST` |
| Beamlines.Facility | BSAStreamBuffers.py:36 | `beamline[:2]` is `NC` for the two NC lines, `F2` for FACET-II and `SC` for the three SC lines |
| Beamlines.MaxRate | BSAStreamBuffers.py:36 | every facility maximum is at least 10 Hz |
| Beamlines.MaxRateTable | BSAStreamBuffers.py:36 | lookup by `beamline[:2]` gives 120 Hz for NC lines, 102 Hz for SC lines and 30 Hz for F2 |
| Beamlines.HistorySuffixTwoBuckets | BSAStreamBuffers.py:95-99 | the suffix is `TH` from 10 Hz and `1H` below; `HH` and `BR` are never chosen |
| Beamlines.HistorySuffix | BSAStreamBuffers.py:95-99 | the suffix has two letters and is `TH` exactly from 10 Hz |
| Beamlines.HistoryPvName | BSAStreamBuffers.py:100-102 | the history channel is the channel, then the beamline's edef, then `TH` from 10 Hz and `1H` below |
| Beamlines.HistoryPvNameExample | BSAStreamBuffers.py:18-25 | at 120 Hz on NC_HXR the documented channel reads `…AIMAXHSTCUHTH` |
| Rates.Derive | BSAStreamBuffers.py:157-162 | the rate is clamped to the maximum; a zero value makes spacing, ticks per sample and modulus NaN, otherwise none are; spacing × rate = 1 and ticks × rate = 360; for a positive reading, the modulus is a whole number with modulus × ticks ≤ 2^14 < (modulus + 1) × ticks |
| Rates.ModulusBounds | BSAStreamBuffers.py:162 | `floor(2**14 / tps)` samples fit within one ID period and one more does not |
| Rates.DeriveIdempotent | BSAStreamBuffers.py:93-94 | re-deriving from the clamped rate at initialisation gives the same settings as a direct rate update |
| Rates.NormalConductingTable | BSAStreamBuffers.py:157-162 | 120, 60, 30 and 10 Hz give ticks 3, 6, 12, 36 and moduli 5461, 2730, 1365, 455 |
| Rates.ClampedRates | BSAStreamBuffers.py:159 | a reading above the maximum is clamped; at 102 Hz the ticks per sample are 60/17 and the modulus 4642 |
| Rates.ZeroRateIsNaN | BSAStreamBuffers.py:160-162 | "no beam" makes every derived quantity NaN |
| StreamBuffers.ExpectedId | BSAStreamBuffers.py:137 | the expected ID lies in the counter's range |
| StreamBuffers.Jump | BSAStreamBuffers.py:138 | the jump is within one of the exact sample count between the expected and the new ID, and positive exactly when that count reaches one |
| StreamBuffers.JumpCountsSamples | BSAStreamBuffers.py:137-138 | an ID exactly k samples past the expected one gives a jump of k |
| StreamBuffers.JumpAtSixtyHertz | BSAStreamBuffers.py:137-138 | at 6 ticks per sample, a cursor at 94 sees ID 118 as three missed samples |
| StreamBuffers.WrappedIdDoesNotPad | BSAStreamBuffers.py:138-143 | an ID below the expected one (after the counter wraps) gives a jump ≤ 0 and no padding |
| StreamBuffers.OnTimeUpdatePadsOne | BSAStreamBuffers.py:111-152 | with the previous cursor one sample behind the latest ID (as seeding leaves it and as `Stream` keeps it on time) and the new ID one sample ahead, the jump is 1, so one NaN is padded although no pulse was missed |
| StreamBuffers.InstalledPrev | BSAStreamBuffers.py:110-111 | the installed previous cursor is one sample before the latest ID, or NaN when ticks per sample are NaN |
| StreamBuffers.StreamBuffer.constructor | BSAStreamBuffers.py:71-75 | initialisation stores the channel and beamline and leaves the seeded state |
| StreamBuffers.StreamBuffer.Reinit | BSAStreamBuffers.py:77-115 | on success, the settings are those of the clamped reading, the history channel is named from them, the snapshot is installed and the cursors set |
| StreamBuffers.StreamBuffer.GetData | BSAStreamBuffers.py:124-126 | returns the current 2800-sample buffer and the latest ID, which lies in the counter's range |
| StreamBuffers.StreamBuffer.Stream | BSAStreamBuffers.py:128-152 | at a zero rate nothing changes; with a NaN previous cursor it raises and nothing changes; otherwise the buffer becomes a fresh `Push(GapPad(old, jump), value)`, the cursors advance, the old buffer is untouched and the settings are kept |
| StreamBuffers.StreamBuffer.RateUpdate | BSAStreamBuffers.py:157-162 | the settings become `Derive(value, maximum)`; buffer, cursors and configuration are unchanged |
| StreamBuffers.StreamBuffer.SetBeamline | BSAStreamBuffers.py:172-176 | an unknown name raises and leaves channel, history channel, beamline, buffer, cursors and rate unchanged; a known one is stored and the stream re-seeded |
| StreamBuffers.StreamBuffer.SetChannel | BSAStreamBuffers.py:181-184 | the channel is stored and the stream re-seeded |
| DualStreams.ShotOffset | BSAStreamBuffers.py:256-258 | the offset is never larger in magnitude than the raw count and has the sign of `dp` (its value is given by `PositiveDeltaValue` and `NegativeDeltaIsDirect`) |
| DualStreams.SyncedWidth | BSAStreamBuffers.py:262 | at most 2800, and non-negative exactly when the offset fits the buffer |
| DualStreams.Align | BSAStreamBuffers.py:245-271 | equal IDs stack both buffers; otherwise the two rows are equal in length and shorter than 2800; an unfilled result has width 2800 |
| DualStreams.AlignShiftedRows | BSAStreamBuffers.py:262-269 | offset > 0: newest N of b1 with oldest N of b2; offset < 0: the reverse; offset 0: an unfilled 2×2800 array |
| DualStreams.AlignLargeOffset | BSAStreamBuffers.py:262-263 | an offset beyond 2800 raises `ValueError`; exactly 2800 gives empty rows |
| DualStreams.AlignWithoutRateRaises | BSAStreamBuffers.py:249-256 | with NaN ticks per sample `get_data` raises exactly when the IDs differ |
| DualStreams.SubSampleDeltaIsUnfilled | BSAStreamBuffers.py:256-270 | IDs less than one sample apart but not equal give offset 0 and an unfilled array |
| DualStreams.NegativeDeltaIsDirect | BSAStreamBuffers.py:256-258 | for `dp < 0` the offset is always the direct truncated count |
| DualStreams.PositiveDeltaCount | BSAStreamBuffers.py:256 | for 0 < dp < 2^14 the raw count lies between 0 and the modulus |
| DualStreams.PositiveDeltaValue | BSAStreamBuffers.py:256-258 | for 0 < dp < 2^14 the offset is the smaller of the raw count and the modulus less it, taken positive |
| DualStreams.DirectOffsetResidual | BSAStreamBuffers.py:256-258 | when the direct count wins, offset × ticks is within one sample of `dp` |
| DualStreams.AlignRowsAt | BSAStreamBuffers.py:264-269 | for a nonzero offset, row entry j is slot j + max(o, 0) of b1 and slot j + max(−o, 0) of b2 |
| DualStreams.AlignedPairsAreNearby | BSAStreamBuffers.py:260-269 | when the direct count wins, those paired slots lie in the buffers and, in the one-sample-per-slot layout of a history snapshot, are less than one sample apart in nominal pulse ID |
| DualStreams.RolloverKeepsSignOfDelta | BSAStreamBuffers.py:256-258 | a raw count of 2727 with modulus 2730 gives +3 |
| DualStreams.AcrossTheWrap | BSAStreamBuffers.py:256-262 | across the wrap at 60 Hz the offset is +1 one way and −2729 the other, leaving 71 synced samples |
| DualStreams.RolloverResidual | BSAStreamBuffers.py:256-258 | for 0 < dp < 2^14 and a modulus m with m·tps ≤ 2^14 < (m + 1)·tps, the stretch 2^14 − dp is within one sample of m − raw samples |
| DualStreams.RolloverPairsApart | BSAStreamBuffers.py:256-269 | for 0 ≤ p1 < p2 < 2^14 with the rollover reading winning, o = m − raw (the offset there, by `RolloverOffset`) is at least 0, the shifted rows stay in range, and slot j + o of the first buffer and slot j of the second (ID p2 − 2^14 once unwrapped) lie strictly between 2o − 1 and 2o + 1 samples apart in nominal ID |
| DualStreams.RolloverOffset | BSAStreamBuffers.py:256-258 | when the rollover reading wins for 0 < dp < 2^14, the offset is m − raw |
| DualStreams.RolloverPairsAcrossTheWrap | BSAStreamBuffers.py:256-269 | with p1 = 2 and p2 = 16380 (ID −4 once unwrapped) the offset +1 pairs slots two samples apart in nominal ID |
| DualStreams.StreamedLayoutLagsSlotId | BSAStreamBuffers.py:139-152 | after an on-time update the previous newest sample sits in slot 2797 behind a NaN, where the one-sample-per-slot layout puts ID pNew − 2·tps |
| DualStreams.Stack | BSAStreamBuffers.py:249-269 | a fresh 2×n array whose rows are n samples of each buffer from the given starts |
| DualStreams.ShiftedArray | BSAStreamBuffers.py:263-269 | a fresh 2×N array holding the rows shifted by the offset |
| DualStreams.AlignArrays | BSAStreamBuffers.py:247-271 | the returned array holds exactly the rows of `Align`, is fresh and unfilled with width N when `Align` is unfilled, or the call raises `Align`'s error |
| DualStreams.DualStreamBuffer.constructor | BSAStreamBuffers.py:224-228 | both recorded values start at −1 |
| DualStreams.DualStreamBuffer.GetData | BSAStreamBuffers.py:243-271 | records the smaller latest ID and, once an offset is computed, `N_pts_sync`; returns `Align`'s rows stacked, an unfilled array, or raises its error |

## Left out

- Channel access (`get_pv`, callbacks, `wait_for_connection`, `disconnect`) and `stop()` are EPICS I/O. The rate reading, the history snapshot and its nanoseconds become parameters of `Reinit`, `SetBeamline` and `SetChannel`.
- The mutex and callback concurrency are not modelled. Every method runs atomically.
- The `print` and `warn` diagnostics and the `silence` keyword only produce output.
- StreamBuffers.StreamBuffer.Reinit: models only the success path. The failure paths that raise or warn come from I/O (a channel that does not connect, a missing key), and I/O is not modelled.
- StreamBuffers.StreamBuffer.constructor: takes a `Beamline` value, so the `KeyError` for an unknown beamline at construction is not modelled.
- StreamBuffers.StreamBuffer.Reinit: requires the history snapshot to hold 2800 samples. The code installs whatever array the channel returns.
- StreamBuffers.StreamBuffer.RateUpdate: takes the rate as a real. A NaN or `None` reading from the channel is not modelled.
- The dual buffer's `_reinit` and its `beamline`, `ch1` and `ch2` setters rebuild the two single buffers through I/O. The model takes the two buffers as constructor arguments.
- Float rounding: floats are exact reals, so the effects of binary rounding (for example on `360 / 102` as a double) are not modelled.
- DualStreams.AlignedPairsAreNearby: proves alignment only when the direct count wins, and only for the one-sample-per-slot layout of a history snapshot. `Stream` pads one extra NaN per on-time update (`StreamedLayoutLagsSlotId`), so streamed buffers do not keep that layout. The model does not state which ID each slot of a streamed buffer holds.
- The `BEAM_RATE_PVS` table only names the rate channel to subscribe to, which is I/O. The rate reading itself is a parameter.
- Nanoseconds are modelled as natural numbers.
- `rtbsaGUI.py`, `pyqtRTBSAPlot.py` and the commented-out legacy code at the end of `BSAStreamBuffers.py` are not part of this model.
