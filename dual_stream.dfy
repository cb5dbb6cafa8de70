/** Two stream buffers on one beamline, aligned on read by the offset
    between their latest pulse IDs. */
module DualStreams {
  import opened Scalars
  import opened Ring
  import opened StreamBuffers

  /** What `get_data` produces from two snapshots: two equal rows; a
      2-by-`width` array that no branch fills; or an exception. */
  datatype Alignment =
    | Rows(row0: seq<Float>, row1: seq<Float>)
    | Unfilled(width: nat)
    | Fails(error: PyError)

  /** The result of a call that may raise. */
  datatype Outcome<T> = Returned(value: T) | Raised(error: PyError)

  /** `shot_offset`: the truncated sample count of `dp`, or of that count
      less the modulus when it is smaller in magnitude, always carrying the
      sign of `dp`. */
  function ShotOffset(dp: int, tps: real, modulus: real): (o: int)
    requires tps != 0.0
    ensures Abs(o) <= Abs(Trunc(dp as real / tps))
    ensures o > 0 ==> dp > 0
    ensures o < 0 ==> dp < 0
  {
    var raw := Trunc(dp as real / tps);
    var rollover := Trunc(raw as real - modulus);
    var magnitude := if Abs(rollover) < Abs(raw) then Abs(rollover) else Abs(raw);
    // sign(dp) * magnitude
    if dp > 0 then magnitude else if dp < 0 then -magnitude else 0
  }

  /** `N_pts_sync`: the number of samples the two rows share. */
  function SyncedWidth(offset: int): (n: int)
    ensures n <= BufferLength
    ensures n >= 0 <==> Abs(offset) <= BufferLength
  {
    BufferLength - Abs(offset)
  }

  /** The alignment `get_data` computes from buffers `b1`, `b2` with latest
      IDs `p1`, `p2`, using the first stream's ticks per sample and modulus. */
  function Align(b1: seq<Float>, b2: seq<Float>, p1: int, p2: int, tps: Float, modulus: Float)
    : (a: Alignment)
    requires |b1| == BufferLength && |b2| == BufferLength
    ensures p1 == p2 ==> a == Rows(b1, b2)
    ensures a.Rows? ==> |a.row0| == |a.row1| <= BufferLength
    ensures a.Rows? && p1 != p2 ==> |a.row0| < BufferLength
    ensures a.Unfilled? ==> p1 != p2 && a.width == BufferLength
  {
    var dp := p2 - p1;
    if dp == 0 then Rows(b1, b2)
    else if tps.NaN? then Fails(ValueError)
    else if tps.r == 0.0 then Fails(ZeroDivisionError)
    else if modulus.NaN? then Fails(ValueError)
    else
      var o := ShotOffset(dp, tps.r, modulus.r);
      var n := SyncedWidth(o);
      if n < 0 then Fails(ValueError)
      else if o > 0 then Rows(b1[o..], b2[..n])
      else if o < 0 then Rows(b1[..n], b2[-o..])
      else Unfilled(n)
  }

  /** For `offset > 0` the first row is the newest `N` samples of the first
      buffer and the second row the oldest `N` of the second; for
      `offset < 0` the other way round. */
  lemma AlignShiftedRows(b1: seq<Float>, b2: seq<Float>, p1: int, p2: int, tps: real, modulus: real)
    requires |b1| == BufferLength && |b2| == BufferLength
    requires p1 != p2 && tps != 0.0
    requires SyncedWidth(ShotOffset(p2 - p1, tps, modulus)) >= 0
    ensures var o := ShotOffset(p2 - p1, tps, modulus);
            var n := SyncedWidth(o);
            var a := Align(b1, b2, p1, p2, Real(tps), Real(modulus));
            (o > 0 ==> a == Rows(b1[BufferLength - n..], b2[..n])) &&
            (o < 0 ==> a == Rows(b1[..n], b2[BufferLength - n..])) &&
            (o == 0 ==> a == Unfilled(BufferLength))
  {
  }

  /** An offset of more than a buffer's length makes the 2-by-N allocation
      raise `ValueError`; exactly a buffer's length gives empty rows. */
  lemma AlignLargeOffset(b1: seq<Float>, b2: seq<Float>, p1: int, p2: int, tps: real, modulus: real)
    requires |b1| == BufferLength && |b2| == BufferLength
    requires p1 != p2 && tps != 0.0
    ensures Abs(ShotOffset(p2 - p1, tps, modulus)) > BufferLength ==>
      Align(b1, b2, p1, p2, Real(tps), Real(modulus)) == Fails(ValueError)
    ensures Abs(ShotOffset(p2 - p1, tps, modulus)) == BufferLength ==>
      Align(b1, b2, p1, p2, Real(tps), Real(modulus)) == Rows([], [])
  {
  }

  /** Without a rate the first stream's ticks per sample are NaN, and a
      nonzero `dp` makes `int(dp / nan)` raise. */
  lemma AlignWithoutRateRaises(b1: seq<Float>, b2: seq<Float>, p1: int, p2: int, modulus: Float)
    requires |b1| == BufferLength && |b2| == BufferLength
    ensures p1 != p2 <==> Align(b1, b2, p1, p2, NaN, modulus) == Fails(ValueError)
  {
  }

  /** A stream behind by less than one sample gives an offset of zero, and
      neither row is filled. */
  lemma SubSampleDeltaIsUnfilled(b1: seq<Float>, b2: seq<Float>, p1: int, p2: int, tps: real, modulus: real)
    requires |b1| == BufferLength && |b2| == BufferLength
    requires tps > 0.0 && p1 != p2
    requires -tps < (p2 - p1) as real < tps
    ensures ShotOffset(p2 - p1, tps, modulus) == 0
    ensures Align(b1, b2, p1, p2, Real(tps), Real(modulus)) == Unfilled(BufferLength)
  {
    DivBelowOne((p2 - p1) as real, tps);
  }

  /** With a nonnegative modulus the rollover reading never wins for a
      negative `dp`: the offset is the direct truncated sample count. */
  lemma {:induction false} NegativeDeltaIsDirect(dp: int, tps: real, modulus: real)
    requires tps > 0.0 && modulus >= 0.0 && dp < 0
    ensures ShotOffset(dp, tps, modulus) == Trunc(dp as real / tps)
  {
    var raw := Trunc(dp as real / tps);
    assert dp as real / tps < 0.0;
    assert raw <= 0;
    var x := raw as real - modulus;
    assert x <= raw as real;
    assert Trunc(x) <= raw by {
      if x >= 0.0 {
      } else {
        assert (-x).Floor >= -raw;
      }
    }
  }

  /** The nominal, unwrapped pulse ID of slot `i` in a buffer whose newest
      sample has ID `p`, one sample being `tps` IDs. This is the layout of
      a history snapshot, one sample per slot; `Stream` does not keep it
      (see `StreamedLayoutLagsSlotId`). */
  function SlotId(p: int, tps: real, i: int): (id: real)
  {
    p as real - (BufferLength - 1 - i) as real * tps
  }

  /** When the direct reading of `dp` is chosen and the offset is not zero,
      shifting by the offset leaves less than one sample of pulse-ID
      difference between the two streams. */
  lemma {:induction false} DirectOffsetResidual(dp: int, tps: real, modulus: real)
    requires tps > 0.0 && dp != 0
    requires Abs(Trunc(dp as real / tps)) <= Abs(Trunc(Trunc(dp as real / tps) as real - modulus))
    ensures ShotOffset(dp, tps, modulus) == Trunc(dp as real / tps)
    ensures -tps < ShotOffset(dp, tps, modulus) as real * tps - dp as real < tps
  {
    DirectReading(dp, tps, modulus);
    TruncError(dp as real / tps);
    ScaledResidual(Trunc(dp as real / tps), dp, tps);
  }

  /** The chosen magnitude being the direct one, the sign of `dp` is the
      sign of the direct count, so the offset is that count. */
  lemma DirectReading(dp: int, tps: real, modulus: real)
    requires tps > 0.0 && dp != 0
    requires Abs(Trunc(dp as real / tps)) <= Abs(Trunc(Trunc(dp as real / tps) as real - modulus))
    ensures ShotOffset(dp, tps, modulus) == Trunc(dp as real / tps)
  {
    var x := dp as real / tps;
    if dp > 0 {
      assert x > 0.0;
    } else {
      assert x < 0.0;
    }
  }

  /** An integer within one of `d / t` is, scaled by `t > 0`, within `t` of `d`. */
  lemma ScaledResidual(o: int, d: int, t: real)
    requires t > 0.0 && -1.0 < o as real - d as real / t < 1.0
    ensures -t < o as real * t - d as real < t
  {
    var x := d as real / t;
    var e := o as real - x;
    assert x * t == d as real;
    assert o as real * t - d as real == e * t;
    MulStrict(-1.0, e, t);
    MulStrict(e, 1.0, t);
    assert -t < e * t < t;
  }

  /** The nominal IDs of two slots differ by the latest IDs' difference
      plus one sample per slot of shift. */
  lemma SlotIdDifference(p1: int, p2: int, tps: real, i1: int, i2: int)
    ensures SlotId(p1, tps, i1) - SlotId(p2, tps, i2) == (p1 - p2) as real + (i1 - i2) as real * tps
  {
    var k1, k2 := (BufferLength - 1 - i1) as real, (BufferLength - 1 - i2) as real;
    assert k2 * tps - k1 * tps == (k2 - k1) * tps;
  }

  /** With a nonzero offset `o` that fits the buffer, row entry `j` pairs
      slot `j + max(o, 0)` of the first buffer with slot `j + max(-o, 0)`
      of the second. */
  lemma AlignRowsAt(b1: seq<Float>, b2: seq<Float>, p1: int, p2: int, tps: real, modulus: real, j: int)
    requires |b1| == BufferLength && |b2| == BufferLength
    requires tps != 0.0 && p1 != p2
    requires ShotOffset(p2 - p1, tps, modulus) != 0
    requires 0 <= j < SyncedWidth(ShotOffset(p2 - p1, tps, modulus))
    ensures var o := ShotOffset(p2 - p1, tps, modulus);
            var a := Align(b1, b2, p1, p2, Real(tps), Real(modulus));
            a.Rows? && j < |a.row0| &&
            a.row0[j] == b1[j + (if o > 0 then o else 0)] &&
            a.row1[j] == b2[j + (if o < 0 then -o else 0)]
  {
    var o := ShotOffset(p2 - p1, tps, modulus);
    var n := SyncedWidth(o);
    var a := Align(b1, b2, p1, p2, Real(tps), Real(modulus));
    if o > 0 {
      assert a == Rows(b1[o..], b2[..n]);
    } else {
      assert a == Rows(b1[..n], b2[-o..]);
    }
  }

  /** When the direct reading of `dp` is chosen and the offset is not zero,
      the slots that `AlignRowsAt` pairs, `j + max(o, 0)` of the first
      buffer and `j + max(-o, 0)` of the second, are less than one sample
      apart in nominal pulse ID: the rows really are time-aligned. */
  lemma {:induction false} AlignedPairsAreNearby(p1: int, p2: int, tps: real, modulus: real, j: int)
    requires tps > 0.0 && p1 != p2
    requires Abs(Trunc((p2 - p1) as real / tps))
             <= Abs(Trunc(Trunc((p2 - p1) as real / tps) as real - modulus))
    requires ShotOffset(p2 - p1, tps, modulus) != 0
    requires 0 <= j < SyncedWidth(ShotOffset(p2 - p1, tps, modulus))
    ensures var o := ShotOffset(p2 - p1, tps, modulus);
            var i1 := j + (if o > 0 then o else 0);
            var i2 := j + (if o < 0 then -o else 0);
            0 <= i1 < BufferLength && 0 <= i2 < BufferLength &&
            -tps < SlotId(p1, tps, i1) - SlotId(p2, tps, i2) < tps
  {
    var o := ShotOffset(p2 - p1, tps, modulus);
    DirectOffsetResidual(p2 - p1, tps, modulus);
    var i1 := j + (if o > 0 then o else 0);
    var i2 := j + (if o < 0 then -o else 0);
    PairResidual(p1, p2, tps, o, i1, i2);
  }

  /** Slots `o` apart whose offset cancels `p2 - p1` to within one sample
      have nominal IDs within one sample of each other. */
  lemma PairResidual(p1: int, p2: int, tps: real, o: int, i1: int, i2: int)
    requires i1 - i2 == o
    requires -tps < o as real * tps - (p2 - p1) as real < tps
    ensures -tps < SlotId(p1, tps, i1) - SlotId(p2, tps, i2) < tps
  {
    SlotIdDifference(p1, p2, tps, i1, i2);
  }

  /** Within one ID period a positive `dp` never counts more samples than
      the modulus `m`, the number of samples in that period as `Derive`
      makes it. */
  lemma PositiveDeltaCount(dp: int, tps: real, m: int)
    requires tps > 0.0 && m >= 0
    requires 16384.0 < (m + 1) as real * tps
    requires 0 < dp < 16384
    ensures 0 <= Trunc(dp as real / tps) <= m
  {
    PositiveCountBelow(dp as real, 16384.0, tps, (m + 1) as real);
    var n := Trunc(dp as real / tps);
    assert 0 <= n && n as real <= dp as real / tps;
  }

  /** The offset for every positive `dp` within one ID period: the smaller
      of the direct count and the count short of the modulus `m`, taken
      positive. With `NegativeDeltaIsDirect` for `dp < 0` this gives the
      offset for every `dp`. */
  lemma {:induction false} PositiveDeltaValue(dp: int, tps: real, m: int)
    requires tps > 0.0 && m >= 0
    requires 16384.0 < (m + 1) as real * tps
    requires 0 < dp < 16384
    ensures ShotOffset(dp, tps, m as real) ==
      MinInt(Trunc(dp as real / tps), m - Trunc(dp as real / tps))
  {
    PositiveDeltaCount(dp, tps, m);
    var raw := Trunc(dp as real / tps);
    assert raw as real - m as real == (raw - m) as real;
    TruncOfInt(raw - m);
  }

  /** After an on-time update (a jump of 1, see `OnTimeUpdatePadsOne`) the
      previously newest sample, ID `pNew - tps`, sits in slot 2797 behind a
      NaN, while the one-sample-per-slot layout gives that slot the ID
      `pNew - 2 tps`: streamed buffers lag `SlotId` by one sample per
      update. */
  lemma StreamedLayoutLagsSlotId(b: seq<Float>, v: Float, pNew: int, tps: real)
    requires |b| == BufferLength
    ensures Push(GapPad(b, 1), v)[BufferLength - 3] == b[BufferLength - 1]
    ensures Push(GapPad(b, 1), v)[BufferLength - 2] == NaN
    ensures SlotId(pNew, tps, BufferLength - 3) == pNew as real - 2.0 * tps
  {
    PaddedPushSpec(b, 1, v);
  }

  /** Across the wrap the rollover reading points the wrong way: with
      `p1 = 2` and `p2 = 16380`, which is ID -4 once the wrap is undone,
      the offset +1 pairs slot `j + 1` of the first buffer with slot `j`
      of the second, two samples apart in nominal ID. */
  lemma RolloverPairsAcrossTheWrap(j: int)
    requires 0 <= j < SyncedWidth(1)
    ensures ShotOffset(16380 - 2, 6.0, 2730.0) == 1
    ensures SlotId(2, 6.0, j + 1) - SlotId(16380 - 16384, 6.0, j) == 12.0
  {
    AcrossTheWrap();
    SlotIdDifference(2, 16380 - 16384, 6.0, j + 1, j);
  }

  /** When the rollover reading wins for a positive `dp`, the span of the
      ID period that `dp` does not cover, `2^14 - dp`, is within one sample
      of `o = m - raw` samples. */
  lemma {:induction false} RolloverResidual(dp: int, tps: real, m: int)
    requires tps > 0.0 && m >= 0
    requires m as real * tps <= 16384.0 < (m + 1) as real * tps
    requires 0 < dp < 16384
    ensures var o := m - Trunc(dp as real / tps);
      (o - 1) as real * tps < 16384.0 - dp as real < (o + 1) as real * tps
  {
    var raw := Trunc(dp as real / tps);
    NonNegativeDiv(dp as real, tps);
    CountBounds(dp as real, tps, raw);
    CountDifference(dp as real, 16384.0, tps, raw, m);
  }

  /** Across the wrap, for `0 <= p1 < p2 < 2^14` with the rollover reading
      winning, the offset `o = m - raw` is positive where the second
      stream, unwrapped to `p2 - 2^14`, is in fact behind. The rows pair
      slot `j + o` of the first buffer with slot `j` of the second, and in
      the one-sample-per-slot layout those lie between `2o - 1` and
      `2o + 1` samples apart instead of within one. */
  lemma {:induction false} RolloverPairsApart(p1: int, p2: int, tps: real, m: int, j: int)
    requires tps > 0.0 && m >= 0
    requires m as real * tps <= 16384.0 < (m + 1) as real * tps
    requires 0 <= p1 < p2 < 16384
    requires m - Trunc((p2 - p1) as real / tps) < Trunc((p2 - p1) as real / tps)
    requires 0 <= j < SyncedWidth(m - Trunc((p2 - p1) as real / tps))
    ensures var o := m - Trunc((p2 - p1) as real / tps);
      0 <= o && 0 <= j + o < BufferLength &&
      (2 * o - 1) as real * tps < SlotId(p1, tps, j + o) - SlotId(p2 - 16384, tps, j) < (2 * o + 1) as real * tps
  {
    var o := m - Trunc((p2 - p1) as real / tps);
    PositiveDeltaCount(p2 - p1, tps, m);
    RolloverResidual(p2 - p1, tps, m);
    RolloverPairResidual(p1, p2, tps, o, j + o, j);
  }

  /** Slots `o` apart, with `2^14 - (p2 - p1)` within one sample of `o`
      samples, have nominal IDs, the second unwrapped to `p2 - 2^14`,
      between `2o - 1` and `2o + 1` samples apart. */
  lemma RolloverPairResidual(p1: int, p2: int, tps: real, o: int, i1: int, i2: int)
    requires i1 - i2 == o
    requires (o - 1) as real * tps < 16384.0 - (p2 - p1) as real < (o + 1) as real * tps
    ensures (2 * o - 1) as real * tps < SlotId(p1, tps, i1) - SlotId(p2 - 16384, tps, i2) < (2 * o + 1) as real * tps
  {
    SlotIdDifference(p1, p2 - 16384, tps, i1, i2);
    MulAddInt(o - 1, o, 2 * o - 1, tps);
    MulAddInt(o + 1, o, 2 * o + 1, tps);
  }

  /** In that case the offset is indeed the rollover count `m - raw`. */
  lemma RolloverOffset(dp: int, tps: real, m: int)
    requires tps > 0.0 && m >= 0
    requires 16384.0 < (m + 1) as real * tps
    requires 0 < dp < 16384
    requires m - Trunc(dp as real / tps) < Trunc(dp as real / tps)
    ensures ShotOffset(dp, tps, m as real) == m - Trunc(dp as real / tps)
  {
    PositiveDeltaValue(dp, tps, m);
  }

  /** A raw count of 2727 samples at 6 ticks per sample (modulus 2730)
      resolves to +3, the sign of `dp`, not to the rollover reading -3 that
      the comment at BSAStreamBuffers.py:261 would lead one to expect. */
  lemma RolloverKeepsSignOfDelta()
    ensures ShotOffset(16362, 6.0, 2730.0) == 3
  {
    assert 16362.0 / 6.0 == 2727.0;
    TruncOfInt(2727);
    TruncOfInt(-3);
  }

  /** Just across the counter wrap at 60 Hz: with `p1 = 2`, `p2 = 16380`
      the offset is +1, while with the streams swapped it is the direct
      reading, -2729, leaving 71 synced samples. */
  lemma AcrossTheWrap()
    ensures ShotOffset(16378, 6.0, 2730.0) == 1
    ensures ShotOffset(-16378, 6.0, 2730.0) == -2729
    ensures SyncedWidth(-2729) == 71
  {
    assert 2729.0 <= 16378.0 / 6.0 < 2730.0;
    TruncOfInt(-1);
    NegativeDeltaIsDirect(-16378, 6.0, 2730.0);
  }

  /** A fresh 2-by-`n` array whose rows are `n` samples of `b1` from `lo1`
      and of `b2` from `lo2`, filled row by row. */
  method Stack(b1: array<Float>, lo1: nat, b2: array<Float>, lo2: nat, n: nat)
    returns (m: array2<Float>)
    requires lo1 + n <= b1.Length && lo2 + n <= b2.Length
    ensures fresh(m) && m.Length0 == 2 && m.Length1 == n
    ensures forall j :: 0 <= j < n ==> m[0, j] == b1[lo1 + j] && m[1, j] == b2[lo2 + j]
  {
    m := new Float[2, n];
    forall j | 0 <= j < n {
      m[0, j] := b1[lo1 + j];
    }
    forall j | 0 <= j < n {
      m[1, j] := b2[lo2 + j];
    }
  }

  /** The 2-by-`n` array of `get_data` for a computed offset `o`: the rows
      shifted by `o` against each other, or unfilled when `o` is zero. */
  method ShiftedArray(b1: array<Float>, b2: array<Float>, o: int, n: nat) returns (m: array2<Float>)
    requires b1.Length == BufferLength && b2.Length == BufferLength
    requires n == SyncedWidth(o)
    ensures fresh(m) && m.Length0 == 2 && m.Length1 == n
    ensures o != 0 ==> forall j :: 0 <= j < n ==>
      m[0, j] == b1[j + (if o > 0 then o else 0)] && m[1, j] == b2[j + (if o < 0 then -o else 0)]
  {
    if o > 0 {
      m := Stack(b1, o, b2, 0, n);
    } else if o < 0 {
      m := Stack(b1, 0, b2, -o, n);
    } else {
      m := new Float[2, n];
    }
  }

  /** The array `get_data` returns for buffers `b1`, `b2` with latest IDs
      `p1`, `p2`: the stacked rows of `Align`, a fresh unfilled array, or
      the exception. */
  method AlignArrays(b1: array<Float>, b2: array<Float>, p1: int, p2: int, tps: Float, modulus: Float)
    returns (r: Outcome<array2<Float>>)
    requires b1.Length == BufferLength && b2.Length == BufferLength
    requires tps.Real? ==> tps.r != 0.0 && modulus.Real?
    ensures
      match Align(b1[..], b2[..], p1, p2, tps, modulus)
      case Rows(row0, row1) =>
        r.Returned? && fresh(r.value) &&
        r.value.Length0 == 2 && r.value.Length1 == |row0| &&
        forall j :: 0 <= j < |row0| ==> r.value[0, j] == row0[j] && r.value[1, j] == row1[j]
      case Unfilled(n) =>
        r.Returned? && fresh(r.value) && r.value.Length0 == 2 && r.value.Length1 == n
      case Fails(e) => r == Raised(e)
  {
    ghost var a := Align(b1[..], b2[..], p1, p2, tps, modulus);
    if p1 == p2 {
      assert a == Rows(b1[..], b2[..]);
      var m := Stack(b1, 0, b2, 0, BufferLength);
      return Returned(m);
    }
    if tps.NaN? {
      assert a == Fails(ValueError);
      return Raised(ValueError);
    }
    var o := ShotOffset(p2 - p1, tps.r, modulus.r);
    var n := SyncedWidth(o);
    if n < 0 {
      assert a == Fails(ValueError);
      return Raised(ValueError);
    }
    AlignShiftedRows(b1[..], b2[..], p1, p2, tps.r, modulus.r);
    var m := ShiftedArray(b1, b2, o, n);
    if o != 0 {
      assert forall j :: 0 <= j < n ==> a.row0[j] == b1[j + (if o > 0 then o else 0)];
      assert forall j :: 0 <= j < n ==> a.row1[j] == b2[j + (if o < 0 then -o else 0)];
    }
    return Returned(m);
  }

  /** Two stream buffers read together; `pLatest` and `nPtsSync` are what
      the last read recorded. */
  class DualStreamBuffer {
    var s1: StreamBuffer
    var s2: StreamBuffer
    var pLatest: int
    var nPtsSync: int

    ghost predicate Valid()
      reads this, s1, s2
    {
      s1.Valid() && s2.Valid()
    }

    /** Both recorded values start at -1. */
    constructor (s1: StreamBuffer, s2: StreamBuffer)
      requires s1.Valid() && s2.Valid()
      ensures Valid() && this.s1 == s1 && this.s2 == s2
      ensures pLatest == -1 && nPtsSync == -1
    {
      this.s1, this.s2 := s1, s2;
      pLatest, nPtsSync := -1, -1;
    }

    /** `get_data`: record the smaller latest ID, then stack both buffers
        when the IDs agree, or fill a fresh 2-by-N array with the aligned
        rows. `nPtsSync` is recorded only once an offset is computed. */
    method GetData() returns (r: Outcome<(array2<Float>, int)>)
      requires Valid()
      modifies this
      ensures s1 == old(s1) && s2 == old(s2) && Valid()
      ensures pLatest == MinInt(s1.pLatest, s2.pLatest)
      ensures nPtsSync ==
        if s1.pLatest == s2.pLatest || s1.ticksPerSample.NaN? then old(nPtsSync)
        else SyncedWidth(ShotOffset(s2.pLatest - s1.pLatest, s1.ticksPerSample.r, s1.bufferModulus.r))
      ensures
        match Align(s1.buffer[..], s2.buffer[..], s1.pLatest, s2.pLatest,
                    s1.ticksPerSample, s1.bufferModulus)
        case Rows(row0, row1) =>
          r.Returned? && fresh(r.value.0) && r.value.1 == pLatest &&
          r.value.0.Length0 == 2 && r.value.0.Length1 == |row0| &&
          forall j :: 0 <= j < |row0| ==> r.value.0[0, j] == row0[j] && r.value.0[1, j] == row1[j]
        case Unfilled(n) =>
          r.Returned? && fresh(r.value.0) && r.value.1 == pLatest &&
          r.value.0.Length0 == 2 && r.value.0.Length1 == n
        case Fails(e) => r == Raised(e)
    {
      var b1, p1 := s1.GetData();
      var b2, p2 := s2.GetData();
      pLatest := MinInt(p1, p2);
      if p1 != p2 && s1.ticksPerSample.Real? {
        nPtsSync := SyncedWidth(ShotOffset(p2 - p1, s1.ticksPerSample.r, s1.bufferModulus.r));
      }
      var m := AlignArrays(b1, b2, p1, p2, s1.ticksPerSample, s1.bufferModulus);
      r := match m
        case Returned(a) => Returned((a, pLatest))
        case Raised(e) => Raised(e);
    }
  }
}
