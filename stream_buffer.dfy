/** One BSA channel streamed into a 2800-sample ring buffer, with missed
    pulses padded by NaN. */
module StreamBuffers {
  import opened Scalars
  import opened PulseIds
  import opened Ring
  import opened Beamlines
  import opened Rates

  /** `p_expected`: the ID one sample after the previous cursor, wrapped
      into the counter's range. */
  function ExpectedId(prev: real, tps: real): (e: real)
    ensures 0.0 <= e < PulseIdRange as real
  {
    WrapId(prev + tps)
  }

  /** `jump`: the samples between the expected and the new ID, truncated
      toward zero. It is within one of the exact sample count, and positive,
      so that padding happens, exactly when that count reaches one. */
  function Jump(pNew: int, prev: real, tps: real): (j: int)
    requires tps != 0.0
    ensures -1.0 < (pNew as real - ExpectedId(prev, tps)) / tps - j as real < 1.0
    ensures j > 0 <==> (pNew as real - ExpectedId(prev, tps)) / tps >= 1.0
  {
    Trunc((pNew as real - ExpectedId(prev, tps)) / tps)
  }

  /** A new ID `k` whole samples past the expected one gives a jump of `k`. */
  lemma JumpCountsSamples(pNew: int, prev: real, tps: real, k: int)
    requires tps != 0.0
    requires pNew as real == ExpectedId(prev, tps) + k as real * tps
    ensures Jump(pNew, prev, tps) == k
  {
    var d := pNew as real - ExpectedId(prev, tps);
    assert d == k as real * tps;
    DivOfMul(k as real, tps);
    assert d / tps == k as real;
    TruncOfInt(k);
    assert Jump(pNew, prev, tps) == Trunc(d / tps);
  }

  /** At 60 Hz a cursor expecting ID 100 that sees ID 118 counts three
      missed samples. */
  lemma JumpAtSixtyHertz()
    ensures ExpectedId(94.0, 6.0) == 100.0
    ensures Jump(118, 94.0, 6.0) == 3
  {
    WrapIdInRange(100.0);
  }

  /** A new ID below the expected one, as after the counter wraps, gives a
      jump of zero or less, so nothing is padded. */
  lemma WrappedIdDoesNotPad(pNew: int, prev: real, tps: real, b: seq<Float>)
    requires tps > 0.0
    requires (pNew as real) < ExpectedId(prev, tps)
    ensures Jump(pNew, prev, tps) <= 0
    ensures GapPad(b, Jump(pNew, prev, tps)) == b
  {
    var d := pNew as real - ExpectedId(prev, tps);
    assert d / tps < 0.0;
  }

  /** The cursor lags one update behind: when the previous cursor is one
      sample before the latest ID (as initialisation leaves it, and as every
      on-time update keeps it, `Stream` moving the latest ID into the previous
      cursor) and the new ID is one sample after the latest, the jump is 1:
      one NaN is padded in although no pulse was missed. */
  lemma {:induction false} OnTimeUpdatePadsOne(prev: real, latest: int, tps: real, pNew: int)
    requires tps > 0.0 && 0 <= latest
    requires prev + tps == latest as real
    requires pNew as real == latest as real + tps && pNew < PulseIdRange
    ensures Jump(pNew, prev, tps) == 1
  {
    WrapIdInRange(latest as real);
    assert ExpectedId(prev, tps) == latest as real;
    JumpCountsSamples(pNew, prev, tps, 1);
  }

  /** The cursor pair installed from a history snapshot: the latest ID, and
      the previous one a sample earlier (NaN while the ticks per sample are
      NaN, that is, at a zero rate). */
  function InstalledPrev(latest: int, tps: Float): (prev: Float)
    ensures prev.NaN? <==> tps.NaN?
    ensures prev.Real? ==> prev.r + tps.r == latest as real
  {
    match tps
    case NaN => NaN
    case Real(t) => Real(latest as real - t)
  }

  /** A single-channel stream buffer. Buffers are replaced, never written
      after they have been published, so a reader holding an earlier buffer
      keeps a consistent snapshot. */
  class StreamBuffer {
    var channel: string
    var beamline: Beamline
    /** The history channel the buffer was last seeded from. */
    var historyPv: string
    var buffer: array<Float>
    var pPrev: Float
    var pLatest: int
    var sampleRate: real
    var sampleSpacing: Float
    var ticksPerSample: Float
    var bufferModulus: Float

    /** The buffer has its fixed length and the latest cursor is an ID. */
    ghost predicate Shaped()
      reads this
    {
      buffer.Length == BufferLength && 0 <= pLatest < PulseIdRange
    }

    /** Shaped, and the timing constants are those of the current rate. */
    ghost predicate Valid()
      reads this
    {
      Shaped() &&
      Settings(sampleRate, sampleSpacing, ticksPerSample, bufferModulus)
        == Derive(sampleRate, MaxRate(beamline))
    }

    /** The state `_reinit` leaves after reading the rate channel and the
        history snapshot. */
    ghost predicate Seeded(rateReading: real, history: array<Float>, historyNs: nat)
      reads this
    {
      Settings(sampleRate, sampleSpacing, ticksPerSample, bufferModulus)
        == Derive(rateReading, MaxRate(beamline)) &&
      historyPv == HistoryPvName(channel, beamline, sampleRate) &&
      buffer == history &&
      pLatest == NsToPulseId(historyNs) &&
      pPrev == InstalledPrev(pLatest, ticksPerSample)
    }

    constructor (channel: string, beamline: Beamline, rateReading: real,
                 history: array<Float>, historyNs: nat)
      requires history.Length == BufferLength
      ensures Valid()
      ensures this.channel == channel && this.beamline == beamline
      ensures Seeded(rateReading, history, historyNs)
    {
      this.channel, this.beamline := channel, beamline;
      historyPv, buffer := "", history;
      pPrev, pLatest := NaN, 0;
      sampleRate, sampleSpacing, ticksPerSample, bufferModulus := 0.0, NaN, NaN, NaN;
      new;
      Reinit(rateReading, history, historyNs);
    }

    /** `_reinit` on success: clamp the rate reading and derive the timing
        constants, pick the history channel, install the snapshot and set
        the cursors. */
    method Reinit(rateReading: real, history: array<Float>, historyNs: nat)
      requires Shaped()
      requires history.Length == BufferLength
      modifies this
      ensures Valid()
      ensures channel == old(channel) && beamline == old(beamline)
      ensures Seeded(rateReading, history, historyNs)
    {
      RateUpdate(Min(rateReading, MaxRate(beamline)));
      DeriveIdempotent(rateReading, MaxRate(beamline));
      historyPv := HistoryPvName(channel, beamline, sampleRate);
      pLatest := NsToPulseId(historyNs);
      pPrev := InstalledPrev(pLatest, ticksPerSample);
      buffer := history;
    }

    /** `get_data`: the current buffer and the ID of its newest sample. */
    method GetData() returns (b: array<Float>, p: int)
      requires Valid()
      ensures b == buffer && b.Length == BufferLength
      ensures p == pLatest && 0 <= p < PulseIdRange
    {
      b, p := buffer, pLatest;
    }

    /** `_stream(value, nanoseconds)`. With a zero rate the update is
        dropped. With a NaN previous cursor `int(nan)` raises and nothing
        changes. Otherwise the buffer is padded for the jump, the value
        pushed, and the cursors advanced. */
    method Stream(value: Float, nanoseconds: nat) returns (raised: bool)
      requires Valid()
      modifies this
      ensures Valid()
      ensures channel == old(channel) && beamline == old(beamline) && historyPv == old(historyPv)
      ensures sampleRate == old(sampleRate) && sampleSpacing == old(sampleSpacing)
      ensures ticksPerSample == old(ticksPerSample) && bufferModulus == old(bufferModulus)
      ensures raised <==> sampleRate != 0.0 && old(pPrev).NaN?
      ensures sampleRate == 0.0 || raised ==>
        buffer == old(buffer) && pPrev == old(pPrev) && pLatest == old(pLatest)
      ensures sampleRate != 0.0 && !raised ==>
        fresh(buffer) &&
        buffer[..] == Push(GapPad(old(buffer[..]),
                                  Jump(NsToPulseId(nanoseconds), old(pPrev).r, ticksPerSample.r)),
                           value) &&
        pPrev == Real(old(pLatest) as real) &&
        pLatest == NsToPulseId(nanoseconds)
      ensures old(buffer)[..] == old(buffer[..])
    {
      if sampleRate == 0.0 {
        return false;
      }
      var pNew := NsToPulseId(nanoseconds);
      if pPrev.NaN? {
        return true;
      }
      var b := PadArray(buffer, Jump(pNew, pPrev.r, ticksPerSample.r));
      buffer := PushArray(b, value);
      pPrev := Real(pLatest as real);
      pLatest := pNew;
      raised := false;
    }

    /** `_rate_update(value)`: the rate and its derived quantities change;
        the buffer and the cursors do not. */
    method RateUpdate(value: real)
      requires Shaped()
      modifies this
      ensures Valid()
      ensures Settings(sampleRate, sampleSpacing, ticksPerSample, bufferModulus)
        == Derive(value, MaxRate(beamline))
      ensures buffer == old(buffer) && pPrev == old(pPrev) && pLatest == old(pLatest)
      ensures channel == old(channel) && beamline == old(beamline) && historyPv == old(historyPv)
    {
      var s := Derive(value, MaxRate(beamline));
      DeriveIdempotent(value, MaxRate(beamline));
      sampleRate, sampleSpacing, ticksPerSample, bufferModulus :=
        s.rate, s.spacing, s.ticksPerSample, s.modulus;
    }

    /** The `beamline` setter: an unknown name raises `ValueError` and
        changes nothing; a known one is stored and the stream re-seeded. */
    method SetBeamline(name: string, rateReading: real, history: array<Float>, historyNs: nat)
      returns (ok: bool)
      requires Valid()
      requires history.Length == BufferLength
      modifies this
      ensures Valid()
      ensures ok <==> ParseBeamline(name).Some?
      ensures !ok ==>
        channel == old(channel) && historyPv == old(historyPv) &&
        beamline == old(beamline) && buffer == old(buffer) &&
        pPrev == old(pPrev) && pLatest == old(pLatest) && sampleRate == old(sampleRate)
      ensures ok ==>
        beamline == ParseBeamline(name).value && channel == old(channel) &&
        Seeded(rateReading, history, historyNs)
    {
      var parsed := ParseBeamline(name);
      if parsed.None? {
        return false;
      }
      beamline := parsed.value;
      Reinit(rateReading, history, historyNs);
      ok := true;
    }

    /** The `channel` setter: the channel is stored and the stream re-seeded. */
    method SetChannel(newChannel: string, rateReading: real, history: array<Float>, historyNs: nat)
      requires Valid()
      requires history.Length == BufferLength
      modifies this
      ensures Valid()
      ensures channel == newChannel && beamline == old(beamline)
      ensures Seeded(rateReading, history, historyNs)
    {
      channel := newChannel;
      Reinit(rateReading, history, historyNs);
    }
  }
}
