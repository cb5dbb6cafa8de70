/** The sample rate of a BSA stream and the timing constants derived from it. */
module Rates {
  import opened Scalars

  /** Pulse IDs advance at the 360 Hz fiducial rate. */
  const FiducialRate: real := 360.0

  /** The rate and its derived quantities, as `_rate_update` leaves them. */
  datatype Settings = Settings(rate: real, spacing: Float, ticksPerSample: Float, modulus: Float)

  /** `_rate_update(value)`: clamp to the facility maximum; with a zero
      value every derived quantity is NaN, otherwise the spacing is the
      period, the ticks per sample the fiducial rate over the rate, and the
      modulus the number of samples before the 14-bit ID wraps. */
  function Derive(value: real, max: real): (s: Settings)
    requires max > 0.0
    ensures s.rate == Min(value, max)
    ensures (value == 0.0) == (s.rate == 0.0)
    ensures value == 0.0 <==> s.spacing.NaN?
    ensures value == 0.0 <==> s.ticksPerSample.NaN?
    ensures value == 0.0 <==> s.modulus.NaN?
    ensures s.ticksPerSample.Real? ==> s.ticksPerSample.r != 0.0 && s.modulus.Real?
    ensures s.ticksPerSample.Real? ==>
      s.ticksPerSample.r * s.rate == FiducialRate && s.spacing.r * s.rate == 1.0
    ensures s.ticksPerSample.Real? && s.modulus.Real? && value > 0.0 ==>
      s.modulus.r.Floor as real == s.modulus.r &&
      s.modulus.r * s.ticksPerSample.r <= 16384.0 < (s.modulus.r + 1.0) * s.ticksPerSample.r
  {
    var rate := Min(value, max);
    if value == 0.0 then Settings(rate, NaN, NaN, NaN)
    else
      var tps := FiducialRate / rate;
      var m := (16384.0 / tps).Floor as real;
      ModulusBounds(tps);
      Settings(rate, Real(1.0 / rate), Real(tps), Real(m))
  }

  /** `floor(2**14 / tps)` samples fit in one period of the ID counter and
      one more sample does not. */
  lemma ModulusBounds(tps: real)
    requires tps != 0.0
    ensures tps > 0.0 ==>
      (16384.0 / tps).Floor as real * tps <= 16384.0 < ((16384.0 / tps).Floor as real + 1.0) * tps
  {
    var q := 16384.0 / tps;
    var m := q.Floor as real;
    if tps > 0.0 {
      var lo, hi := m * tps, (m + 1.0) * tps;
      MulMonotone(m, q, tps);
      MulStrict(q, m + 1.0, tps);
      assert lo <= q * tps < hi;
      DivOfMul(16384.0, tps);
      assert q * tps == 16384.0;
    }
  }

  /** Re-deriving from an already clamped rate gives the same settings, so
      initialisation, which clamps and then calls `_rate_update` with the
      clamped value, ends where a direct rate update would. */
  lemma DeriveIdempotent(value: real, max: real)
    requires max > 0.0
    ensures Derive(Derive(value, max).rate, max) == Derive(value, max)
  {
  }

  /** The normal-conducting rates (facility maximum 120 Hz): whole ticks per
      sample, and the matching moduli. */
  lemma NormalConductingTable()
    ensures Derive(120.0, 120.0) == Settings(120.0, Real(1.0 / 120.0), Real(3.0), Real(5461.0))
    ensures Derive(60.0, 120.0) == Settings(60.0, Real(1.0 / 60.0), Real(6.0), Real(2730.0))
    ensures Derive(30.0, 120.0) == Settings(30.0, Real(1.0 / 30.0), Real(12.0), Real(1365.0))
    ensures Derive(10.0, 120.0) == Settings(10.0, Real(0.1), Real(36.0), Real(455.0))
  {
    assert (16384.0 / 3.0).Floor == 5461;
    assert (16384.0 / 6.0).Floor == 2730;
    assert (16384.0 / 12.0).Floor == 1365;
    assert (16384.0 / 36.0).Floor == 455;
  }

  /** A reading above the facility maximum is clamped to it; on a
      superconducting line the ticks per sample are then not whole. */
  lemma ClampedRates()
    ensures Derive(1000.0, 120.0).rate == 120.0
    ensures Derive(929000.0, 102.0).ticksPerSample == Real(60.0 / 17.0)
    ensures Derive(929000.0, 102.0).modulus == Real(4642.0)
  {
    assert (16384.0 / (360.0 / 102.0)).Floor == 4642;
  }

  /** "No beam": a zero reading makes every derived quantity NaN. */
  lemma ZeroRateIsNaN(max: real)
    requires max > 0.0
    ensures Derive(0.0, max) == Settings(0.0, NaN, NaN, NaN)
  {
  }
}
