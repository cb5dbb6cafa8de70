/** Pulse IDs: the 14-bit counter carried in the low bits of a BSA
    timestamp's nanoseconds field, and float arithmetic modulo its range. */
module PulseIds {
  import opened Scalars

  const PulseIdBits: nat := 14
  /** 2^14: pulse IDs live in [0, PulseIdRange). */
  const PulseIdRange: nat := 16384
  const PulseIdMask: nat := 0x3fff

  /** `ns_to_pulse_ID`: the low 14 bits of the nanoseconds field. */
  function NsToPulseId(ns: nat): (p: nat)
    ensures p < PulseIdRange
    ensures p == ns % PulseIdRange
  {
    Pow2Of14();
    MaskIsMod(ns, PulseIdBits);
    BitAnd(ns, PulseIdMask)
  }

  /** Timestamps whose nanoseconds differ by a whole number of counter
      periods carry the same pulse ID. */
  lemma PulseIdPeriodic(ns: nat, k: nat)
    ensures NsToPulseId(ns + k * PulseIdRange) == NsToPulseId(ns)
  {
    var q := ns / PulseIdRange;
    DivModUnique(ns + k * PulseIdRange, PulseIdRange, q + k, ns % PulseIdRange);
  }

  /** Pulse IDs below the range are their own nanoseconds' ID. */
  lemma PulseIdOfSmall(ns: nat)
    requires ns < PulseIdRange
    ensures NsToPulseId(ns) == ns
  {
    DivModUnique(ns, PulseIdRange, 0, ns);
  }

  /** Python's float `x % 2**14`: the floor remainder of `x` by the ID range. */
  function WrapId(x: real): (r: real)
    ensures 0.0 <= r < PulseIdRange as real
    ensures ((x - r) / PulseIdRange as real).Floor as real == (x - r) / PulseIdRange as real
  {
    x - (x / 16384.0).Floor as real * 16384.0
  }

  /** An ID already in range is unchanged by the wrap. */
  lemma WrapIdInRange(x: real)
    requires 0.0 <= x < PulseIdRange as real
    ensures WrapId(x) == x
  {
  }

  /** Wrapping forgets whole periods of the counter. */
  lemma WrapIdPeriodic(x: real, k: int)
    ensures WrapId(x + k as real * PulseIdRange as real) == WrapId(x)
  {
    var y := x + k as real * 16384.0;
    assert y / 16384.0 == x / 16384.0 + k as real;
    assert (y / 16384.0).Floor == (x / 16384.0).Floor + k;
  }
}
