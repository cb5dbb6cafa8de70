/** The fixed-length BSA ring buffer: oldest sample first, newest last.
    Sequence functions give the meaning of each numpy operation; the
    methods perform the same operations on arrays, each one returning a
    fresh array the way `roll` does. */
module Ring {
  import opened Scalars

  /** Length of every BSA buffer. */
  const BufferLength: nat := 2800

  /** `n` not-a-number placeholders. */
  function NaNs(n: nat): (r: seq<Float>)
    ensures |r| == n
    ensures forall i :: 0 <= i < n ==> r[i] == NaN
  {
    seq(n, _ => NaN)
  }

  /** numpy `roll(b, shift)`, computed by slicing. */
  function Roll(b: seq<Float>, shift: int): (r: seq<Float>)
    ensures |r| == |b|
  {
    if |b| == 0 then b
    else
      var s := (-shift) % |b|;
      b[s..] + b[..s]
  }

  /** What numpy promises of `roll`: element `j` of the result is the
      element `shift` places before it, cyclically. */
  lemma RollAt(b: seq<Float>, shift: int, j: int)
    requires 0 <= j < |b|
    ensures Roll(b, shift)[j] == b[(j - shift) % |b|]
  {
    var n := |b|;
    var s := (-shift) % n;
    var q := (-shift) / n;
    assert -shift == q * n + s;
    if j < n - s {
      assert Roll(b, shift)[j] == b[j + s];
      DivModUnique(j - shift, n, q, j + s);
    } else {
      assert Roll(b, shift)[j] == b[j + s - n];
      DivModUnique(j - shift, n, q + 1, j + s - n);
    }
  }

  /** Rolling back by the same amount restores the buffer. */
  lemma RollInverse(b: seq<Float>, shift: int)
    ensures Roll(Roll(b, shift), -shift) == b
  {
    var n := |b|;
    var r := Roll(b, shift);
    var r' := Roll(r, -shift);
    forall j | 0 <= j < n
      ensures r'[j] == b[j]
    {
      RollAt(r, -shift, j);
      var i := (j + shift) % n;
      RollAt(b, shift, i);
      var q := (j + shift) / n;
      assert i - shift == j + (-q) * n;
      DivModUnique(i - shift, n, -q, j);
    }
  }

  /** A left roll by `k` with `0 <= k < n` moves element `i + k` to `i`. */
  lemma RollLeftAt(b: seq<Float>, k: int, i: int)
    requires 0 <= k && 0 <= i && i + k < |b|
    ensures Roll(b, -k)[i] == b[i + k]
  {
    RollAt(b, -k, i);
    DivModUnique(i + k, |b|, 0, i + k);
  }

  /** `_push_to_ring_buffer`: roll left by one, then overwrite the last slot. */
  function Push(b: seq<Float>, v: Float): (r: seq<Float>)
    requires |b| > 0
    ensures |r| == |b|
    ensures forall i :: 0 <= i < |b| - 1 ==> r[i] == b[i + 1]
    ensures r[|b| - 1] == v
  {
    var rolled := Roll(b, -1);
    assert forall i :: 0 <= i < |b| - 1 ==> rolled[i] == b[i + 1] by {
      forall i | 0 <= i < |b| - 1 ensures rolled[i] == b[i + 1] {
        RollLeftAt(b, 1, i);
      }
    }
    rolled[..|b| - 1] + [v]
  }

  /** numpy `b[-k:] = nan` for `k > 0`: the last `k` slots, or every slot
      when `k` reaches the length, become NaN. */
  function FillTail(b: seq<Float>, k: nat): (r: seq<Float>)
    requires k > 0
    ensures |r| == |b|
    ensures forall i :: 0 <= i < |b| ==> r[i] == (if i >= |b| - k then NaN else b[i])
  {
    var lo := if k >= |b| then 0 else |b| - k;
    b[..lo] + NaNs(|b| - lo)
  }

  /** The gap padding of `_stream`: when `jump > 0`, roll left by `jump`
      and overwrite the wrapped-around tail with NaN. */
  function GapPad(b: seq<Float>, jump: int): (r: seq<Float>)
    ensures |r| == |b|
  {
    if jump > 0 then FillTail(Roll(b, -jump), jump) else b
  }

  /** The padded buffer: unchanged for `jump <= 0`; for a jump shorter than
      the buffer, the data shifted left by `jump` followed by `jump` NaNs;
      NaN everywhere for a jump of the buffer's length or more. */
  lemma {:induction false} GapPadSpec(b: seq<Float>, jump: int)
    ensures jump <= 0 ==> GapPad(b, jump) == b
    ensures 0 < jump < |b| ==>
      (forall i :: 0 <= i < |b| - jump ==> GapPad(b, jump)[i] == b[i + jump]) &&
      (forall i :: |b| - jump <= i < |b| ==> GapPad(b, jump)[i] == NaN)
    ensures jump >= |b| ==> GapPad(b, jump) == NaNs(|b|)
  {
    if 0 < jump < |b| {
      forall i | 0 <= i < |b| - jump
        ensures GapPad(b, jump)[i] == b[i + jump]
      {
        RollLeftAt(b, jump, i);
      }
    }
  }

  /** One streamed update on the buffer: gap padding, then the push. For a
      jump of `k` slots with `0 < k < n - 1`, the data moves left by `k + 1`,
      `k` NaNs follow it and the new value lands in the last slot. */
  lemma {:induction false} PaddedPushSpec(b: seq<Float>, jump: int, v: Float)
    requires |b| > 0
    ensures |Push(GapPad(b, jump), v)| == |b|
    ensures Push(GapPad(b, jump), v)[|b| - 1] == v
    ensures jump <= 0 ==>
      forall i :: 0 <= i < |b| - 1 ==> Push(GapPad(b, jump), v)[i] == b[i + 1]
    ensures 0 < jump < |b| ==>
      (forall i :: 0 <= i < |b| - jump - 1 ==> Push(GapPad(b, jump), v)[i] == b[i + jump + 1]) &&
      (forall i :: |b| - jump - 1 <= i < |b| - 1 ==> Push(GapPad(b, jump), v)[i] == NaN)
    ensures jump >= |b| ==>
      forall i :: 0 <= i < |b| - 1 ==> Push(GapPad(b, jump), v)[i] == NaN
  {
    GapPadSpec(b, jump);
  }

  /** `deepcopy` of a buffer array. */
  method CopyArray(a: array<Float>) returns (r: array<Float>)
    ensures fresh(r) && r[..] == a[..]
  {
    r := new Float[a.Length];
    forall i | 0 <= i < a.Length {
      r[i] := a[i];
    }
  }

  /** numpy `roll(a, shift)`: a new array, `a` left as it was. */
  method RollArray(a: array<Float>, shift: int) returns (r: array<Float>)
    ensures fresh(r) && r[..] == Roll(a[..], shift)
  {
    var n := a.Length;
    r := new Float[n];
    forall j | 0 <= j < n {
      r[j] := a[(j - shift) % n];
    }
    forall j | 0 <= j < n
      ensures r[j] == Roll(a[..], shift)[j]
    {
      RollAt(a[..], shift, j);
    }
  }

  /** `b[-k:] = nan`, in place. */
  method FillTailInPlace(b: array<Float>, k: nat)
    requires k > 0
    modifies b
    ensures b[..] == FillTail(old(b[..]), k)
  {
    var lo := if k >= b.Length then 0 else b.Length - k;
    forall i | lo <= i < b.Length {
      b[i] := NaN;
    }
  }

  /** The padding step of `_stream`: a copy of `a`, rolled and NaN-filled
      when `jump > 0`. */
  method PadArray(a: array<Float>, jump: int) returns (r: array<Float>)
    ensures fresh(r) && r[..] == GapPad(a[..], jump)
  {
    r := CopyArray(a);
    if jump > 0 {
      r := RollArray(r, -jump);
      FillTailInPlace(r, jump);
    }
  }

  /** `_push_to_ring_buffer(B, value)`: a rolled copy with `value` last. */
  method PushArray(b: array<Float>, v: Float) returns (r: array<Float>)
    requires b.Length > 0
    ensures fresh(r) && r[..] == Push(b[..], v)
  {
    r := RollArray(b, -1);
    r[r.Length - 1] := v;
  }
}
