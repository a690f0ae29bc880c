/** The delay line of the chorus/flanger: one circular buffer of samples per
    channel, written at an integer write head and read back at a fractional
    read head by linear interpolation between two neighbouring slots.
    Samples and positions are exact reals; the C++ `float` rounding is not
    modelled. */
module DelayLine {

  function Min(a: real, b: real): real { if a <= b then a else b }
  function Max(a: real, b: real): real { if a <= b then b else a }

  /** A C++ conversion from floating point to `int`: truncation toward zero. */
  function TruncToInt(x: real): (r: int)
    ensures 0.0 <= x ==> r as real <= x < r as real + 1.0
    ensures x < 0.0 ==> r as real - 1.0 < x <= r as real
  {
    if x >= 0.0 then x.Floor else -((-x).Floor)
  }

  lemma MulAtLeast(k: int, n: int)
    requires 1 <= k && 0 < n
    ensures k * n >= n
  {
  }

  lemma MulNonNegative(x: real, y: real)
    requires 0.0 <= x && 0.0 <= y
    ensures 0.0 <= x * y
  {
  }

  /** Euclidean remainder pinned down by any quotient/remainder pair. */
  lemma DivModUnique(a: int, n: int, q: int, m: int)
    requires 0 < n && 0 <= m < n && a == q * n + m
    ensures a % n == m
  {
    var q', m' := a / n, a % n;
    assert (q - q') * n == m' - m;
    if q' < q {
      MulAtLeast(q - q', n);
    } else if q < q' {
      MulAtLeast(q' - q, n);
    }
  }

  /** Remainders of values at most one turn away from `[0, n)`. */
  lemma ModOneTurn(a: int, n: int)
    requires 0 < n
    ensures 0 <= a < n ==> a % n == a
    ensures n <= a < 2 * n ==> a % n == a - n
    ensures -n <= a < 0 ==> a % n == a + n
  {
    if 0 <= a < n {
      DivModUnique(a, n, 0, a);
    } else if n <= a < 2 * n {
      DivModUnique(a, n, 1, a - n);
    } else if -n <= a < 0 {
      DivModUnique(a, n, -1, a + n);
    }
  }

  /** The ring slot reached from `start` after advancing the write head
      `j` times. */
  function Slot(start: int, j: int, len: int): (r: int)
    requires 0 <= start < len && 0 <= j
    ensures 0 <= r < len
    decreases j
  {
    if j == 0 then start else NextWriteHead(Slot(start, j - 1, len), len)
  }

  /** Advancing `j` times lands on `(start + j) mod len`. */
  lemma {:induction false} SlotIsMod(start: int, j: int, len: int)
    requires 0 <= start < len && 0 <= j
    ensures Slot(start, j, len) == (start + j) % len
    decreases j
  {
    if j == 0 {
      ModOneTurn(start, len);
    } else {
      SlotIsMod(start, j - 1, len);
      NextWriteHeadIsMod(Slot(start, j - 1, len), len);
      ModSucc(start + j - 1, len);
    }
  }

  /** `(a mod n + 1) mod n == (a + 1) mod n`. */
  lemma ModSucc(a: int, n: int)
    requires 0 < n
    ensures (a % n + 1) % n == (a + 1) % n
  {
    var q, m := a / n, a % n;
    assert a == q * n + m;
    if m + 1 < n {
      DivModUnique(a + 1, n, q, m + 1);
      DivModUnique(m + 1, n, 0, m + 1);
    } else {
      assert a + 1 == (q + 1) * n + 0;
      DivModUnique(a + 1, n, q + 1, 0);
      DivModUnique(m + 1, n, 1, 0);
    }
  }

  /** Within one turn of the ring, the slot is `start + j`, wrapped once. */
  lemma SlotOneTurn(start: int, j: int, len: int)
    requires 0 <= start < len && 0 <= j < len
    ensures Slot(start, j, len) == if start + j < len then start + j else start + j - len
  {
    SlotIsMod(start, j, len);
    ModOneTurn(start + j, len);
  }

  /** Within one turn of the ring, different offsets give different slots. */
  lemma SlotInjective(start: int, i: int, j: int, len: int)
    requires 0 <= start < len && 0 <= i < j < len
    ensures Slot(start, i, len) != Slot(start, j, len)
  {
    SlotOneTurn(start, i, len);
    SlotOneTurn(start, j, len);
  }

  /** A blend with a fraction in `[0, 1]` lies between its two end points. */
  lemma LinInterpBetween(a: real, b: real, t: real)
    requires 0.0 <= t <= 1.0
    ensures Min(a, b) <= (1.0 - t) * a + t * b <= Max(a, b)
  {
    var r := (1.0 - t) * a + t * b;
    assert r - a == t * (b - a);
    if a <= b {
      MulNonNegative(t, b - a);
      MulNonNegative(1.0 - t, b - a);
    } else {
      MulNonNegative(t, a - b);
      MulNonNegative(1.0 - t, a - b);
    }
  }

  /** `lin_interp`: the straight line through `a` (at 0) and `b` (at 1),
      evaluated at `t`. */
  function LinInterp(a: real, b: real, t: real): (r: real)
    ensures t == 0.0 ==> r == a
    ensures t == 1.0 ==> r == b
    ensures r - a == t * (b - a)
    ensures 0.0 <= t <= 1.0 ==> Min(a, b) <= r <= Max(a, b)
  {
    if 0.0 <= t <= 1.0 then
      LinInterpBetween(a, b, t);
      (1.0 - t) * a + t * b
    else
      (1.0 - t) * a + t * b
  }

  /** The two neighbouring slots and the blend fraction of a read head. */
  datatype ReadIndices = ReadIndices(x: int, x1: int, frac: real)

  /** Splits a pre-wrapped read head into `x` (truncated), `x1` (`x + 1`
      wrapped once) and the fractional part. */
  function SplitReadHead(readHead: real, len: int): (r: ReadIndices)
    requires 0.0 <= readHead < len as real
    ensures 0 <= r.x < len && 0 <= r.x1 < len
    ensures r.x == readHead.Floor
    ensures r.x1 == Slot(r.x, 1, len)
    ensures 0.0 <= r.frac < 1.0 && r.x as real + r.frac == readHead
  {
    var x := TruncToInt(readHead);
    var x1 := if x + 1 >= len then x + 1 - len else x + 1;
    ReadIndices(x, x1, readHead - x as real)
  }

  /** The upper neighbour is `(x + 1) mod len`. */
  lemma SplitReadHeadWraps(readHead: real, len: int)
    requires 0.0 <= readHead < len as real
    ensures var i := SplitReadHead(readHead, len); i.x1 == (i.x + 1) % len
  {
    var i := SplitReadHead(readHead, len);
    SlotIsMod(i.x, 1, len);
  }

  /** Reads the ring at a fractional position by linear interpolation
      between the slot below and the (wrapped) slot above. */
  function ReadInterpolated(ring: seq<real>, readHead: real): (r: real)
    requires 0.0 <= readHead < |ring| as real
    ensures var i := SplitReadHead(readHead, |ring|);
      Min(ring[i.x], ring[i.x1]) <= r <= Max(ring[i.x], ring[i.x1])
  {
    var i := SplitReadHead(readHead, |ring|);
    LinInterp(ring[i.x], ring[i.x1], i.frac)
  }

  /** At a whole-number position the interpolation returns that slot exactly. */
  lemma ReadInterpolatedAtSlot(ring: seq<real>, k: int)
    requires 0 <= k < |ring|
    ensures ReadInterpolated(ring, k as real) == ring[k]
  {
    assert (k as real).Floor == k;
    var i := SplitReadHead(k as real, |ring|);
    assert i.x == k && i.frac == 0.0;
  }

  /** The read head `delaySamples` behind the write head, wrapped once. */
  function ReadHead(writeHead: int, delaySamples: real, len: int): (r: real)
    requires 0 <= writeHead < len
    requires 0.0 <= delaySamples <= len as real
    ensures 0.0 <= r < len as real
    ensures r == writeHead as real - delaySamples || r == writeHead as real - delaySamples + len as real
  {
    var rh := writeHead as real - delaySamples;
    if rh < 0.0 then rh + len as real else rh
  }

  /** The delayed sample: the ring read `delaySamples` behind the write head.
      It lies between the two slots around the wrapped read head. */
  function ReadBehind(ring: seq<real>, writeHead: int, delaySamples: real): (r: real)
    requires 0 <= writeHead < |ring|
    requires 0.0 <= delaySamples <= |ring| as real
    ensures var i := SplitReadHead(ReadHead(writeHead, delaySamples, |ring|), |ring|);
      Min(ring[i.x], ring[i.x1]) <= r <= Max(ring[i.x], ring[i.x1])
  {
    ReadInterpolated(ring, ReadHead(writeHead, delaySamples, |ring|))
  }

  /** A whole-number delay of `d` samples reads exactly the slot written `d`
      samples ago; a delay of one full ring length reads the slot under the
      write head. */
  lemma ReadBehindWhole(ring: seq<real>, writeHead: int, d: int)
    requires 0 <= writeHead < |ring| && 0 <= d <= |ring|
    ensures ReadBehind(ring, writeHead, d as real) == ring[if d <= writeHead then writeHead - d else writeHead - d + |ring|]
    ensures d == |ring| ==> ReadBehind(ring, writeHead, d as real) == ring[writeHead]
  {
    var k := if d <= writeHead then writeHead - d else writeHead - d + |ring|;
    assert ReadHead(writeHead, d as real, |ring|) == k as real;
    ReadInterpolatedAtSlot(ring, k);
  }

  /** What one channel's delay line does in one sample. */
  datatype ChannelStep = ChannelStep(ring: seq<real>, delayed: real)

  /** One channel's delay line in one sample: store `input` plus the fed-back
      sample at the write head, then read `delaySamples` behind it. */
  function WriteThenRead(ring: seq<real>, writeHead: int, input: real, fedBack: real, delaySamples: real): (r: ChannelStep)
    requires 0 <= writeHead < |ring|
    requires 0.0 <= delaySamples <= |ring| as real
    ensures |r.ring| == |ring|
    ensures r.ring[writeHead] == input + fedBack
    ensures forall k :: 0 <= k < |ring| && k != writeHead ==> r.ring[k] == ring[k]
    ensures r.delayed == ReadBehind(r.ring, writeHead, delaySamples)
  {
    var written := ring[writeHead := input + fedBack];
    ChannelStep(written, ReadBehind(written, writeHead, delaySamples))
  }

  /** The write head advanced by one sample, reset to 0 at the end. */
  function NextWriteHead(writeHead: int, len: int): (r: int)
    requires 0 <= writeHead < len
    ensures 0 <= r < len
    ensures r == 0 <==> writeHead == len - 1
  {
    if writeHead + 1 >= len then 0 else writeHead + 1
  }

  /** The advanced write head is `(writeHead + 1) mod len`. */
  lemma NextWriteHeadIsMod(writeHead: int, len: int)
    requires 0 <= writeHead < len
    ensures NextWriteHead(writeHead, len) == (writeHead + 1) % len
  {
    ModOneTurn(writeHead + 1, len);
  }
}
