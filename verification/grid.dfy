/**
 * The equal-width bin grid of one axis: bin `i` of a grid that starts at
 * `origin` with width `delta` spans `origin + i*delta` to that plus
 * `delta`, and its mid point is the average of the two edges.
 */
module Grid {

  function Low(origin: real, delta: real, i: nat): real {
    origin + (i as real) * delta
  }

  function High(origin: real, delta: real, i: nat): real {
    Low(origin, delta, i) + delta
  }

  function Mid(origin: real, delta: real, i: nat): real {
    (High(origin, delta, i) + Low(origin, delta, i)) / 2.0
  }

  /** Consecutive bins share an edge, and every bin is `delta` wide. */
  lemma Contiguous(origin: real, delta: real, i: nat)
    ensures High(origin, delta, i) == Low(origin, delta, i + 1)
    ensures High(origin, delta, i) - Low(origin, delta, i) == delta
    ensures Low(origin, delta, i) <= Mid(origin, delta, i) <= High(origin, delta, i) <==> delta >= 0.0
  {
    assert ((i + 1) as real) * delta == (i as real) * delta + delta;
  }

  /**
   * The number of passes of PHP's `for ($i = 0; $i < $n; $i++)` when the
   * bound `$n` is any number: the naturals below `n`.
   */
  function Iters(n: real): nat
  {
    if n <= 0.0 then 0
    else if n.Floor as real == n then n.Floor
    else n.Floor + 1
  }

  lemma ItersBound(n: real, i: nat)
    ensures i < Iters(n) <==> (i as real) < n
  {
  }

  lemma ItersCover(n: real)
    requires n > 0.0
    ensures Iters(n) >= 1 && n <= Iters(n) as real
  {
  }

  /**
   * A value strictly above the grid's origin and at most `n` widths
   * above it lies in a bin that is open below and closed above.
   */
  lemma Locate(origin: real, delta: real, n: nat, v: real) returns (b: nat)
    requires delta > 0.0
    requires origin < v <= origin + (n as real) * delta
    ensures b < n
    ensures Low(origin, delta, b) < v <= High(origin, delta, b)
  {
    var t := (v - origin) / delta;
    b := LocateScaled(origin, delta, n, v, t);
  }

  /** `Locate`, given the offset `t` of `v` from the origin in widths. */
  lemma LocateScaled(origin: real, delta: real, n: nat, v: real, t: real) returns (b: nat)
    requires delta > 0.0
    requires origin < v <= origin + (n as real) * delta
    requires t * delta == v - origin
    ensures b < n
    ensures Low(origin, delta, b) < v <= High(origin, delta, b)
  {
    OffsetBounds(origin, delta, n, v, t);
    var k := t.Floor;
    if k as real == t {
      b := k - 1;
      OnUpperEdge(origin, delta, b, v, t);
    } else {
      b := k;
      Inside(origin, delta, b, v, t);
    }
  }

  lemma OffsetBounds(origin: real, delta: real, n: nat, v: real, t: real)
    requires delta > 0.0
    requires origin < v <= origin + (n as real) * delta
    requires t * delta == v - origin
    ensures 0.0 < t <= n as real
  {
    Unscale(0.0, t, delta);
    UnscaleLe(t, n as real, delta);
  }

  lemma OnUpperEdge(origin: real, delta: real, b: nat, v: real, t: real)
    requires delta > 0.0
    requires t * delta == v - origin
    requires (b + 1) as real == t
    ensures Low(origin, delta, b) < v <= High(origin, delta, b)
  {
    Contiguous(origin, delta, b);
    LowBelow(origin, delta, b, t);
  }

  lemma Inside(origin: real, delta: real, b: nat, v: real, t: real)
    requires delta > 0.0
    requires t * delta == v - origin
    requires b as real < t < (b + 1) as real
    ensures Low(origin, delta, b) < v <= High(origin, delta, b)
  {
    Contiguous(origin, delta, b);
    LowBelow(origin, delta, b, t);
    LowAbove(origin, delta, b + 1, t);
  }

  lemma LowBelow(origin: real, delta: real, b: nat, t: real)
    requires delta > 0.0 && (b as real) < t
    ensures Low(origin, delta, b) < origin + t * delta
  {
    ScaleMonotone(b as real, t, delta);
  }

  lemma LowAbove(origin: real, delta: real, b: nat, t: real)
    requires delta > 0.0 && t < (b as real)
    ensures origin + t * delta < Low(origin, delta, b)
  {
    ScaleMonotone(t, b as real, delta);
  }

  lemma Unscale(a: real, c: real, delta: real)
    requires delta > 0.0 && a * delta < c * delta
    ensures a < c
  {
    assert c - a == (c * delta - a * delta) / delta;
  }

  lemma UnscaleLe(a: real, c: real, delta: real)
    requires delta > 0.0 && a * delta <= c * delta
    ensures a <= c
  {
    assert c - a == (c * delta - a * delta) / delta;
  }

  lemma ScaleMonotone(a: real, c: real, delta: real)
    requires a < c && delta > 0.0
    ensures a * delta < c * delta
  {
    assert c * delta - a * delta == (c - a) * delta;
  }
  /**
   * The bin-index edge rule: the first bin is closed on both edges, every
   * later bin is open below and closed above.
   */
  predicate InBin(origin: real, delta: real, b: nat, v: real) {
    (if b == 0 then Low(origin, delta, b) <= v else Low(origin, delta, b) < v)
      && v <= High(origin, delta, b)
  }

  lemma LowMonotone(origin: real, delta: real, a: nat, b: nat)
    requires delta >= 0.0 && a <= b
    ensures Low(origin, delta, a) <= Low(origin, delta, b)
  {
    assert Low(origin, delta, b) - Low(origin, delta, a) == ((b - a) as real) * delta;
  }

  /** Under the bin-index rule every value of the grid's span lies in one of its `n` bins... */
  lemma InBinExists(origin: real, delta: real, n: nat, v: real) returns (b: nat)
    requires n > 0 && delta >= 0.0
    requires origin <= v <= origin + (n as real) * delta
    ensures b < n && InBin(origin, delta, b, v)
  {
    if v == origin {
      b := 0;
    } else {
      b := Locate(origin, delta, n, v);
    }
  }

  /** ... and in no later bin than that one. */
  lemma InBinExclusive(origin: real, delta: real, v: real, a: nat, b: nat)
    requires delta >= 0.0 && a < b
    requires InBin(origin, delta, a, v)
    ensures !InBin(origin, delta, b, v)
  {
    Contiguous(origin, delta, a);
    LowMonotone(origin, delta, a + 1, b);
  }
}
