/** Arithmetic of the frame accumulator of src/sprites.c: how many whole frame
    durations an accumulated time holds, and index arithmetic modulo a frame count.

    `Span(k, d)`, the time `k` frames of duration `d` take, is written as a sum rather
    than as the product `k * d` so that the animation proofs stay linear; `SpanIsProduct`
    connects the two. */
module FrameTime {

  /** The time `k` frames of duration `d` take. */
  function Span(k: nat, d: real): real {
    if k == 0 then 0.0 else Span(k - 1, d) + d
  }

  lemma {:induction false} SpanIsProduct(k: nat, d: real)
    ensures Span(k, d) == k as real * d
  {
    if k > 0 {
      SpanIsProduct(k - 1, d);
    }
  }

  /** Spans of positive frames grow with the number of frames. */
  lemma {:induction false} SpanMono(i: nat, j: nat, d: real)
    requires d > 0.0 && i <= j
    ensures Span(i, d) <= Span(j, d)
    ensures i < j ==> Span(i, d) + d <= Span(j, d)
  {
    if i < j {
      SpanMono(i, j - 1, d);
    }
  }

  lemma {:induction false} SpanAdd(i: nat, j: nat, d: real)
    ensures Span(i + j, d) == Span(i, d) + Span(j, d)
  {
    if j > 0 {
      SpanAdd(i, j - 1, d);
    }
  }

  /** The number of whole frame durations `d` contained in the accumulated time `t`:
      how many times the accumulator loop of Anim_Update runs if nothing stops it. */
  function WholeFrames(t: real, d: real): (k: nat)
    requires d > 0.0
    ensures t < Span(k + 1, d)
    ensures k > 0 ==> Span(k, d) <= t
  {
    if t < d then 0
    else
      FloorBounds(t, d);
      (t / d).Floor
  }

  /** For `t >= d`, the floor of `t / d` is a positive count of durations that fit. */
  lemma FloorBounds(t: real, d: real)
    requires d > 0.0 && t >= d
    ensures (t / d).Floor >= 1
    ensures Span((t / d).Floor, d) <= t < Span((t / d).Floor + 1, d)
  {
    var q := t / d;
    assert q * d == t;
    var f := q.Floor;
    FloorTimes(q, d);
    assert q * d < (f + 1) as real * d;
    assert t < (f + 1) as real * d;
    assert f as real * d <= t;
    DivAtLeastOne(t, d);
    SpanIsProduct(f, d);
    SpanIsProduct(f + 1, d);
  }

  lemma DivAtLeastOne(t: real, d: real)
    requires d > 0.0 && t >= d
    ensures t / d >= 1.0
  {
  }

  lemma FloorTimes(q: real, d: real)
    requires d > 0.0
    ensures q.Floor as real * d <= q * d < (q.Floor + 1) as real * d
  {
    var f := q.Floor as real;
    assert (q - f) * d >= 0.0;
    assert (f + 1.0 - q) * d > 0.0;
  }

  /** The count of whole durations is determined by the remainder it leaves. */
  lemma WholeFramesExact(t: real, d: real, k: nat)
    requires d > 0.0
    requires t - Span(k, d) < d
    requires k > 0 ==> Span(k, d) <= t
    ensures WholeFrames(t, d) == k
  {
    var w := WholeFrames(t, d);
    if w > k {
      SpanMono(k, w, d);
    } else if w < k {
      SpanMono(w + 1, k, d);
    }
  }

  lemma WholeFramesAtLeast(t: real, d: real, s: nat)
    requires d > 0.0
    requires s > 0 && Span(s, d) <= t
    ensures WholeFrames(t, d) >= s
  {
    var w := WholeFrames(t, d);
    if w < s {
      SpanMono(w + 1, s, d);
    }
  }

  lemma WholeFramesAtMost(t: real, d: real, s: nat)
    requires d > 0.0
    requires s <= WholeFrames(t, d)
    ensures s > 0 ==> Span(s, d) <= t
  {
    if s > 0 {
      SpanMono(s, WholeFrames(t, d), d);
    }
  }

  /** The whole durations in `t0 + (d1 + d2)` are those in `t0 + d1` plus those in
      what that leaves over plus `d2`, and both ways leave the same remainder. */
  lemma WholeFramesSplit(t0: real, d1: real, d2: real, d: real)
    requires d > 0.0 && t0 + d1 >= 0.0 && d2 >= 0.0
    ensures var k1 := WholeFrames(t0 + d1, d);
      var k2 := WholeFrames(t0 + d1 - Span(k1, d) + d2, d);
      && WholeFrames(t0 + (d1 + d2), d) == k1 + k2
      && t0 + (d1 + d2) - Span(k1 + k2, d) == t0 + d1 - Span(k1, d) + d2 - Span(k2, d)
  {
    var k1 := WholeFrames(t0 + d1, d);
    var k2 := WholeFrames(t0 + d1 - Span(k1, d) + d2, d);
    SpanAdd(k1, k2, d);
    WholeFramesExact(t0 + (d1 + d2), d, k1 + k2);
  }

  // --- indices modulo a frame count ------------------------------------------

  lemma ModUnique(x: int, n: int, q: int, r: int)
    requires n > 0 && 0 <= r < n && x == n * q + r
    ensures x % n == r && x / n == q
  {
    var q', r' := x / n, x % n;
    assert x == n * q' + r';
    if q' > q {
      assert n * q' >= n * (q + 1) by { MulMono(n, q + 1, q'); }
    } else if q' < q {
      assert n * q >= n * (q' + 1) by { MulMono(n, q' + 1, q); }
    }
  }

  lemma MulMono(n: int, a: int, b: int)
    requires n > 0 && a <= b
    ensures n * a <= n * b
  {
    assert n * b - n * a == n * (b - a);
  }

  lemma ModStep(x: int, n: int)
    requires n > 0
    ensures (x + 1) % n == if x % n + 1 == n then 0 else x % n + 1
  {
    var q, m := x / n, x % n;
    assert x == n * q + m;
    if m + 1 == n {
      assert x + 1 == n * (q + 1);
      ModUnique(x + 1, n, q + 1, 0);
    } else {
      ModUnique(x + 1, n, q, m + 1);
    }
  }

  lemma ModAdd(c: int, p: int, q: int, n: int)
    requires n > 0
    ensures ((c + p) % n + q) % n == (c + (p + q)) % n
  {
    var x := c + p;
    var q1, m := x / n, x % n;
    var q2, m2 := (m + q) / n, (m + q) % n;
    assert m + q == n * q2 + m2;
    assert c + (p + q) == n * (q1 + q2) + m2;
    ModUnique(c + (p + q), n, q1 + q2, m2);
  }
}
