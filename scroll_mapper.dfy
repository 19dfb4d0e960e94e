/**
 * Scroll position to frame index (components/ParallaxHero.tsx, `handleScroll`).
 *
 * The hero container is `scrollHeight` tall and starts at `startY`
 * (`offsetTop`); playback runs while the page scrolls from `startY` to
 * `endY = startY + scrollHeight - innerHeight`. The numbers are exact reals:
 * JavaScript's floating-point rounding is not modelled.
 */
module ScrollMapper {
  import opened FrameSequence

  function Min(a: real, b: real): real {
    if a <= b then a else b
  }

  function Max(a: real, b: real): real {
    if a >= b then a else b
  }

  /** `startY + container.scrollHeight - window.innerHeight`. */
  function ScrollEnd(startY: real, scrollHeight: real, innerHeight: real): (endY: real)
    ensures endY > startY <==> scrollHeight > innerHeight
    ensures endY - startY == scrollHeight - innerHeight
  {
    startY + scrollHeight - innerHeight
  }

  /**
   * `Math.max(0, Math.min(1, (scrollY - startY) / (endY - startY)))`. The
   * source divides without checking the divisor, so `endY > startY` is required.
   */
  function Progress(scrollY: real, startY: real, endY: real): (p: real)
    requires endY > startY
    ensures 0.0 <= p <= 1.0
    ensures scrollY <= startY ==> p == 0.0
    ensures scrollY >= endY ==> p == 1.0
    ensures startY <= scrollY <= endY ==> p * (endY - startY) == scrollY - startY
  {
    Max(0.0, Min(1.0, (scrollY - startY) / (endY - startY)))
  }

  /** `Math.min(TOTAL_FRAMES - 1, Math.floor(progress * (TOTAL_FRAMES - 1)))`. */
  function FrameIndex(progress: real): (i: int)
    requires 0.0 <= progress <= 1.0
    ensures 0 <= i < TOTAL_FRAMES
    ensures i as real <= progress * (TOTAL_FRAMES - 1) as real < i as real + 1.0
    ensures progress == 1.0 ==> i == TOTAL_FRAMES - 1
  {
    var f := (progress * (TOTAL_FRAMES - 1) as real).Floor;
    if TOTAL_FRAMES - 1 <= f then TOTAL_FRAMES - 1 else f
  }

  /** The frame shown at scroll offset `scrollY`. */
  function FrameIndexAt(scrollY: real, startY: real, endY: real): (i: int)
    requires endY > startY
    ensures 0 <= i < TOTAL_FRAMES
    ensures scrollY <= startY ==> i == 0
    ensures scrollY >= endY ==> i == TOTAL_FRAMES - 1
  {
    FrameIndex(Progress(scrollY, startY, endY))
  }

  /**
   * The `Math.min` guard never takes effect: the floor of a progress in
   * [0, 1] times 191 is already at most 191.
   */
  lemma FloorNeedsNoCap(progress: real)
    requires 0.0 <= progress <= 1.0
    ensures 0 <= (progress * (TOTAL_FRAMES - 1) as real).Floor <= TOTAL_FRAMES - 1
    ensures FrameIndex(progress) == (progress * (TOTAL_FRAMES - 1) as real).Floor
  {
  }

  /** Scrolling further down never shows an earlier frame. */
  lemma FrameIndexMonotonic(y1: real, y2: real, startY: real, endY: real)
    requires endY > startY && y1 <= y2
    ensures FrameIndexAt(y1, startY, endY) <= FrameIndexAt(y2, startY, endY)
  {
    var d := endY - startY;
    var q1, q2 := (y1 - startY) / d, (y2 - startY) / d;
    assert q1 * d == y1 - startY && q2 * d == y2 - startY;
    assert q1 <= q2;
    var p1, p2 := Progress(y1, startY, endY), Progress(y2, startY, endY);
    assert p1 <= p2;
    var n := (TOTAL_FRAMES - 1) as real;
    assert p1 * n <= p2 * n;
  }

  /**
   * Every frame is shown somewhere: frame `k` is shown exactly at the fraction
   * `k / 191` of the way from `startY` to `endY`.
   */
  lemma EveryFrameReached(k: nat, startY: real, endY: real)
    requires k < TOTAL_FRAMES && endY > startY
    ensures FrameIndexAt(startY + (k as real / (TOTAL_FRAMES - 1) as real) * (endY - startY), startY, endY) == k
  {
    var n := (TOTAL_FRAMES - 1) as real;
    var f := k as real / n;
    var d := endY - startY;
    var y := startY + f * d;
    assert f * d / d == f;
    assert (y - startY) / d == f;
    assert 0.0 <= f <= 1.0;
    assert Progress(y, startY, endY) == f;
    assert f * n == k as real;
    assert (f * n).Floor == k;
    assert FrameIndex(f) == k;
    assert FrameIndexAt(y, startY, endY) == k;
    assert y == startY + (k as real / (TOTAL_FRAMES - 1) as real) * (endY - startY);
  }
}
