/**
 * Box geometry: the normalisation of a box dragged in any direction into a
 * canonical box with non-negative size (`normalizeBoxSize` in src/index.js).
 * Coordinates are integers, so the source's rounding is the identity.
 */
module BoxGeometry {
  import opened Options

  /** A box as the 4-tuple `[x, y, width, height]` of the source. */
  datatype Box = Box(x: int, y: int, w: int, h: int)

  /** The box of size zero at the origin: what an absent box normalises to. */
  const Empty := Box(0, 0, 0, 0)

  function Min(a: int, b: int): int { if a <= b then a else b }

  function Max(a: int, b: int): int { if a <= b then b else a }

  /** `Math.abs` on integers. */
  function Abs(n: int): (r: nat)
    ensures r == n || r == -n
  {
    if n < 0 then -n else n
  }

  /** A canonical box: its width and height are non-negative. */
  predicate IsCanonical(b: Box) {
    b.w >= 0 && b.h >= 0
  }

  /**
   * `r` covers the same rectangle as the (possibly negative-sized) box `b`:
   * on each axis it runs from the smaller to the larger of the anchor and
   * the anchor plus the signed size.
   */
  predicate SameExtent(r: Box, b: Box) {
    && r.x == Min(b.x, b.x + b.w) && r.x + r.w == Max(b.x, b.x + b.w)
    && r.y == Min(b.y, b.y + b.h) && r.y + r.h == Max(b.y, b.y + b.h)
  }

  /** A canonical box lies inside the canvas `[0, W] x [0, H]`. */
  predicate InCanvas(b: Box, W: int, H: int) {
    0 <= b.x && b.x + b.w <= W && 0 <= b.y && b.y + b.h <= H
  }

  /** Both corners of a raw box, anchor and tip, lie inside `[0, W] x [0, H]`. */
  predicate CornersInCanvas(b: Box, W: int, H: int) {
    && 0 <= b.x <= W && 0 <= b.x + b.w <= W
    && 0 <= b.y <= H && 0 <= b.y + b.h <= H
  }

  /**
   * `normalizeBoxSize`: an absent box becomes the empty box; a present one
   * becomes the canonical box over the same rectangle.
   */
  function Normalize(box: Option<Box>): (r: Box)
    ensures IsCanonical(r)
    ensures box.None? ==> r == Empty
    ensures box.Some? ==> SameExtent(r, box.value)
    ensures box.Some? ==> r.w == Abs(box.value.w) && r.h == Abs(box.value.h)
  {
    match box
    case None => Empty
    case Some(Box(x, y, width, height)) =>
      Box(if width < 0 then x - Abs(width) else x,
          if height < 0 then y - Abs(height) else y,
          Abs(width),
          Abs(height))
  }

  /** A canonical box is the only canonical box over its own rectangle. */
  lemma CanonicalByExtent(r: Box, s: Box, b: Box)
    requires IsCanonical(r) && IsCanonical(s)
    requires SameExtent(r, b) && SameExtent(s, b)
    ensures r == s
  {
  }

  /** Normalisation leaves a box unchanged exactly when the box is canonical. */
  lemma NormalizeFixesExactlyCanonical(b: Box)
    ensures Normalize(Some(b)) == b <==> IsCanonical(b)
  {
    if IsCanonical(b) {
      assert SameExtent(b, b);
      CanonicalByExtent(Normalize(Some(b)), b, b);
    }
  }

  /** Normalising twice is normalising once. */
  lemma NormalizeIdempotent(box: Option<Box>)
    ensures Normalize(Some(Normalize(box))) == Normalize(box)
  {
    NormalizeFixesExactlyCanonical(Normalize(box));
  }

  /**
   * The canonical box does not depend on the direction of the drag: a box
   * anchored at one corner and one anchored at the opposite corner agree.
   */
  lemma NormalizeDirectionIndependent(x: int, y: int, w: int, h: int)
    ensures Normalize(Some(Box(x, y, w, h))) == Normalize(Some(Box(x + w, y + h, -w, -h)))
  {
    var b, b' := Box(x, y, w, h), Box(x + w, y + h, -w, -h);
    assert SameExtent(Normalize(Some(b')), b);
    CanonicalByExtent(Normalize(Some(b)), Normalize(Some(b')), b);
  }

  /** A raw box whose corners are in the canvas normalises into the canvas. */
  lemma NormalizeInCanvas(b: Box, W: int, H: int)
    requires CornersInCanvas(b, W, H)
    ensures InCanvas(Normalize(Some(b)), W, H)
  {
  }
}
