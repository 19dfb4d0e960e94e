/**
 * The "cover" placement of a frame on the canvas (components/ParallaxHero.tsx,
 * the drawing branch of `handleScroll`). It reproduces `object-fit: cover`
 * with the default centred `object-position` of CSS Images Module Level 3,
 * section 5.5 ("Sizing Objects: the object-fit property"): the image keeps its
 * aspect ratio, is scaled to the smallest size that covers the whole canvas,
 * and is centred, so the overflow is cropped equally on both sides.
 */
module CoverFit {

  /** A destination rectangle: top-left corner and size, in canvas pixels. */
  datatype Rect = Rect(x: real, y: real, width: real, height: real)

  /**
   * Where `drawImage` puts an image of `imageWidth` x `imageHeight` on a canvas
   * of `canvasWidth` x `canvasHeight`. Positive sizes are required: the source
   * divides by both heights and by the image ratio.
   */
  function Cover(canvasWidth: real, canvasHeight: real, imageWidth: real, imageHeight: real): (r: Rect)
    requires canvasWidth > 0.0 && canvasHeight > 0.0 && imageWidth > 0.0 && imageHeight > 0.0
    ensures r.width * imageHeight == r.height * imageWidth
    ensures r.width >= canvasWidth && r.height >= canvasHeight
    ensures r.width == canvasWidth || r.height == canvasHeight
    ensures r.x == (canvasWidth - r.width) / 2.0 && r.y == (canvasHeight - r.height) / 2.0
    ensures r.x <= 0.0 && r.y <= 0.0
  {
    var canvasRatio := canvasWidth / canvasHeight;
    var imgRatio := imageWidth / imageHeight;
    if imgRatio > canvasRatio then
      var drawHeight := canvasHeight;
      var drawWidth := canvasHeight * imgRatio;
      CoverWideImage(canvasWidth, canvasHeight, imageWidth, imageHeight);
      Rect((canvasWidth - drawWidth) / 2.0, 0.0, drawWidth, drawHeight)
    else
      var drawWidth := canvasWidth;
      var drawHeight := canvasWidth / imgRatio;
      CoverTallImage(canvasWidth, canvasHeight, imageWidth, imageHeight);
      Rect(0.0, (canvasHeight - drawHeight) / 2.0, drawWidth, drawHeight)
  }

  /** The branch where the image is relatively wider than the canvas: height is matched. */
  lemma CoverWideImage(cw: real, ch: real, iw: real, ih: real)
    requires cw > 0.0 && ch > 0.0 && iw > 0.0 && ih > 0.0
    requires iw / ih > cw / ch
    ensures ch * (iw / ih) * ih == ch * iw
    ensures ch * (iw / ih) > cw
  {
    var r := iw / ih;
    assert r * ih == iw;
    assert (cw / ch) * ch == cw;
    assert ch * r > ch * (cw / ch);
  }

  /** The branch where the image is relatively taller than the canvas (or equal): width is matched. */
  lemma CoverTallImage(cw: real, ch: real, iw: real, ih: real)
    requires cw > 0.0 && ch > 0.0 && iw > 0.0 && ih > 0.0
    requires !(iw / ih > cw / ch)
    ensures iw / ih > 0.0
    ensures cw * ih == (cw / (iw / ih)) * iw
    ensures cw / (iw / ih) >= ch
  {
    var r := iw / ih;
    assert r * ih == iw;
    var h := cw / r;
    assert h * r == cw;
    assert h * iw == h * r * ih;
    assert (cw / ch) * ch == cw;
    assert r <= cw / ch;
  }

  /**
   * The drawn rectangle is the smallest one with the image's aspect ratio that
   * covers the canvas: any scale factor `s` that covers the canvas gives a
   * rectangle at least as large in both directions.
   */
  lemma CoverIsSmallestCovering(canvasWidth: real, canvasHeight: real, imageWidth: real, imageHeight: real, s: real)
    requires canvasWidth > 0.0 && canvasHeight > 0.0 && imageWidth > 0.0 && imageHeight > 0.0
    requires s * imageWidth >= canvasWidth && s * imageHeight >= canvasHeight
    ensures Cover(canvasWidth, canvasHeight, imageWidth, imageHeight).width <= s * imageWidth
    ensures Cover(canvasWidth, canvasHeight, imageWidth, imageHeight).height <= s * imageHeight
  {
    var r := Cover(canvasWidth, canvasHeight, imageWidth, imageHeight);
    if r.height == canvasHeight {
      // r.width = canvasHeight * imageWidth / imageHeight <= s * imageWidth
      assert r.width * imageHeight == canvasHeight * imageWidth;
      assert r.width * imageHeight <= s * imageHeight * imageWidth;
    } else {
      assert r.width == canvasWidth;
      assert canvasWidth * imageHeight == r.height * imageWidth;
      assert r.height * imageWidth <= s * imageHeight * imageWidth;
    }
  }

  /** A 800 x 1000 frame on a 1920 x 1080 canvas fills the width and is cropped 660 pixels top and bottom. */
  lemma CoverPortraitOnLandscape()
    ensures Cover(1920.0, 1080.0, 800.0, 1000.0) == Rect(0.0, -660.0, 1920.0, 2400.0)
  {
  }
}
