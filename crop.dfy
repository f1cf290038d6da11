/**
 * The image arithmetic of `CustomUser.save`: the centred-square crop box
 * computed from an image's width and height with floor division, and the
 * sizes that PIL's `crop` and `resize` produce. Pixel contents are not
 * modelled; an image is its size.
 */
module Crop {

  /** The size of an image, in pixels. */
  datatype Dims = Dims(width: nat, height: nat)

  /** A PIL crop box `(left, top, right, bottom)`. */
  datatype Box = Box(left: int, top: int, right: int, bottom: int)

  /** The side of the stored profile photo: `resize((300, 300))`. */
  const ProfileSide: nat := 300

  function Min(a: nat, b: nat): nat
  {
    if b < a then b else a
  }

  /**
   * The box `save` crops to: a square of side `min(w, h)` whose margins on
   * the longer dimension are `(longer - min_side) // 2` before it and the
   * rest after it. Both dimensions are non-negative, so Dafny's `/` is
   * Python's `//` here.
   */
  function CropBox(w: nat, h: nat): (b: Box)
    ensures b.right - b.left == Min(w, h) && b.bottom - b.top == Min(w, h)
    ensures 0 <= b.left && b.right <= w && 0 <= b.top && b.bottom <= h
    ensures b.left <= w - b.right <= b.left + 1
    ensures b.top <= h - b.bottom <= b.top + 1
  {
    var minSide := Min(w, h);
    var left := (w - minSide) / 2;
    var top := (h - minSide) / 2;
    Box(left, top, left + minSide, top + minSide)
  }

  /**
   * An independent description of the box: a square of side `min(w, h)`
   * inside the image, centred so that the margin after it equals the margin
   * before it or exceeds it by one pixel.
   */
  predicate CentredSquare(w: nat, h: nat, b: Box)
  {
    && b.right - b.left == Min(w, h) && b.bottom - b.top == Min(w, h)
    && 0 <= b.left && b.right <= w && 0 <= b.top && b.bottom <= h
    && b.left <= w - b.right <= b.left + 1
    && b.top <= h - b.bottom <= b.top + 1
  }

  /** The crop box is the one and only centred square of the image. */
  lemma CropBoxIsTheCentredSquare(w: nat, h: nat, b: Box)
    ensures CentredSquare(w, h, b) <==> b == CropBox(w, h)
  {
  }

  /** The shorter dimension is kept whole; only the longer one is trimmed. */
  lemma ShorterSideKeptWhole(w: nat, h: nat)
    ensures w <= h ==> CropBox(w, h).left == 0 && CropBox(w, h).right == w
    ensures h <= w ==> CropBox(w, h).top == 0 && CropBox(w, h).bottom == h
  {
  }

  /** A square image's crop box is the whole image. */
  lemma SquareCropIsWhole(n: nat)
    ensures CropBox(n, n) == Box(0, 0, n, n)
  {
  }

  /** A 400x600 portrait keeps its full width and loses 100 pixels top and bottom. */
  lemma PortraitExample()
    ensures CropBox(400, 600) == Box(0, 100, 400, 500)
  {
  }

  /** The size of `img.crop(b)`: the box's width and height. */
  function Cropped(b: Box): Dims
    requires b.left <= b.right && b.top <= b.bottom
  {
    Dims(b.right - b.left, b.bottom - b.top)
  }

  /** The size of `img.resize(size)`: exactly the requested size, whatever the input. */
  function Resized(d: Dims, size: Dims): Dims
  {
    size
  }

  /**
   * The size of the stored photo after `save` has processed an image of size
   * `d`: crop to the centred square, then resize to 300x300.
   */
  function Normalized(d: Dims): (r: Dims)
    ensures r == Dims(ProfileSide, ProfileSide)
  {
    var b := CropBox(d.width, d.height);
    Resized(Cropped(b), Dims(ProfileSide, ProfileSide))
  }

  /** The crop step turns any image into a square of side `min(w, h)`; a square image keeps its size. */
  lemma CropMakesSquare(d: Dims)
    ensures Cropped(CropBox(d.width, d.height)) == Dims(Min(d.width, d.height), Min(d.width, d.height))
    ensures d.width == d.height ==> Cropped(CropBox(d.width, d.height)) == d
  {
  }
}
