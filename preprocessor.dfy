/** Variant planning (src/preprocessor.rs): which grayscale renditions of an image are
    handed to the decoding engines, in which order, and how each is derived.
    The image-library operations (grayscale conversion, resampling, contrast stretch,
    Otsu binarization, adaptive threshold) are opaque: they are supplied as the
    fields of `ImageOps`, of which only "keeps the dimensions" is assumed. */
module Preprocessor {
  import opened Common

  /** A decoded image file of any colour type (`image::DynamicImage`); its samples are
      only ever handed to the opaque operations. */
  datatype SourceImage = SourceImage(width: U32, height: U32, samples: seq<int>)

  /** An 8-bit grayscale buffer (`image::GrayImage`), row-major. */
  datatype GrayImage = GrayImage(width: U32, height: U32, pixels: seq<Byte>) {
    /** The buffer invariant of `ImageBuffer`: one sample per pixel. */
    predicate WellFormed() {
      |pixels| == width * height
    }
  }

  predicate SameShape(a: GrayImage, b: GrayImage) {
    a.WellFormed() && a.width == b.width && a.height == b.height
  }

  /** The image-library operations the preprocessor calls but does not implement. */
  datatype ImageOps = ImageOps(
    toLuma8: SourceImage -> GrayImage,              // DynamicImage::to_luma8
    downscale: SourceImage -> SourceImage,          // resize(img, 2000 / max_dimension)
    stretch: (GrayImage, Byte, Byte) -> GrayImage,  // stretch_contrast(g, lo, hi, 0, 255)
    otsu: GrayImage -> GrayImage,                   // threshold(g, otsu_level(g), Binary)
    adaptive: (GrayImage, nat) -> GrayImage)        // adaptive_threshold(g, block_radius)
  {
    /** Grayscale conversion keeps the source's dimensions and every per-pixel
        operation keeps the dimensions of its input. */
    ghost predicate Valid() {
      && (forall s: SourceImage ::
            toLuma8(s).WellFormed() && toLuma8(s).width == s.width && toLuma8(s).height == s.height)
      && (forall g: GrayImage, lo: Byte, hi: Byte :: g.WellFormed() ==> SameShape(stretch(g, lo, hi), g))
      && (forall g: GrayImage :: g.WellFormed() ==> SameShape(otsu(g), g))
      && (forall g: GrayImage, r: nat :: g.WellFormed() ==> SameShape(adaptive(g, r), g))
    }
  }

  /** The largest dimension an image may have before it is downsampled. */
  const MAX_DIMENSION: nat := 2000

  /** The image the engines work on: downsampled only when its larger side exceeds
      `MAX_DIMENSION` (src/scanner.rs:106-117, src/analyzer.rs:71-76). */
  function WorkingImage(img: SourceImage, ops: ImageOps): (w: SourceImage)
    ensures Max(img.width, img.height) <= MAX_DIMENSION ==> w == img
    ensures Max(img.width, img.height) > MAX_DIMENSION ==> w == ops.downscale(img)
  {
    if Max(img.width, img.height) > MAX_DIMENSION then ops.downscale(img) else img
  }

  /** The `(min, max)` fold of `enhance_contrast`, seeded with `(255, 0)`. */
  function MinMaxFold(pixels: seq<Byte>): (r: (Byte, Byte))
    ensures forall i :: 0 <= i < |pixels| ==> r.0 <= pixels[i] <= r.1
    ensures |pixels| == 0 ==> r == (255, 0)
    ensures |pixels| > 0 ==> r.0 in pixels && r.1 in pixels
  {
    if |pixels| == 0 then (255, 0)
    else
      var acc := MinMaxFold(pixels[..|pixels| - 1]);
      var p := pixels[|pixels| - 1];
      (if p < acc.0 then p else acc.0, if p > acc.1 then p else acc.1)
  }

  /** Every pixel has the same value (vacuously so for an empty image). */
  predicate Uniform(pixels: seq<Byte>) {
    forall i, j :: 0 <= i < |pixels| && 0 <= j < |pixels| ==> pixels[i] == pixels[j]
  }

  /** The stretch is skipped (`min >= max`) exactly for uniform or empty images. */
  lemma NoStretchIffUniform(pixels: seq<Byte>)
    ensures MinMaxFold(pixels).0 >= MinMaxFold(pixels).1 <==> Uniform(pixels)
  {
    var r := MinMaxFold(pixels);
    if r.0 >= r.1 && |pixels| > 0 {
      forall i, j | 0 <= i < |pixels| && 0 <= j < |pixels| ensures pixels[i] == pixels[j] {
        assert r.0 <= pixels[i] <= r.1 && r.0 <= pixels[j] <= r.1;
      }
    }
    if Uniform(pixels) && |pixels| > 0 {
      var a :| a in pixels && a == r.0;
      var b :| b in pixels && b == r.1;
      var i :| 0 <= i < |pixels| && pixels[i] == a;
      var j :| 0 <= j < |pixels| && pixels[j] == b;
      assert pixels[i] == pixels[j];
    }
  }

  /** `enhance_contrast`: stretch `[min, max]` onto the full range, or return the image
      itself when there is nothing to stretch. */
  function EnhanceContrast(gray: GrayImage, ops: ImageOps): (r: GrayImage)
    requires gray.WellFormed() && ops.Valid()
    ensures SameShape(r, gray)
    ensures Uniform(gray.pixels) ==> r == gray
    ensures !Uniform(gray.pixels) ==>
              var mm := MinMaxFold(gray.pixels); mm.0 < mm.1 && r == ops.stretch(gray, mm.0, mm.1)
  {
    NoStretchIffUniform(gray.pixels);
    var mm := MinMaxFold(gray.pixels);
    if mm.0 < mm.1 then ops.stretch(gray, mm.0, mm.1) else gray
  }

  /** `invert`: a new buffer of the same dimensions in which pixel `p` becomes `255 - p`. */
  function Invert(gray: GrayImage): (r: GrayImage)
    requires gray.WellFormed()
    ensures SameShape(r, gray)
    ensures forall i :: 0 <= i < |gray.pixels| ==> r.pixels[i] == 255 - gray.pixels[i]
  {
    GrayImage(gray.width, gray.height,
              seq(gray.width * gray.height, i requires 0 <= i < |gray.pixels| => 255 - gray.pixels[i]))
  }

  /** Inverting twice gives back the image. */
  lemma InvertInvolution(gray: GrayImage)
    requires gray.WellFormed()
    ensures Invert(Invert(gray)) == gray
  {
    var twice := Invert(Invert(gray));
    assert twice.pixels == gray.pixels;
  }

  /** `width as u64 * height as u64`: the product of two `u32` values cannot overflow `u64`. */
  function PixelCount(width: U32, height: U32): (n: nat)
    ensures n < U64_MODULUS
  {
    ProductBound(width, height);
    width * height
  }

  lemma ProductBound(a: nat, b: nat)
    requires a < U32_MODULUS && b < U32_MODULUS
    ensures a * b < U64_MODULUS
  {
    var m := U32_MODULUS - 1;
    forall x: nat, y: nat, z: nat | x <= y
      ensures x * z <= y * z
    {
    }
    assert a * b <= m * b == b * m <= m * m;
  }

  /** The pixel count at and above which the adaptive variant is skipped. */
  const ADAPTIVE_PIXEL_LIMIT: nat := 10_000_000

  /** Whether the adaptive-threshold variant is generated. */
  predicate AdaptiveIncluded(width: U32, height: U32) {
    width > 100 && height > 100 && PixelCount(width, height) < ADAPTIVE_PIXEL_LIMIT
  }

  /** `(width.min(height) / 50).clamp(5, 50)`. */
  function BlockRadius(width: nat, height: nat): (r: nat)
    ensures 5 <= r <= 50
    ensures 5 <= Min(width, height) / 50 <= 50 ==> r == Min(width, height) / 50
    ensures Min(width, height) / 50 < 5 ==> r == 5
    ensures Min(width, height) / 50 > 50 ==> r == 50
  {
    var q := Min(width, height) / 50;
    if q < 5 then 5 else if q > 50 then 50 else q
  }

  /** One labelled rendition of the image. */
  datatype Variant = Variant(name: string, image: GrayImage)

  function Names(vs: seq<Variant>): seq<string> {
    seq(|vs|, i requires 0 <= i < |vs| => vs[i].name)
  }

  /** The variants `generate_variants` produces from the grayscale image `gray`:
      original, contrast-enhanced, Otsu, inverted, and adaptive when the size allows. */
  function Variants(gray: GrayImage, ops: ImageOps): (vs: seq<Variant>)
    requires gray.WellFormed() && ops.Valid()
    ensures Names(vs) == ["original", "contrast_enhanced", "otsu", "inverted"] +
                          (if AdaptiveIncluded(gray.width, gray.height) then ["adaptive"] else [])
    ensures 4 <= |vs| <= 5
    ensures vs[0].image == gray
    ensures vs[1].image == EnhanceContrast(gray, ops)
    ensures vs[2].image == ops.otsu(vs[1].image)
    ensures vs[3].image == Invert(vs[1].image)
    ensures |vs| == 5 ==> vs[4].image == ops.adaptive(vs[1].image, BlockRadius(gray.width, gray.height))
  {
    var enhanced := EnhanceContrast(gray, ops);
    var common := [ Variant("original", gray),
                    Variant("contrast_enhanced", enhanced),
                    Variant("otsu", ops.otsu(enhanced)),
                    Variant("inverted", Invert(enhanced)) ];
    if AdaptiveIncluded(gray.width, gray.height) then
      common + [Variant("adaptive", ops.adaptive(enhanced, BlockRadius(gray.width, gray.height)))]
    else
      common
  }

  /** Every variant keeps the shape of the grayscale image it was made from. */
  lemma VariantsKeepShape(gray: GrayImage, ops: ImageOps)
    requires gray.WellFormed() && ops.Valid()
    ensures forall i :: 0 <= i < |Variants(gray, ops)| ==> SameShape(Variants(gray, ops)[i].image, gray)
  {
    var vs := Variants(gray, ops);
    assert SameShape(vs[1].image, gray);
    if |vs| == 5 {
      assert SameShape(vs[4].image, vs[1].image);
    }
  }

  /** `generate_variants`, pushing one variant at a time onto the list. */
  method GenerateVariants(gray: GrayImage, ops: ImageOps) returns (variants: seq<Variant>)
    requires gray.WellFormed() && ops.Valid()
    ensures variants == Variants(gray, ops)
  {
    variants := [];
    variants := variants + [Variant("original", gray)];
    var enhanced := EnhanceContrast(gray, ops);
    variants := variants + [Variant("contrast_enhanced", enhanced)];
    variants := variants + [Variant("otsu", ops.otsu(enhanced))];
    variants := variants + [Variant("inverted", Invert(enhanced))];
    assert variants == Variants(gray, ops)[..4];
    var width, height := gray.width, gray.height;
    var pixelCount := PixelCount(width, height);
    if width > 100 && height > 100 && pixelCount < ADAPTIVE_PIXEL_LIMIT {
      var blockRadius := Min(width, height) / 50;
      blockRadius := if blockRadius < 5 then 5 else if blockRadius > 50 then 50 else blockRadius;
      assert blockRadius == BlockRadius(width, height);
      variants := variants + [Variant("adaptive", ops.adaptive(enhanced, blockRadius))];
    }
  }

  /** For an image at most `MAX_DIMENSION` on each side, the pixel count is always
      below the adaptive limit, so only a side of at most 100 pixels skips it. */
  lemma SmallImagesGetAdaptive(width: U32, height: U32)
    requires width <= MAX_DIMENSION && height <= MAX_DIMENSION
    ensures AdaptiveIncluded(width, height) <==> width > 100 && height > 100
  {
    assert width * height <= MAX_DIMENSION * height == height * MAX_DIMENSION <= MAX_DIMENSION * MAX_DIMENSION;
  }
}
