/**
  The display-size resolution of an image provider, on values.

  A provider knows its image's format and natural (pixel) size, two flags
  (`useImageSize`, `resize`) and two optional explicit overrides (width,
  height). The width and height it reports are recomputed from exactly that
  state on every read.
 */
module ImageSizing {
  import opened Wrappers

  /** A natural image dimension in pixels; a decoded image is never empty. */
  type Pixels = n: int | n > 0 witness 1

  /** The image format tag reported by the provider. */
  datatype ImageFormat = Png | Jpeg | Gif

  /** What the image loader found: the format and, when it introspected the
      image, its natural width and height. */
  datatype ImageInfo = ImageInfo(format: ImageFormat, naturalWidth: Option<Pixels>, naturalHeight: Option<Pixels>)

  /** The whole state of a provider. */
  datatype Sizing = Sizing(info: ImageInfo, useImageSize: bool, resize: bool, width: Option<real>, height: Option<real>)

  /** The state right after loading: no overrides, `resize` off. */
  function Load(info: ImageInfo, useImageSize: bool): Sizing
  {
    Sizing(info, useImageSize, false, None, None)
  }

  /** Round to the nearest whole number, halves upward. */
  function Round(x: real): (n: int)
    ensures x - 0.5 < n as real <= x + 0.5
  {
    (x + 0.5).Floor
  }

  /** The whole number nearest to `v * toNatural / fromNatural`: a dimension
      scaled by the natural aspect ratio, then rounded. */
  function Scale(v: real, toNatural: Pixels, fromNatural: Pixels): (r: real)
    ensures r == r.Floor as real
    ensures v * toNatural as real - fromNatural as real / 2.0 < r * fromNatural as real
    ensures r * fromNatural as real <= v * toNatural as real + fromNatural as real / 2.0
  {
    var f := fromNatural as real;
    var exact := v * toNatural as real / f;
    var n := Round(exact);
    assert exact * f == v * toNatural as real;
    MulLess(exact - 0.5, n as real, f);
    MulAtMost(n as real, exact + 0.5, f);
    n as real
  }

  lemma WholeWithinHalf(k: int, n: int)
    requires n as real - 0.5 < k as real <= n as real + 0.5
    ensures k == n
  {
  }

  lemma MulLess(a: real, b: real, f: real)
    requires a < b && f > 0.0
    ensures a * f < b * f
  {
  }

  lemma MulAtMost(a: real, b: real, f: real)
    requires a <= b && f > 0.0
    ensures a * f <= b * f
  {
  }

  /** A natural dimension as a display dimension. */
  function Natural(n: Option<Pixels>): Option<real>
  {
    if n.Some? then Some(n.value as real) else None
  }

  /** The resolution rule for one dimension, given its own override, the
      override of the other dimension and both natural sizes. */
  function Resolve(own: Option<real>, other: Option<real>, naturalOwn: Option<Pixels>, naturalOther: Option<Pixels>,
                   useImageSize: bool, resize: bool): Option<real>
  {
    if own.Some? then own
    else if !useImageSize then None
    else if resize && other.Some? && naturalOwn.Some? && naturalOther.Some? then
      Some(Scale(other.value, naturalOwn.value, naturalOther.value))
    else Natural(naturalOwn)
  }

  /** The width the provider reports. */
  function EffWidth(s: Sizing): (r: Option<real>)
    ensures s.width.Some? ==> r == s.width
    ensures r.Some? ==> s.width.Some? || (s.useImageSize && s.info.naturalWidth.Some?)
  {
    Resolve(s.width, s.height, s.info.naturalWidth, s.info.naturalHeight, s.useImageSize, s.resize)
  }

  /** The height the provider reports. */
  function EffHeight(s: Sizing): (r: Option<real>)
    ensures s.height.Some? ==> r == s.height
    ensures r.Some? ==> s.height.Some? || (s.useImageSize && s.info.naturalHeight.Some?)
  {
    Resolve(s.height, s.width, s.info.naturalHeight, s.info.naturalWidth, s.useImageSize, s.resize)
  }

  /** The state with width and height (overrides and natural sizes) swapped. */
  function Transpose(s: Sizing): Sizing
  {
    s.(info := s.info.(naturalWidth := s.info.naturalHeight, naturalHeight := s.info.naturalWidth),
       width := s.height, height := s.width)
  }

  /** The provider's setters, as values. */
  datatype Setter =
    | SetUseImageSize(flag: bool)
    | SetResize(flag: bool)
    | SetWidth(width: real)
    | SetSize(w: Option<real>, h: Option<real>)

  /** The state after one setter call. */
  function Apply(s: Sizing, op: Setter): (r: Sizing)
    ensures r.info == s.info
  {
    match op
    case SetUseImageSize(b) => s.(useImageSize := b)
    case SetResize(b) => s.(resize := b)
    case SetWidth(w) => s.(width := Some(w))
    case SetSize(w, h) => s.(width := w, height := h)
  }

  /** The state after a sequence of setter calls, first to last. */
  function Run(s: Sizing, ops: seq<Setter>): (r: Sizing)
    ensures r.info == s.info
    decreases |ops|
  {
    if ops == [] then s else Run(Apply(s, ops[0]), ops[1..])
  }

  /** True when every call in `ops` only toggles a flag. */
  predicate FlagsOnly(ops: seq<Setter>)
  {
    forall i :: 0 <= i < |ops| ==> ops[i].SetUseImageSize? || ops[i].SetResize?
  }

  // ---------------------------------------------------------------------
  // Properties of the resolution rule

  /** Without `useImageSize` a dimension is present exactly when it is
      overridden, and then it is the override: natural sizes and the ratio
      never take part. */
  lemma WithoutImageSizeOnlyOverrides(s: Sizing)
    requires !s.useImageSize
    ensures EffWidth(s) == s.width && EffHeight(s) == s.height
  {
  }

  /** With `useImageSize` and no override, the natural size is reported. */
  lemma NoOverrideGivesNaturalSize(s: Sizing)
    requires s.useImageSize && s.width.None? && s.height.None?
    ensures EffWidth(s) == Natural(s.info.naturalWidth)
    ensures EffHeight(s) == Natural(s.info.naturalHeight)
  {
  }

  /** With `resize` off, a dimension does not depend on the other one's
      override. */
  lemma NoResizeDimensionsIndependent(s: Sizing, w: Option<real>, h: Option<real>)
    requires !s.resize
    ensures EffWidth(s.(height := h)) == EffWidth(s)
    ensures EffHeight(s.(width := w)) == EffHeight(s)
  {
  }

  /** With `useImageSize` and `resize` on, exactly one override and both
      natural sizes known, the missing dimension is the override scaled by
      the natural aspect ratio and rounded: a whole number, within half a
      pixel of the exact ratio. */
  lemma ResizeKeepsAspectRatio(s: Sizing)
    requires s.useImageSize && s.resize
    requires s.info.naturalWidth.Some? && s.info.naturalHeight.Some?
    ensures s.width.Some? && s.height.None? ==>
      var nw, nh, w := s.info.naturalWidth.value as real, s.info.naturalHeight.value as real, s.width.value;
      EffHeight(s) == Some(Scale(w, s.info.naturalHeight.value, s.info.naturalWidth.value)) &&
      EffHeight(s).value == EffHeight(s).value.Floor as real &&
      w * nh - nw / 2.0 < EffHeight(s).value * nw <= w * nh + nw / 2.0
    ensures s.height.Some? && s.width.None? ==>
      var nw, nh, h := s.info.naturalWidth.value as real, s.info.naturalHeight.value as real, s.height.value;
      EffWidth(s) == Some(Scale(h, s.info.naturalWidth.value, s.info.naturalHeight.value)) &&
      EffWidth(s).value == EffWidth(s).value.Floor as real &&
      h * nw - nh / 2.0 < EffWidth(s).value * nh <= h * nw + nh / 2.0
  {
  }

  /** A ratio that comes out whole is reported exactly. */
  lemma ScaleExact(v: real, toNatural: Pixels, fromNatural: Pixels, n: int)
    requires v * toNatural as real == n as real * fromNatural as real
    ensures Scale(v, toNatural, fromNatural) == n as real
  {
    var r := Scale(v, toNatural, fromNatural);
    var f := fromNatural as real;
    assert (n as real - 0.5) * f == n as real * f - f / 2.0;
    assert (n as real + 0.5) * f == n as real * f + f / 2.0;
    if r <= n as real - 0.5 {
      MulAtMost(r, n as real - 0.5, f);
    }
    if r > n as real + 0.5 {
      MulLess(n as real + 0.5, r, f);
    }
    WholeWithinHalf(r.Floor, n);
  }

  /** Width and height follow one rule: the height is the width of the
      transposed state. */
  lemma HeightIsTransposedWidth(s: Sizing)
    ensures EffHeight(s) == EffWidth(Transpose(s))
    ensures EffWidth(s) == EffHeight(Transpose(s))
  {
  }

  // ---------------------------------------------------------------------
  // Properties of the setters

  /** `setUseImageSize` and `setResize` keep both overrides. */
  lemma {:induction false} FlagsKeepOverrides(s: Sizing, ops: seq<Setter>)
    requires FlagsOnly(ops)
    ensures Run(s, ops) == s.(useImageSize := Run(s, ops).useImageSize, resize := Run(s, ops).resize)
    decreases |ops|
  {
    if ops != [] {
      assert FlagsOnly(ops[1..]) by {
        forall i | 0 <= i < |ops[1..]| ensures ops[1..][i].SetUseImageSize? || ops[1..][i].SetResize? {
          assert ops[1..][i] == ops[i + 1];
        }
      }
      FlagsKeepOverrides(Apply(s, ops[0]), ops[1..]);
    }
  }

  /** No drift: any sequence of flag toggles that ends with the flags as they
      started gives back exactly the same width and height. */
  lemma FlagTogglesRoundTrip(s: Sizing, ops: seq<Setter>)
    requires FlagsOnly(ops)
    requires Run(s, ops).useImageSize == s.useImageSize && Run(s, ops).resize == s.resize
    ensures EffWidth(Run(s, ops)) == EffWidth(s) && EffHeight(Run(s, ops)) == EffHeight(s)
  {
    FlagsKeepOverrides(s, ops);
  }

  /** `setSize` replaces both overrides: afterwards nothing depends on the
      overrides that were there before. */
  lemma SetSizeReplacesOverrides(s: Sizing, t: Sizing, w: Option<real>, h: Option<real>)
    requires s.info == t.info && s.useImageSize == t.useImageSize && s.resize == t.resize
    ensures EffWidth(Apply(s, SetSize(w, h))) == EffWidth(Apply(t, SetSize(w, h)))
    ensures EffHeight(Apply(s, SetSize(w, h))) == EffHeight(Apply(t, SetSize(w, h)))
  {
  }

  /** `setWidth` fixes the width; with `resize` off or `useImageSize` off it
      leaves the height as it was. */
  lemma SetWidthKeepsHeightUnlessResizing(s: Sizing, w: real)
    ensures EffWidth(Apply(s, SetWidth(w))) == Some(w)
    ensures !s.resize || !s.useImageSize ==> EffHeight(Apply(s, SetWidth(w))) == EffHeight(s)
  {
  }

  /** Only the last value given to each flag and override matters: running
      two sequences one after the other is running their concatenation. */
  lemma {:induction false} RunConcat(s: Sizing, ops1: seq<Setter>, ops2: seq<Setter>)
    ensures Run(s, ops1 + ops2) == Run(Run(s, ops1), ops2)
    decreases |ops1|
  {
    if ops1 != [] {
      assert (ops1 + ops2)[0] == ops1[0];
      assert (ops1 + ops2)[1..] == ops1[1..] + ops2;
      RunConcat(Apply(s, ops1[0]), ops1[1..], ops2);
    } else {
      assert ops1 + ops2 == ops2;
    }
  }
}
