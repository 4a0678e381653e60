/**
  The provider's unit tests as methods: each one drives a fresh provider over
  a 220x200 PNG logo through the same calls and returns what the getters
  report, and its postcondition is what the test asserts.
 */
module ImageProviderCases {
  import opened Wrappers
  import opened ImageSizing
  import opened FileImageProviders

  /** The test image: a PNG, 220 pixels wide and 200 high. */
  const Logo := ImageInfo(Png, Some(220), Some(200))

  method LoadPngWithoutUsingImageSize() returns (format: ImageFormat, width: Option<real>, height: Option<real>)
    ensures format == Png && width == None && height == None
  {
    var provider := new ImageProvider(Logo);
    format := provider.GetImageFormat();
    width := provider.GetWidth();
    height := provider.GetHeight();
  }

  method LoadPngAndUseImageSize() returns (format: ImageFormat, width: Option<real>, height: Option<real>)
    ensures format == Png && width == Some(220.0) && height == Some(200.0)
  {
    var provider := new ImageProvider.WithImageSize(Logo, true);
    format := provider.GetImageFormat();
    width := provider.GetWidth();
    height := provider.GetHeight();
  }

  /** Switching the natural size off and back on: sizes after each step. */
  method LoadPngAndModifyUseImageSize() returns (formats: seq<ImageFormat>, sizes: seq<(Option<real>, Option<real>)>)
    ensures formats == [Png, Png, Png]
    ensures sizes == [(Some(220.0), Some(200.0)), (None, None), (Some(220.0), Some(200.0))]
  {
    var provider := new ImageProvider.WithImageSize(Logo, true);
    formats := [provider.GetImageFormat()];
    sizes := [(provider.GetWidth(), provider.GetHeight())];
    provider.SetUseImageSize(false);
    formats := formats + [provider.GetImageFormat()];
    sizes := sizes + [(provider.GetWidth(), provider.GetHeight())];
    provider.SetUseImageSize(true);
    formats := formats + [provider.GetImageFormat()];
    sizes := sizes + [(provider.GetWidth(), provider.GetHeight())];
  }

  method LoadPngWithoutUsingImageSizeAndForceWidth() returns (format: ImageFormat, width: Option<real>, height: Option<real>)
    ensures format == Png && width == Some(100.0) && height == None
  {
    var provider := new ImageProvider(Logo);
    provider.SetWidth(100.0);
    format := provider.GetImageFormat();
    width := provider.GetWidth();
    height := provider.GetHeight();
  }

  method LoadPngByUsingImageSizeAndForceWidth() returns (format: ImageFormat, width: Option<real>, height: Option<real>)
    ensures format == Png && width == Some(100.0) && height == Some(200.0)
  {
    var provider := new ImageProvider.WithImageSize(Logo, true);
    provider.SetWidth(100.0);
    format := provider.GetImageFormat();
    width := provider.GetWidth();
    height := provider.GetHeight();
  }

  method LoadPngByUsingImageSizeAndForceWidthAndUseRatio() returns (format: ImageFormat, width: Option<real>, height: Option<real>)
    ensures format == Png && width == Some(100.0) && height == Some(91.0)
  {
    var provider := new ImageProvider.WithImageSize(Logo, true);
    provider.SetResize(true);
    provider.SetWidth(100.0);
    format := provider.GetImageFormat();
    width := provider.GetWidth();
    height := provider.GetHeight();
  }

  /** Toggling `resize` and `useImageSize` with a width override in place,
      then forcing the height: the format and width after the first step,
      the heights seen after each step, and the size at the end. */
  method LoadPngByAndChangeResize() returns (format: ImageFormat, firstWidth: Option<real>, heights: seq<Option<real>>,
                                             width: Option<real>, height: Option<real>)
    ensures format == Png && firstWidth == Some(100.0)
    ensures heights == [Some(91.0), Some(200.0), Some(91.0), None, Some(91.0)]
    ensures width == Some(1100.0) && height == Some(1000.0)
  {
    var provider := new ImageProvider.WithImageSize(Logo, true);
    provider.SetResize(true);
    provider.SetWidth(100.0);
    format := provider.GetImageFormat();
    firstWidth := provider.GetWidth();
    heights := [provider.GetHeight()];
    provider.SetResize(false);
    heights := heights + [provider.GetHeight()];
    provider.SetResize(true);
    heights := heights + [provider.GetHeight()];
    provider.SetUseImageSize(false);
    heights := heights + [provider.GetHeight()];
    provider.SetUseImageSize(true);
    heights := heights + [provider.GetHeight()];
    provider.SetSize(None, Some(1000.0));
    width := provider.GetWidth();
    height := provider.GetHeight();
  }
}
