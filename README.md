# Display-size resolution of an xdocreport image provider

This project models how an xdocreport image provider (`IImageProvider`, as
implemented by `FileImageProvider`) decides the width and height at which
an image is laid out in a generated document. The provider holds:

- the image's format and natural size, fixed when the image is loaded;
- two flags: `useImageSize`, which says whether the natural size is used,
  and `resize`, which says whether an overridden dimension drives the
  other one through the natural aspect ratio;
- optional width and height overrides, set by `setWidth` and `setSize`.

`getWidth` and `getHeight` recompute the size from that state on every
call. For one dimension, with the other dimension's override written O:

1. an override of the dimension itself is returned as is;
2. otherwise, without `useImageSize`, the dimension is absent;
3. otherwise, with `resize` on, O present and both natural sizes known,
   the dimension is O scaled by the natural aspect ratio and rounded to the
   nearest whole number, halves upward;
4. otherwise it is the natural size when known, and absent when not.

The implementation classes are not part of this model. The rule above is
the one the provider's unit tests pin down. Two details of it are fixed by
the tests:
- the ratio step only applies while `useImageSize` is on: the height is
  absent once `useImageSize` is switched off, even with `resize` on and a
  width override in place (lines 166-167);
- the ratio result is rounded: 100 x 200 / 220 is reported as exactly 91
  (line 135).

Layout:
- `wrappers.dfy` holds `Option`, which stands for a nullable `Float`.
- `sizing.dfy` (module `ImageSizing`) holds the rule on values, the setters
  as values (`Setter`, `Apply`, `Run`) and the lemmas about them.
- `provider.dfy` (module `FileImageProviders`) holds the provider as a class.
  Its setters update fields in place, and its getters are functions of
  those fields.
- `scenarios.dfy` (module `ImageProviderCases`) replays each unit test on a
  fresh provider for the 220x200 PNG logo. Each method's postcondition is
  what the test asserts.

## Model

| member | source | states |
|---|---|---|
| ImageSizing.Round | document/fr.opensagres.xdocreport.document/src/test/java/fr/opensagres/xdocreport/document/images/FileImageProviderTestCase.java:135 | the result is the whole number nearest to its argument, with halves going up: x - 1/2 < n <= x + 1/2 |
| ImageSizing.Scale | document/fr.opensagres.xdocreport.document/src/test/java/fr/opensagres/xdocreport/document/images/FileImageProviderTestCase.java:133-135 | the result is a whole number r with r * fromNatural within half of fromNatural of v * toNatural, so r is v scaled by the natural aspect ratio, rounded |
| ImageSizing.ScaleExact | document/fr.opensagres.xdocreport.document/src/test/java/fr/opensagres/xdocreport/document/images/FileImageProviderTestCase.java:175-177 | when v * toNatural is a whole multiple n of fromNatural, the scaled dimension is exactly n, with no rounding error (1000 x 220 / 200 = 1100) |
| ImageSizing.EffWidth | document/fr.opensagres.xdocreport.document/src/test/java/fr/opensagres/xdocreport/document/images/FileImageProviderTestCase.java:97-101 | a width override is always reported as is; a width is present only when overridden, or when the natural size is in use and the natural width is known |
| ImageSizing.EffHeight | document/fr.opensagres.xdocreport.document/src/test/java/fr/opensagres/xdocreport/document/images/FileImageProviderTestCase.java:165-167 | the same for the height: an override wins, and a height is present only when overridden or when the natural size is in use and the natural height is known |
| ImageSizing.Apply | document/fr.opensagres.xdocreport.document/src/test/java/fr/opensagres/xdocreport/document/images/FileImageProviderTestCase.java:77-78 | no setter changes the image's format or natural size |
| ImageSizing.Run | document/fr.opensagres.xdocreport.document/src/test/java/fr/opensagres/xdocreport/document/images/FileImageProviderTestCase.java:146-179 | no sequence of setter calls changes the image's format or natural size |
| ImageSizing.WithoutImageSizeOnlyOverrides | document/fr.opensagres.xdocreport.document/src/test/java/fr/opensagres/xdocreport/document/images/FileImageProviderTestCase.java:165-167 | with useImageSize off, width and height are exactly the overrides: no natural size and no ratio, even with resize on |
| ImageSizing.NoOverrideGivesNaturalSize | document/fr.opensagres.xdocreport.document/src/test/java/fr/opensagres/xdocreport/document/images/FileImageProviderTestCase.java:52-58 | with useImageSize on and no overrides, width and height are the natural width and height |
| ImageSizing.NoResizeDimensionsIndependent | document/fr.opensagres.xdocreport.document/src/test/java/fr/opensagres/xdocreport/document/images/FileImageProviderTestCase.java:155-158 | with resize off, neither dimension depends on the other dimension's override |
| ImageSizing.ResizeKeepsAspectRatio | document/fr.opensagres.xdocreport.document/src/test/java/fr/opensagres/xdocreport/document/images/FileImageProviderTestCase.java:128-135 | with useImageSize and resize on, both natural sizes known and only one override, the other dimension is the override scaled by the natural aspect ratio and rounded (Scale): a whole number within half a pixel of the exact ratio |
| ImageSizing.HeightIsTransposedWidth | document/fr.opensagres.xdocreport.document/src/test/java/fr/opensagres/xdocreport/document/images/FileImageProviderTestCase.java:133-135 | width and height follow one rule: the height is the width of the state with the two dimensions swapped, and the other way round |
| ImageSizing.FlagsKeepOverrides | document/fr.opensagres.xdocreport.document/src/test/java/fr/opensagres/xdocreport/document/images/FileImageProviderTestCase.java:76-83 | any sequence of setUseImageSize and setResize calls changes only the two flags and keeps both overrides |
| ImageSizing.FlagTogglesRoundTrip | document/fr.opensagres.xdocreport.document/src/test/java/fr/opensagres/xdocreport/document/images/FileImageProviderTestCase.java:155-172 | no drift: flag toggles that end with the flags as they started give back exactly the same width and height |
| ImageSizing.SetSizeReplacesOverrides | document/fr.opensagres.xdocreport.document/src/test/java/fr/opensagres/xdocreport/document/images/FileImageProviderTestCase.java:175-179 | after setSize, width and height do not depend on the overrides in place before the call |
| ImageSizing.SetWidthKeepsHeightUnlessResizing | document/fr.opensagres.xdocreport.document/src/test/java/fr/opensagres/xdocreport/document/images/FileImageProviderTestCase.java:95-117 | after setWidth(w) the width is w; with resize off or useImageSize off, the height is what it was before the call |
| ImageSizing.RunConcat | document/fr.opensagres.xdocreport.document/src/test/java/fr/opensagres/xdocreport/document/images/FileImageProviderTestCase.java:146-179 | running two sequences of setter calls one after the other is the same as running their concatenation: the state carries no history beyond its fields |
| FileImageProviders.ImageProvider.constructor | document/fr.opensagres.xdocreport.document/src/test/java/fr/opensagres/xdocreport/document/images/FileImageProviderTestCase.java:41-42 | a provider loaded without the flag does not use the natural size, has resize off and has no overrides |
| FileImageProviders.ImageProvider.WithImageSize | document/fr.opensagres.xdocreport.document/src/test/java/fr/opensagres/xdocreport/document/images/FileImageProviderTestCase.java:53-55 | a provider loaded with a useImageSize flag stores that flag, has resize off and has no overrides |
| FileImageProviders.ImageProvider.GetImageFormat | document/fr.opensagres.xdocreport.document/src/test/java/fr/opensagres/xdocreport/document/images/FileImageProviderTestCase.java:43 | the format is the one found when the image was loaded (info.format); Apply and Run keep it unchanged over every setter call |
| FileImageProviders.ImageProvider.GetWidth | document/fr.opensagres.xdocreport.document/src/test/java/fr/opensagres/xdocreport/document/images/FileImageProviderTestCase.java:71-74 | the width is resolved from the current fields (no cache); an override is returned as is, and without useImageSize only the override is reported |
| FileImageProviders.ImageProvider.GetHeight | document/fr.opensagres.xdocreport.document/src/test/java/fr/opensagres/xdocreport/document/images/FileImageProviderTestCase.java:85-88 | the same for the height |
| FileImageProviders.ImageProvider.SetUseImageSize | document/fr.opensagres.xdocreport.document/src/test/java/fr/opensagres/xdocreport/document/images/FileImageProviderTestCase.java:77 | sets the flag and changes nothing else; overrides are kept |
| FileImageProviders.ImageProvider.SetResize | document/fr.opensagres.xdocreport.document/src/test/java/fr/opensagres/xdocreport/document/images/FileImageProviderTestCase.java:156 | sets the flag and changes nothing else |
| FileImageProviders.ImageProvider.SetWidth | document/fr.opensagres.xdocreport.document/src/test/java/fr/opensagres/xdocreport/document/images/FileImageProviderTestCase.java:97 | sets the width override and changes nothing else |
| FileImageProviders.ImageProvider.SetSize | document/fr.opensagres.xdocreport.document/src/test/java/fr/opensagres/xdocreport/document/images/FileImageProviderTestCase.java:175 | replaces both overrides; an absent value clears that override |
| ImageProviderCases.LoadPngWithoutUsingImageSize | document/fr.opensagres.xdocreport.document/src/test/java/fr/opensagres/xdocreport/document/images/FileImageProviderTestCase.java:37-46 | default load: format PNG, width and height absent |
| ImageProviderCases.LoadPngAndUseImageSize | document/fr.opensagres.xdocreport.document/src/test/java/fr/opensagres/xdocreport/document/images/FileImageProviderTestCase.java:48-59 | with the natural size in use: format PNG, 220 x 200 |
| ImageProviderCases.LoadPngAndModifyUseImageSize | document/fr.opensagres.xdocreport.document/src/test/java/fr/opensagres/xdocreport/document/images/FileImageProviderTestCase.java:61-89 | toggling useImageSize off then on gives 220 x 200, then absent/absent, then 220 x 200 again; the format stays PNG |
| ImageProviderCases.LoadPngWithoutUsingImageSizeAndForceWidth | document/fr.opensagres.xdocreport.document/src/test/java/fr/opensagres/xdocreport/document/images/FileImageProviderTestCase.java:91-102 | setWidth(100) without the natural size: width 100, height absent |
| ImageProviderCases.LoadPngByUsingImageSizeAndForceWidth | document/fr.opensagres.xdocreport.document/src/test/java/fr/opensagres/xdocreport/document/images/FileImageProviderTestCase.java:104-118 | setWidth(100) with the natural size and resize off: width 100, natural height 200 |
| ImageProviderCases.LoadPngByUsingImageSizeAndForceWidthAndUseRatio | document/fr.opensagres.xdocreport.document/src/test/java/fr/opensagres/xdocreport/document/images/FileImageProviderTestCase.java:120-136 | setWidth(100) with resize on: width 100, height 100 x 200 / 220 rounded to 91 |
| ImageProviderCases.LoadPngByAndChangeResize | document/fr.opensagres.xdocreport.document/src/test/java/fr/opensagres/xdocreport/document/images/FileImageProviderTestCase.java:138-180 | format PNG and width 100 after the first step; heights 91, 200, 91, absent, 91 as resize and useImageSize are toggled; then setSize(absent, 1000) gives width 1100 and height 1000 |

## Left out

- Loading the image from a file and decoding it to find its format and natural size is file I/O through a foreign library. The format and natural size are parameters of the constructors (`ImageInfo`).
- Java `Float` arithmetic is not modelled. Dimensions are exact `real` values, and only the ratio result is rounded (`Round`).
- The rounding mode is assumed: nearest, halves up. The tests only show that 90.909... becomes 91, which ceiling would also give.
- `ImageFormat` has only the three tags `Png`, `Jpeg` and `Gif`; the other tags of the enumeration are not part of this model.
- Natural sizes are positive whole numbers (`Pixels`): a decoded image is never empty, so a zero natural size, and with it a zero divisor in the ratio step, is not part of this model.
- `setHeight` and `setWidth(null)` are not exercised by the tests and are not part of this model. `setSize` covers setting and clearing the height.
- When resize is on and a natural size is unknown, the model falls back to step 4. That case is not exercised by the tests.
- The JUnit harness, the `throws Exception` plumbing and the document-assembly code that reads the provider are not part of this model.
