/**
  The file image provider as an object: its flags and overrides are fields
  that the setters update in place, and the getters read them afresh on every
  call (there is no cached size).
 */
module FileImageProviders {
  import opened Wrappers
  import opened ImageSizing

  class ImageProvider {
    /** Format and natural size, fixed once the image is loaded. */
    const info: ImageInfo
    var useImageSize: bool
    var resize: bool
    var width: Option<real>
    var height: Option<real>

    /** The provider's state as a value. */
    function State(): Sizing
      reads this
    {
      Sizing(info, useImageSize, resize, width, height)
    }

    /** Loads an image without using its natural size. */
    constructor (info: ImageInfo)
      ensures State() == Load(info, false)
    {
      this.info := info;
      useImageSize := false;
      resize := false;
      width, height := None, None;
    }

    /** Loads an image, using its natural size when `useImageSize` is set. */
    constructor WithImageSize(info: ImageInfo, useImageSize: bool)
      ensures State() == Load(info, useImageSize)
    {
      this.info := info;
      this.useImageSize := useImageSize;
      resize := false;
      width, height := None, None;
    }

    /** The format found when the image was loaded. */
    function GetImageFormat(): (f: ImageFormat)
      reads this
      ensures f == State().info.format
    {
      info.format
    }

    /** The display width: the override when there is one, and absent
        whenever the natural size is not in use and nothing is overridden. */
    function GetWidth(): (r: Option<real>)
      reads this
      ensures r == EffWidth(State())
      ensures width.Some? ==> r == width
      ensures !useImageSize ==> r == width
    {
      EffWidth(State())
    }

    /** The display height, by the same rule as the width. */
    function GetHeight(): (r: Option<real>)
      reads this
      ensures r == EffHeight(State())
      ensures height.Some? ==> r == height
      ensures !useImageSize ==> r == height
    {
      EffHeight(State())
    }

    method SetUseImageSize(useImageSize: bool)
      modifies this
      ensures State() == Apply(old(State()), Setter.SetUseImageSize(useImageSize))
    {
      this.useImageSize := useImageSize;
    }

    method SetResize(resize: bool)
      modifies this
      ensures State() == Apply(old(State()), Setter.SetResize(resize))
    {
      this.resize := resize;
    }

    method SetWidth(width: real)
      modifies this
      ensures State() == Apply(old(State()), Setter.SetWidth(width))
    {
      this.width := Some(width);
    }

    /** Replaces both overrides; an absent value clears that override. */
    method SetSize(width: Option<real>, height: Option<real>)
      modifies this
      ensures State() == Apply(old(State()), Setter.SetSize(width, height))
    {
      this.width, this.height := width, height;
    }
  }
}
