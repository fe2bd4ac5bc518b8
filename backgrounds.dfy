/** The image background of a generated picture: either a flat colour or a photo fetched from a
    URL and "cover"-cropped to the canvas; the generator that layers overlays on top of it; and the
    colour helper `darken`. */
module Backgrounds {
  import opened Wrappers
  import Text

  /** An RGB or RGBA tuple. */
  type Color = seq<int>

  datatype Size = Size(width: int, height: int)

  /** The canvas size of every statistics picture. */
  const DefaultSize := Size(1000, 600)

  /** What `Background.generate` produces: a filled canvas, a fetched photo cropped to the canvas,
      or nothing when neither colour nor URL is set. */
  datatype Plan = Fill(size: Size, color: Color) | FetchAndCrop(url: string, size: Size) | NoImage

  class Background {
    var color: Option<Color>
    var url: Option<string>
    var size: Size

    /** The colour and the URL are never both set. */
    ghost predicate Valid()
      reads this
    {
      !(color.Some? && url.Some?)
    }

    constructor Init(size: Size, color: Option<Color>, url: Option<string>)
      requires color.Some? != url.Some?
      ensures Valid() && this.size == size && this.color == color && this.url == url
    {
      this.size := size;
      this.color := color;
      this.url := url;
    }

    /** `Background(size, color, url)`: exactly one of the two must be given, else RuntimeError.
        A given colour is stored through the colour setter, otherwise the URL through its setter. */
    static method Create(size: Size, color: Option<Color>, url: Option<string>) returns (r: Result<Background>)
      ensures r.Ok? <==> color.Some? != url.Some?
      ensures r.Err? ==> r.error.RuntimeError?
      ensures r.Ok? ==> fresh(r.value) && r.value.Valid() && r.value.size == size
      ensures r.Ok? ==> r.value.color == color && r.value.url == url
    {
      if (color.None? && url.None?) || (color.Some? && url.Some?) {
        return Err(RuntimeError("You must specify either color or url not both or neither."));
      }
      var b := new Background.Init(size, color, url);
      r := Ok(b);
    }

    /** The `Background(color, url)` of the statistics pictures: `Create` on the default canvas. */
    static method CreateDefault(color: Option<Color>, url: Option<string>) returns (r: Result<Background>)
      ensures r.Ok? <==> color.Some? != url.Some?
      ensures r.Err? ==> r.error.RuntimeError?
      ensures r.Ok? ==> fresh(r.value) && r.value.Valid() && r.value.size == DefaultSize
      ensures r.Ok? ==> r.value.color == color && r.value.url == url
    {
      r := Create(DefaultSize, color, url);
    }

    /** The colour setter: stores the colour and clears the URL. */
    method SetColor(c: Option<Color>)
      modifies this
      ensures Valid()
      ensures color == c && url == None && size == old(size)
    {
      color := c;
      url := None;
    }

    /** The URL setter: stores the URL and clears the colour. */
    method SetUrl(u: Option<string>)
      modifies this
      ensures Valid()
      ensures url == u && color == None && size == old(size)
    {
      url := u;
      color := None;
    }

    /** `generate`: a set colour wins, else a set URL is fetched and cropped. */
    function Generate(): (p: Plan)
      reads this
      requires Valid()
      ensures p.Fill? <==> color.Some?
      ensures p.FetchAndCrop? <==> url.Some?
      ensures p.Fill? ==> p.size == size && p.color == color.value
      ensures p.FetchAndCrop? ==> p.size == size && p.url == url.value
    {
      if color.Some? then Fill(size, color.value)
      else if url.Some? then FetchAndCrop(url.value, size)
      else NoImage
    }
  }

  /** The overlays a generator draws over its background. */
  datatype Overlay = StatsOverlay(currentSeason: bool) | PerformanceOverlay(size: Size)

  /** One picture to compose: a background and the overlays pasted over it in order. */
  class ImageGenerator {
    var background: Background
    var overlays: seq<Overlay>

    ghost predicate Valid()
      reads this, background
    {
      background.Valid()
    }

    /** A fresh generator has a fully transparent colour background and no overlays. */
    constructor ()
      ensures Valid() && fresh(background)
      ensures background.color == Some([0, 0, 0, 0]) && background.url == None
      ensures background.size == DefaultSize && overlays == []
    {
      background := new Background.Init(DefaultSize, Some([0, 0, 0, 0]), None);
      overlays := [];
    }

    /** `StatsImage`: the overall statistics overlay. */
    constructor StatsImage()
      ensures Valid() && fresh(background)
      ensures background.color == Some([0, 0, 0, 0]) && background.url == None
      ensures overlays == [StatsOverlay(false)]
    {
      background := new Background.Init(DefaultSize, Some([0, 0, 0, 0]), None);
      overlays := [StatsOverlay(false)];
    }

    /** `CurrentSeasonStatsImage`: the statistics overlay in current-season mode. */
    constructor CurrentSeasonStatsImage()
      ensures Valid() && fresh(background)
      ensures background.color == Some([0, 0, 0, 0]) && background.url == None
      ensures overlays == [StatsOverlay(true)]
    {
      background := new Background.Init(DefaultSize, Some([0, 0, 0, 0]), None);
      overlays := [StatsOverlay(true)];
    }

    /** `PerformanceImage`: a full-canvas performance chart. */
    constructor PerformanceImage()
      ensures Valid() && fresh(background)
      ensures background.color == Some([0, 0, 0, 0]) && background.url == None
      ensures overlays == [PerformanceOverlay(DefaultSize)]
    {
      background := new Background.Init(DefaultSize, Some([0, 0, 0, 0]), None);
      overlays := [PerformanceOverlay(DefaultSize)];
    }

    /** `setBackground(color, url)`: a given URL is applied first and a given colour second, so
        when both are given the colour is in force; an argument left as None changes nothing. */
    method SetBackground(color: Option<Color>, url: Option<string>)
      requires Valid()
      modifies background
      ensures Valid() && background.size == old(background.size)
      ensures color.Some? ==> background.color == color && background.url == None
      ensures color.None? && url.Some? ==> background.url == url && background.color == None
      ensures color.None? && url.None? ==> background.color == old(background.color) && background.url == old(background.url)
    {
      if url.Some? {
        background.SetUrl(url);
      }
      if color.Some? {
        background.SetColor(color);
      }
    }

    method AddOverlay(o: Overlay)
      modifies this
      ensures background == old(background) && overlays == old(overlays) + [o]
    {
      overlays := overlays + [o];
    }

    /** `generate`: the background first, then each overlay pasted at the origin, in order. */
    function Layers(): (p: (Plan, seq<Overlay>))
      reads this, background
      requires Valid()
    {
      (background.Generate(), overlays)
    }
  }

  // ---------------------------------------------------------------------------
  // "Cover" crop geometry of `reCropImage`

  /** A crop rectangle (left, top, right, bottom); Python's true division makes the edges real. */
  datatype Box = Box(left: real, top: real, right: real, bottom: real)

  /** What `reCropImage` does to an image: resize to `resized`, then crop to `box`; or resize
      straight to the target size. */
  datatype CropPlan = ResizeThenCrop(resized: Size, box: Box) | ResizeTo(target: Size)

  /** `reCropImage(image, size)` for an image of `w` x `h` pixels, with the scaled side computed as
      the source writes it: `size[1] / width * height` when the image is relatively taller and
      `size[0] / height * width` when it is relatively wider. Whatever the image, the crop box has
      exactly the target size; equal ratios skip the crop. */
  function ReCrop(w: int, h: int, size: Size): (p: CropPlan)
    requires w > 0 && h > 0 && size.width > 0 && size.height > 0
    ensures p.ResizeTo? <==> h as real / size.height as real == w as real / size.width as real
    ensures p.ResizeTo? ==> p.target == size
    ensures p.ResizeThenCrop? ==>
      p.box.right - p.box.left == size.width as real && p.box.bottom - p.box.top == size.height as real
    ensures p.ResizeThenCrop? && h as real / size.height as real > w as real / size.width as real ==>
      p.resized.width == size.width && p.box.left == 0.0 && p.box.right == size.width as real
      && p.box.top + p.box.bottom == p.resized.height as real
    ensures p.ResizeThenCrop? && w as real / size.width as real > h as real / size.height as real ==>
      p.resized.height == size.height && p.box.top == 0.0 && p.box.bottom == size.height as real
      && p.box.left + p.box.right == p.resized.width as real
  {
    var heightRatio := h as real / size.height as real;
    var widthRatio := w as real / size.width as real;
    if heightRatio > widthRatio then
      var height := Text.Round(size.height as real / w as real * h as real);
      var top := (height - size.height) as real / 2.0;
      ResizeThenCrop(Size(size.width, height), Box(0.0, top, size.width as real, height as real - top))
    else if widthRatio > heightRatio then
      var width := Text.Round(size.width as real / h as real * w as real);
      var left := (width - size.width) as real / 2.0;
      ResizeThenCrop(Size(width, size.height), Box(left, 0.0, width as real - left, size.height as real))
    else
      ResizeTo(size)
  }

  /** The scale factor as written is not the image's own aspect ratio: for a 1000 x 700 photo on
      the 1000 x 600 canvas the taller branch resizes the photo to 1000 x 420, so the crop box
      reaches 90 pixels above and below the resized photo. */
  lemma CropOverrunsPhoto()
    ensures ReCrop(1000, 700, DefaultSize) == ResizeThenCrop(Size(1000, 420), Box(0.0, -90.0, 1000.0, 510.0))
  {
    assert Text.Round(600.0 / 1000.0 * 700.0) == 420 by {
      assert 600.0 / 1000.0 * 700.0 == 420.0;
    }
  }

  /** `darken(color, alpha)`: the first three components kept, the fourth replaced by `alpha`;
      a colour with fewer than three components raises IndexError. */
  function Darken(color: Color, alpha: int): (r: Result<Color>)
    ensures r.Ok? <==> |color| >= 3
    ensures r.Err? ==> r.error == IndexError
    ensures r.Ok? ==> |r.value| == 4 && r.value[..3] == color[..3] && r.value[3] == alpha
  {
    if |color| < 3 then Err(IndexError) else Ok([color[0], color[1], color[2], alpha])
  }
}
