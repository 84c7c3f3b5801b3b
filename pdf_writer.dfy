/**
 * The PDF writer plugin: options with their defaults, and the batch write that
 * turns a sequence of image records into one page per record.
 */
module PdfWriter {
  import opened Wrappers
  import opened ImageRecords
  import opened PdfCanvas
  import opened PdfLayout

  /** Points per inch, per centimetre and per millimetre, as the drawing library defines them. */
  const Inch: real := 72.0
  const Cm: real := Inch / 2.54
  const Mm: real := Cm * 0.1

  /** The height of an A4 page in points (297 mm); rounding of the float is not modelled. */
  function A4Height(): (height: real)
    ensures height == 297.0 * Mm
    ensures 841.88976 < height < 841.88977
  {
    297.0 * Mm
  }

  const DefaultScale: real := 1.0
  const DefaultOffsetX: int := 50
  const DefaultOffsetY: int := 50
  const DefaultGap: int := 50

  /** The option itself when it is set, otherwise the default. */
  function OrDefault<T>(option: Option<T>, default: T): (r: T)
    ensures option.Some? ==> r == option.value
    ensures option.None? ==> r == default
  {
    if option.Some? then option.value else default
  }

  class PdfImageWriter {
    var outputFile: string
    var imageNameAsTitle: Option<bool>
    var imageScale: Option<real>
    var metadataKeys: Option<string>
    var offsetX: Option<int>
    var offsetY: Option<int>
    var gap: Option<int>

    constructor (outputFile: string, imageNameAsTitle: Option<bool>, imageScale: Option<real>,
                 metadataKeys: Option<string>, offsetX: Option<int>, offsetY: Option<int>, gap: Option<int>)
      ensures this.outputFile == outputFile && this.imageNameAsTitle == imageNameAsTitle
      ensures this.imageScale == imageScale && this.metadataKeys == metadataKeys
      ensures this.offsetX == offsetX && this.offsetY == offsetY && this.gap == gap
    {
      this.outputFile := outputFile;
      this.imageNameAsTitle := imageNameAsTitle;
      this.imageScale := imageScale;
      this.metadataKeys := metadataKeys;
      this.offsetX := offsetX;
      this.offsetY := offsetY;
      this.gap := gap;
    }

    /** The numeric options the layout computes with are all set. */
    predicate Ready()
      reads this
    {
      imageScale.Some? && offsetX.Some? && offsetY.Some? && gap.Some?
    }

    /**
     * The settings the layout uses: titles only when the title option is
     * exactly true (an unset option counts as false), and the metadata-key
     * option split at commas when it is set.
     */
    function LayoutSettings(): (s: PdfLayout.Settings)
      reads this
      requires Ready()
      ensures s.title <==> imageNameAsTitle == Some(true)
      ensures s.scale == imageScale.value && s.gap == gap.value
      ensures s.offsetX == offsetX.value && s.offsetY == offsetY.value
      ensures s.keys.Some? <==> metadataKeys.Some?
      ensures s.keys.Some? ==> |s.keys.value| == Count(metadataKeys.value, ',') + 1
      ensures s.keys.Some? ==> forall i :: 0 <= i < |s.keys.value| ==> ',' !in s.keys.value[i]
      ensures s.keys.Some? ==> Join(s.keys.value) == metadataKeys.value
    {
      var title := imageNameAsTitle == Some(true);
      if metadataKeys.Some? then
        JoinSplit(metadataKeys.value);
        PdfLayout.Settings(title, imageScale.value, offsetX.value, offsetY.value, gap.value,
                 Some(Split(metadataKeys.value)))
      else
        PdfLayout.Settings(title, imageScale.value, offsetX.value, offsetY.value, gap.value, None)
    }

    /**
     * `initialize`: every unset option gets its default (title off, scale 1.0,
     * offsets 50, gap 50); options already set keep their values.
     */
    method Initialize()
      modifies this
      ensures Ready()
      ensures imageNameAsTitle == Some(OrDefault(old(imageNameAsTitle), false))
      ensures imageScale == Some(OrDefault(old(imageScale), DefaultScale))
      ensures offsetX == Some(OrDefault(old(offsetX), DefaultOffsetX))
      ensures offsetY == Some(OrDefault(old(offsetY), DefaultOffsetY))
      ensures gap == Some(OrDefault(old(gap), DefaultGap))
      ensures outputFile == old(outputFile) && metadataKeys == old(metadataKeys)
    {
      if imageNameAsTitle.None? {
        imageNameAsTitle := Some(false);
      }
      if imageScale.None? {
        imageScale := Some(DefaultScale);
      }
      if offsetX.None? {
        offsetX := Some(DefaultOffsetX);
      }
      if offsetY.None? {
        offsetY := Some(DefaultOffsetY);
      }
      if gap.None? {
        gap := Some(DefaultGap);
      }
    }

    /**
     * `write_batch`: draws each record on a page of its own, in input order,
     * then saves the document once. When every image can be drawn, the result
     * holds exactly one page per record, each carrying the commands
     * `PageCommands` prescribes. Otherwise the first record whose resize is
     * refused stops the batch: the pages before it are finished, its own page
     * holds what was drawn before the image, and nothing is saved.
     */
    method WriteBatch(items: seq<ImageItem>) returns (outcome: Outcome, canvas: Canvas)
      requires Ready()
      ensures fresh(canvas) && canvas.file == outputFile
      ensures outcome.Pass? <==> forall i :: 0 <= i < |items| ==> Drawable(items[i], LayoutSettings())
      ensures |canvas.pages| <= |items|
      ensures forall i :: 0 <= i < |canvas.pages| ==>
        Drawable(items[i], LayoutSettings())
        && canvas.pages[i] == PageCommands(items[i], LayoutSettings(), A4Height())
      ensures outcome.Pass? ==> canvas.saves == 1 && canvas.current == [] && |canvas.pages| == |items|
      ensures outcome.Fail? ==>
        && canvas.saves == 0
        && |canvas.pages| < |items|
        && !Drawable(items[|canvas.pages|], LayoutSettings())
        && canvas.current
           == PageCommands(items[|canvas.pages|], LayoutSettings(), A4Height())[..ImageIndex(LayoutSettings())]
    {
      canvas := new Canvas(outputFile);

      var keys: Option<seq<string>> := None;
      if metadataKeys.Some? {
        keys := Some(Split(metadataKeys.value));
      }

      var n := 0;
      while n < |items|
        invariant 0 <= n <= |items|
        invariant canvas.file == outputFile && canvas.saves == 0 && canvas.current == []
        invariant |canvas.pages| == n
        invariant forall i :: 0 <= i < n ==>
          Drawable(items[i], LayoutSettings())
          && canvas.pages[i] == PageCommands(items[i], LayoutSettings(), A4Height())
      {
        var drawn := DrawItem(canvas, items[n], keys);
        if !drawn {
          return Fail("height and width must be > 0"), canvas;
        }
        // page break
        canvas.ShowPage();
        n := n + 1;
      }
      canvas.Save();
      outcome := Pass;
    }

    /**
     * The body of `write_batch`'s loop for one record: a cursor starts at the
     * top margin and moves down past the title, the image and the gap before
     * the metadata block, leaving on the open page the commands of
     * `PageCommands`. When the image cannot be resized to its drawn size, the
     * record stops after its title.
     */
    method DrawItem(canvas: Canvas, item: ImageItem, keys: Option<seq<string>>) returns (drawn: bool)
      requires Ready() && keys == LayoutSettings().keys && canvas.current == []
      modifies canvas
      ensures drawn <==> Drawable(item, LayoutSettings())
      ensures drawn ==> canvas.current == PageCommands(item, LayoutSettings(), A4Height())
      ensures !drawn ==>
        canvas.current == PageCommands(item, LayoutSettings(), A4Height())[..ImageIndex(LayoutSettings())]
      ensures canvas.pages == old(canvas.pages) && canvas.saves == old(canvas.saves)
    {
      ghost var settings := LayoutSettings();
      ghost var page := PageCommands(item, settings, A4Height());
      var height := A4Height();
      var y: real := height - offsetY.value as real;
      var x := offsetX.value;

      // title
      if imageNameAsTitle == Some(true) {
        canvas.DrawString(x, y, item.name);
        y := y - gap.value as real;
      }
      assert canvas.current == page[..ImageIndex(settings)];

      // image
      var accepted, imgWidth, imgHeight := ScaleImage(item);
      if !accepted {
        return false;
      }
      y := y - imgHeight as real;
      canvas.DrawImage(x, y, imgWidth, imgHeight);
      assert canvas.current == page[..ImageIndex(settings) + 1];

      // metadata
      if keys.Some? && HasMetadata(item.metadata) {
        y := y - gap.value as real;
        DrawMetadata(canvas, x, y, keys.value, item.metadata);
      }
      drawn := true;
    }
    /**
     * The image step's sizing: the native size at scale exactly 1.0; otherwise
     * each side times the scale, truncated, which the image library must
     * accept as a resize target.
     */
    method ScaleImage(item: ImageItem) returns (accepted: bool, imgWidth: int, imgHeight: int)
      requires Ready()
      ensures accepted <==> Drawable(item, LayoutSettings())
      ensures accepted ==> (imgWidth, imgHeight) == DrawnSize(item.width, item.height, imageScale.value)
    {
      imgWidth, imgHeight := item.width, item.height;
      accepted := true;
      if imageScale.value != 1.0 {
        var size := DrawnSize(item.width, item.height, imageScale.value);
        imgWidth, imgHeight := size.0, size.1;
        accepted := ResizeAccepts(item.width, item.height, imgWidth, imgHeight);
      }
    }

    /**
     * The metadata block: a text object at (x, y) receiving one line per
     * configured key that the metadata has, in key order, then drawn.
     */
    method DrawMetadata(canvas: Canvas, x: int, y: real, keys: seq<string>, meta: Metadata)
      modifies canvas
      ensures canvas.current == old(canvas.current) + [DrawCommand.DrawText(x, y, SelectLines(keys, meta))]
      ensures canvas.pages == old(canvas.pages) && canvas.saves == old(canvas.saves)
    {
      var text := canvas.BeginText(x, y);
      var k := 0;
      while k < |keys|
        invariant 0 <= k <= |keys|
        invariant text.lines == SelectLines(keys[..k], meta)
        modifies text
      {
        var key := keys[k];
        if key in meta {
          text.TextLine(Line(key, meta[key]));
        }
        assert keys[..k + 1][..k] == keys[..k];
        k := k + 1;
      }
      assert keys[..k] == keys;
      canvas.DrawText(text);
    }
  }
}
