/**
 * The pure rules behind the PDF writer's page layout: image sizing, splitting
 * of the metadata-key option, selection of metadata lines, and the commands
 * that end up on one page.
 */
module PdfLayout {
  import opened Wrappers
  import opened ImageRecords
  import opened PdfCanvas

  /** An image record as the writer sees it: name, native size in pixels, metadata. */
  datatype ImageItem = ImageItem(name: string, width: nat, height: nat, metadata: Metadata)

  /** The writer's options once defaults are in place, with the metadata keys already split. */
  datatype Settings = Settings(
    title: bool,
    scale: real,
    offsetX: int,
    offsetY: int,
    gap: int,
    keys: Option<seq<string>>)

  // ---------------------------------------------------------------- sizing

  /** Python's `int(r)`: drops the fractional part, rounding toward zero. */
  function Trunc(r: real): (t: int)
    ensures 0.0 <= r ==> t as real <= r < t as real + 1.0
    ensures r < 0.0 ==> t as real - 1.0 < r <= t as real
  {
    if r >= 0.0 then r.Floor else -((-r).Floor)
  }

  /**
   * The drawn size of an image: the native size when the scale is exactly 1.0,
   * otherwise each side multiplied by the scale and truncated.
   */
  function DrawnSize(width: nat, height: nat, scale: real): (size: (int, int))
    ensures scale == 1.0 ==> size == (width, height)
    ensures size == (Trunc(width as real * scale), Trunc(height as real * scale))
  {
    if scale == 1.0 then
      assert width as real * scale == width as real && (width as real).Floor == width;
      assert height as real * scale == height as real && (height as real).Floor == height;
      (width, height)
    else (Trunc(width as real * scale), Trunc(height as real * scale))
  }

  /** With a non-negative scale both drawn sides lie within one point below the exact product. */
  lemma DrawnSizeBounds(width: nat, height: nat, scale: real)
    requires scale >= 0.0
    ensures var size := DrawnSize(width, height, scale);
      && 0 <= size.0 && size.0 as real <= width as real * scale < size.0 as real + 1.0
      && 0 <= size.1 && size.1 as real <= height as real * scale < size.1 as real + 1.0
  {
  }

  /**
   * Whether the image library's `resize` accepts a target size for an image of
   * the given size: it returns a copy when the size is unchanged, and otherwise
   * raises unless both requested sides are at least 1.
   */
  predicate ResizeAccepts(width: nat, height: nat, newWidth: int, newHeight: int)
  {
    (newWidth == width && newHeight == height) || (newWidth >= 1 && newHeight >= 1)
  }

  /**
   * Whether a record's image can be drawn: at scale exactly 1.0 it is not
   * resized at all; at any other scale `resize` must accept the drawn size.
   */
  predicate Drawable(item: ImageItem, s: Settings): (ok: bool)
    ensures s.scale == 1.0 ==> ok
    ensures ok <==> ResizeAccepts(item.width, item.height,
                                  DrawnSize(item.width, item.height, s.scale).0,
                                  DrawnSize(item.width, item.height, s.scale).1)
  {
    s.scale == 1.0
    || var size := DrawnSize(item.width, item.height, s.scale);
       ResizeAccepts(item.width, item.height, size.0, size.1)
  }

  /** A zero or negative scale makes every image of at least one pixel per side undrawable. */
  lemma NonPositiveScaleUndrawable(item: ImageItem, s: Settings)
    requires s.scale <= 0.0 && item.width >= 1 && item.height >= 1
    ensures !Drawable(item, s)
  {
    var size := DrawnSize(item.width, item.height, s.scale);
    assert item.width as real * s.scale <= 0.0;
    assert size.0 <= 0;
  }

  /** An image whose scaled sides are both at least one point can be drawn. */
  lemma ScaledToAtLeastOnePointDrawable(item: ImageItem, s: Settings)
    requires item.width as real * s.scale >= 1.0 && item.height as real * s.scale >= 1.0
    ensures Drawable(item, s)
  {
  }

  // ---------------------------------------------------------------- metadata keys

  /** How often `c` occurs in `s`. */
  function Count(s: string, c: char): nat
  {
    if s == [] then 0 else (if s[0] == c then 1 else 0) + Count(s[1..], c)
  }

  /**
   * `s.split(",")`: the pieces between commas, in order and untrimmed; empty
   * pieces are kept, so there is always one more piece than there are commas.
   */
  function Split(s: string): (pieces: seq<string>)
    ensures |pieces| == Count(s, ',') + 1
    ensures forall i :: 0 <= i < |pieces| ==> ',' !in pieces[i]
  {
    if s == [] then [""]
    else
      var rest := Split(s[1..]);
      if s[0] == ',' then [""] + rest
      else [[s[0]] + rest[0]] + rest[1..]
  }

  /** `",".join(pieces)`: the pieces with one comma between neighbours. */
  function Join(pieces: seq<string>): string
  {
    if pieces == [] then ""
    else if |pieces| == 1 then pieces[0]
    else pieces[0] + "," + Join(pieces[1..])
  }

  /** Joining the pieces of a split gives back the original option string. */
  lemma {:induction false} JoinSplit(s: string)
    ensures Join(Split(s)) == s
  {
    if s != [] {
      JoinSplit(s[1..]);
      var rest := Split(s[1..]);
      if s[0] == ',' {
        assert Split(s) == [""] + rest;
        assert s == [','] + s[1..];
      } else {
        var pieces := Split(s);
        assert pieces[0] == [s[0]] + rest[0];
        assert pieces[1..] == rest[1..];
        if |rest| == 1 {
          assert s == [s[0]] + rest[0];
        } else {
          assert Join(rest) == rest[0] + "," + Join(rest[1..]);
          assert s == [s[0]] + s[1..];
        }
      }
    }
  }

  /** A string without commas splits into itself alone. */
  lemma {:induction false} SplitWithoutComma(p: string)
    requires ',' !in p
    ensures Split(p) == [p]
  {
    if p != [] {
      assert p[0] in p;
      assert forall c :: c in p[1..] ==> c in p;
      SplitWithoutComma(p[1..]);
      assert [p[0]] + p[1..] == p;
    }
  }

  /** A comma-free prefix followed by a comma becomes the first piece of the split. */
  lemma {:induction false} SplitAfterPiece(p: string, rest: string)
    requires ',' !in p
    ensures Split(p + "," + rest) == [p] + Split(rest)
  {
    var s := p + "," + rest;
    if p == [] {
      assert s[1..] == rest;
    } else {
      assert p[0] in p;
      assert forall c :: c in p[1..] ==> c in p;
      assert s[1..] == p[1..] + "," + rest;
      SplitAfterPiece(p[1..], rest);
      assert [p[0]] + p[1..] == p;
    }
  }

  /** Splitting a join of comma-free pieces gives back the pieces (at least one piece). */
  lemma {:induction false} SplitJoin(pieces: seq<string>)
    requires |pieces| >= 1
    requires forall i :: 0 <= i < |pieces| ==> ',' !in pieces[i]
    ensures Split(Join(pieces)) == pieces
  {
    if |pieces| == 1 {
      SplitWithoutComma(pieces[0]);
    } else {
      SplitJoin(pieces[1..]);
      SplitAfterPiece(pieces[0], Join(pieces[1..]));
      assert [pieces[0]] + pieces[1..] == pieces;
    }
  }

  // ---------------------------------------------------------------- metadata lines

  /** The text line for one metadata entry: `"<key>: <value>"`. */
  function Line(key: string, value: MetaValue): (line: string)
    ensures |line| == |key| + 2 + |Show(value)|
    ensures line[..|key|] == key && line[|key|..|key| + 2] == ": "
    ensures line[|key| + 2..] == Show(value)
  {
    key + ": " + Show(value)
  }

  /** The configured keys that the metadata has, in configured order, repeats included. */
  function PresentKeys(keys: seq<string>, meta: Metadata): (present: seq<string>)
    ensures |present| <= |keys|
    ensures forall k :: k in present <==> k in keys && k in meta
    ensures (forall i :: 0 <= i < |keys| ==> keys[i] in meta) ==> present == keys
  {
    if keys == [] then []
    else
      var last := keys[|keys| - 1];
      var init := PresentKeys(keys[..|keys| - 1], meta);
      assert keys == keys[..|keys| - 1] + [last];
      if last in meta then init + [last] else init
  }

  /**
   * The metadata block's lines: one line per configured key found in the
   * metadata, in configured order; absent keys are skipped.
   */
  function SelectLines(keys: seq<string>, meta: Metadata): (lines: seq<string>)
    ensures |lines| <= |keys|
  {
    if keys == [] then []
    else
      var last := keys[|keys| - 1];
      SelectLines(keys[..|keys| - 1], meta) + (if last in meta then [Line(last, meta[last])] else [])
  }

  /** The i-th selected line is the line of the i-th configured key that is present. */
  lemma {:induction false} SelectLinesFollowKeys(keys: seq<string>, meta: Metadata)
    ensures var present := PresentKeys(keys, meta);
      && |SelectLines(keys, meta)| == |present|
      && forall i :: 0 <= i < |present| ==>
           present[i] in meta && SelectLines(keys, meta)[i] == Line(present[i], meta[present[i]])
  {
    if keys != [] {
      var init, last := keys[..|keys| - 1], keys[|keys| - 1];
      SelectLinesFollowKeys(init, meta);
      var present, lines := PresentKeys(init, meta), SelectLines(init, meta);
      if last in meta {
        assert PresentKeys(keys, meta) == present + [last];
        assert SelectLines(keys, meta) == lines + [Line(last, meta[last])];
      } else {
        assert PresentKeys(keys, meta) == present;
        assert SelectLines(keys, meta) == lines;
      }
    }
  }

  /** Selecting over two key lists one after the other gives the two blocks one after the other. */
  lemma {:induction false} SelectLinesAppend(keys1: seq<string>, keys2: seq<string>, meta: Metadata)
    ensures SelectLines(keys1 + keys2, meta) == SelectLines(keys1, meta) + SelectLines(keys2, meta)
  {
    if keys2 == [] {
      assert keys1 + keys2 == keys1;
    } else {
      var init, last := keys2[..|keys2| - 1], keys2[|keys2| - 1];
      var keys := keys1 + keys2;
      var added := if last in meta then [Line(last, meta[last])] else [];
      SelectLinesAppend(keys1, init, meta);
      assert keys[..|keys| - 1] == keys1 + init && keys[|keys| - 1] == last;
      assert SelectLines(keys, meta) == SelectLines(keys1 + init, meta) + added;
      assert SelectLines(keys2, meta) == SelectLines(init, meta) + added;
    }
  }

  /** A key the metadata lacks adds no line, wherever it stands in the key list. */
  lemma AbsentKeySkipped(before: seq<string>, key: string, after: seq<string>, meta: Metadata)
    requires key !in meta
    ensures SelectLines(before + [key] + after, meta) == SelectLines(before + after, meta)
  {
    SelectLinesAppend(before + [key], after, meta);
    SelectLinesAppend(before, after, meta);
    assert (before + [key])[..|before + [key]| - 1] == before;
  }

  /** A key the metadata has, configured twice, gives its line twice. */
  lemma RepeatedKeyRepeated(key: string, meta: Metadata)
    requires key in meta
    ensures SelectLines([key, key], meta) == [Line(key, meta[key]), Line(key, meta[key])]
  {
    assert [key, key][..1] == [key];
    assert [key][..0] == [];
    assert SelectLines([key], meta) == [Line(key, meta[key])];
  }

  // ---------------------------------------------------------------- one page

  /** Whether a page gets a metadata block: keys are configured and the record has metadata. */
  predicate MetadataShown(item: ImageItem, s: Settings): (shown: bool)
    ensures shown ==> s.keys.Some? && item.metadata.Keys != {}
    ensures s.keys.Some? && item.metadata.Keys != {} ==> shown
  {
    s.keys.Some? && HasMetadata(item.metadata)
  }

  /** The height the title takes from the top of the page: one gap when titles are on. */
  function TitleDrop(s: Settings): int
  {
    if s.title then s.gap else 0
  }

  /** The y coordinate of the image's bottom edge. */
  function ImageY(item: ImageItem, s: Settings, pageHeight: real): (y: real)
    ensures y + DrawnSize(item.width, item.height, s.scale).1 as real
         == pageHeight - s.offsetY as real - (if s.title then s.gap as real else 0.0)
  {
    pageHeight - s.offsetY as real - TitleDrop(s) as real
      - DrawnSize(item.width, item.height, s.scale).1 as real
  }

  /** Where the image command sits on the page: after the title, if any. */
  function ImageIndex(s: Settings): nat
  {
    if s.title then 1 else 0
  }

  /**
   * The commands on the page of one record: the title at the top margin (when
   * titles are on), the image below it, and the metadata block below the image
   * (when keys are configured and the record has metadata).
   */
  function PageCommands(item: ImageItem, s: Settings, pageHeight: real): (page: seq<DrawCommand>)
    ensures |page| == 1 + (if s.title then 1 else 0) + (if MetadataShown(item, s) then 1 else 0)
    ensures forall i :: 0 <= i < |page| ==> page[i].x == s.offsetX
    ensures forall i :: 0 <= i < |page| ==> (page[i].DrawImage? <==> i == ImageIndex(s))
  {
    var size := DrawnSize(item.width, item.height, s.scale);
    var imageY := ImageY(item, s, pageHeight);
    (if s.title then [DrawString(s.offsetX, pageHeight - s.offsetY as real, item.name)] else [])
    + [DrawImage(s.offsetX, imageY, size.0, size.1)]
    + (if MetadataShown(item, s)
       then [DrawText(s.offsetX, imageY - s.gap as real, SelectLines(s.keys.value, item.metadata))]
       else [])
  }

  /** With titles on, the first command is the record's name at the top margin. */
  lemma TitleAtTopMargin(item: ImageItem, s: Settings, pageHeight: real)
    requires s.title
    ensures PageCommands(item, s, pageHeight)[0]
      == DrawString(s.offsetX, pageHeight - s.offsetY as real, item.name)
  {
  }

  /**
   * The image has the drawn size, and its top edge is at the top margin, or
   * one gap below the title's baseline when titles are on.
   */
  lemma ImageBelowTitle(item: ImageItem, s: Settings, pageHeight: real)
    ensures var c := PageCommands(item, s, pageHeight)[ImageIndex(s)];
      && (c.width, c.height) == DrawnSize(item.width, item.height, s.scale)
      && c.y + c.height as real == pageHeight - s.offsetY as real - (if s.title then s.gap as real else 0.0)
  {
  }

  /** The metadata block starts one gap below the image's bottom edge and holds the selected lines. */
  lemma MetadataBelowImage(item: ImageItem, s: Settings, pageHeight: real)
    requires MetadataShown(item, s)
    ensures var page := PageCommands(item, s, pageHeight);
      && page[|page| - 1].DrawText?
      && page[|page| - 1].y == page[ImageIndex(s)].y - s.gap as real
      && page[|page| - 1].lines == SelectLines(s.keys.value, item.metadata)
  {
  }

  /** Without configured keys, or for a record without metadata, no text block is drawn. */
  lemma NoMetadataBlock(item: ImageItem, s: Settings, pageHeight: real)
    requires !MetadataShown(item, s)
    ensures forall c :: c in PageCommands(item, s, pageHeight) ==> !c.DrawText?
  {
  }
}
