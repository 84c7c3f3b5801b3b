/**
 * The drawing surface the writer uses, reduced to a record of what is drawn.
 * Each page is the sequence of draw commands issued on it; pixels, fonts and
 * the bytes of the PDF file are not modelled.
 */
module PdfCanvas {

  /** One drawing call on a page; `x`/`y` are the origin in points, y measured up from the bottom. */
  datatype DrawCommand =
    | DrawString(x: int, y: real, text: string)
    | DrawImage(x: int, y: real, width: int, height: int)
    | DrawText(x: int, y: real, lines: seq<string>)

  /** A text object begun at an origin and filled line by line before it is drawn. */
  class TextObject {
    const x: int
    const y: real
    var lines: seq<string>

    constructor (x: int, y: real)
      ensures this.x == x && this.y == y && lines == []
    {
      this.x := x;
      this.y := y;
      lines := [];
    }

    /** `textLine`: appends one line below the ones already written. */
    method TextLine(line: string)
      modifies this
      ensures lines == old(lines) + [line]
    {
      lines := lines + [line];
    }
  }

  /** A canvas bound to an output file: finished pages, the open page, and how often it was saved. */
  class Canvas {
    const file: string
    var pages: seq<seq<DrawCommand>>
    var current: seq<DrawCommand>
    var saves: nat

    constructor (file: string)
      ensures this.file == file && pages == [] && current == [] && saves == 0
    {
      this.file := file;
      pages := [];
      current := [];
      saves := 0;
    }

    /** `drawString`: one line of text at a point on the open page. */
    method DrawString(x: int, y: real, text: string)
      modifies this
      ensures current == old(current) + [DrawCommand.DrawString(x, y, text)]
      ensures pages == old(pages) && saves == old(saves)
    {
      current := current + [DrawCommand.DrawString(x, y, text)];
    }

    /** `drawImage`: an image whose bottom-left corner is at (x, y), of the given size. */
    method DrawImage(x: int, y: real, width: int, height: int)
      modifies this
      ensures current == old(current) + [DrawCommand.DrawImage(x, y, width, height)]
      ensures pages == old(pages) && saves == old(saves)
    {
      current := current + [DrawCommand.DrawImage(x, y, width, height)];
    }

    /** `beginText`: a new, empty text object with its origin at (x, y). */
    method BeginText(x: int, y: real) returns (t: TextObject)
      ensures fresh(t) && t.x == x && t.y == y && t.lines == []
    {
      t := new TextObject(x, y);
    }

    /** `drawText`: places the lines of a text object on the open page. */
    method DrawText(t: TextObject)
      modifies this
      ensures current == old(current) + [DrawCommand.DrawText(t.x, t.y, t.lines)]
      ensures pages == old(pages) && saves == old(saves)
    {
      current := current + [DrawCommand.DrawText(t.x, t.y, t.lines)];
    }

    /** `showPage`: closes the open page and starts an empty one. */
    method ShowPage()
      modifies this
      ensures pages == old(pages) + [old(current)] && current == []
      ensures saves == old(saves)
    {
      pages := pages + [current];
      current := [];
    }

    /** `save`: writes the document to its file; only the case of no open drawing is modelled. */
    method Save()
      requires current == []
      modifies this
      ensures saves == old(saves) + 1
      ensures pages == old(pages) && current == old(current)
    {
      saves := saves + 1;
    }
  }
}
