/** The PDF drawing surface, reduced to what the generator can observe:
    the drawing calls it makes, grouped into pages, and whether the
    document was saved. Rendering, fonts and file output are not modelled. */
module Pdf {

  /** US Letter, in points. */
  const PAGE_WIDTH: int := 612
  const PAGE_HEIGHT: int := 792

  /** One drawing call. Horizontal coordinates and widths are in fifths of a
      point (x5 == 5 * x), so that the bingo grid's 102.4-point cell width
      stays integral. */
  datatype Draw =
    | Rectangle(x5: int, y: int, w5: int, h: int)  // rect(x, y, width, height): lower-left corner and size
    | TextRun(x5: int, y: int, text: string)       // drawString(x, y, text): start of the baseline

  /** A canvas records the calls on the page being drawn (`current`);
      ShowPage closes that page and starts an empty one. */
  class Canvas {
    const filename: string
    var pages: seq<seq<Draw>>
    var current: seq<Draw>
    var saved: bool

    constructor (filename: string)
      ensures this.filename == filename
      ensures pages == [] && current == [] && !saved
    {
      this.filename := filename;
      pages := [];
      current := [];
      saved := false;
    }

    method Rect(x5: int, y: int, w5: int, h: int)
      modifies this`current
      ensures current == old(current) + [Rectangle(x5, y, w5, h)]
    {
      current := current + [Rectangle(x5, y, w5, h)];
    }

    method DrawString(x5: int, y: int, text: string)
      modifies this`current
      ensures current == old(current) + [TextRun(x5, y, text)]
    {
      current := current + [TextRun(x5, y, text)];
    }

    /** Ends the current page, even an empty one. */
    method ShowPage()
      modifies this`pages, this`current
      ensures pages == old(pages) + [old(current)]
      ensures current == []
    {
      pages := pages + [current];
      current := [];
    }

    /** Writes the document; a page that holds drawing is closed first. */
    method Save()
      modifies this
      ensures pages == old(pages) + (if old(current) == [] then [] else [old(current)])
      ensures current == [] && saved
    {
      if current != [] {
        pages := pages + [current];
        current := [];
      }
      saved := true;
    }
  }
}
