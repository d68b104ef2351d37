/** The one page of the template that the filler draws on, seen as the log of
    drawing operations appended to it (PyMuPDF's `insert_text` and
    `draw_rect`). Colours are not recorded: text is always black and the only
    rectangle is filled white. */
module Pdf {

  /** A page position in points, origin at the top-left corner, y downwards. */
  datatype Point = Point(x: int, y: int)

  /** A font as `insert_text` is given it: a built-in font name such as
      "helv" or "figo", or a font file together with the name it is
      registered under. */
  datatype Font = Builtin(name: string) | FontFile(file: string, name: string)

  datatype Op =
    | Text(at: Point, text: string, font: Font, size: int)
    | Rect(x0: int, y0: int, x1: int, y1: int)

  class Page {
    /** Everything drawn on the page so far, oldest first; later operations
        are painted over earlier ones. */
    var log: seq<Op>

    /** The template page before anything is drawn on it. */
    constructor ()
      ensures log == []
    {
      log := [];
    }

    /** `page.insert_text(point, text, fontname=..., fontsize=...)` */
    method InsertText(at: Point, text: string, font: Font, size: int)
      modifies this
      ensures log == old(log) + [Text(at, text, font, size)]
    {
      log := log + [Text(at, text, font, size)];
    }

    /** `page.draw_rect(fitz.Rect(x0, y0, x1, y1), ...)` */
    method DrawRect(x0: int, y0: int, x1: int, y1: int)
      modifies this
      ensures log == old(log) + [Rect(x0, y0, x1, y1)]
    {
      log := log + [Rect(x0, y0, x1, y1)];
    }
  }
}
