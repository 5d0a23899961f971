/** The PDF editor's annotation records and the mapping that turns them into
    pdf-lib draw calls when the document is saved. The editor stores
    positions top-down, as the page is shown on screen; pdf-lib measures
    from the bottom of the page, so every y is flipped against the page
    height. A loaded document is seen only through the heights of its pages. */
module PdfDraw {
  import opened Common
  import opened HexColor

  datatype TextAnnotation = TextAnnotation(
    id: string, text: string, x: real, y: real, fontSize: int, color: string, pageNumber: int)

  datatype ShapeKind = Rectangle | Circle

  datatype ShapeAnnotation = ShapeAnnotation(
    id: string, kind: ShapeKind, x: real, y: real, width: real, height: real,
    color: string, pageNumber: int)

  /** One call on a pdf-lib page: drawText, drawRectangle or drawEllipse.
      `page` is the zero-based index into the document's pages. A colour is
      recorded as the annotation's colour string; the channels the call
      receives are DrawColor of the command. */
  datatype DrawCommand =
    | DrawText(page: int, text: string, x: real, y: real, size: int, color: string)
    | DrawRectangle(page: int, x: real, y: real, width: real, height: real,
                    borderColor: string, borderWidth: int)
    | DrawEllipse(page: int, x: real, y: real, xScale: real, yScale: real,
                  borderColor: string, borderWidth: int)

  /** The channels given to rgb() for a command, before the division by 255. */
  function DrawColor(d: DrawCommand): Rgb {
    if d.DrawText? then ParseColor(d.color) else ParseColor(d.borderColor)
  }

  /** The border width of every saved shape. */
  const ShapeBorderWidth := 2

  /** An axis-aligned box in the editor's top-down page coordinates. */
  datatype Box = Box(left: real, top: real, width: real, height: real)

  /** pages[pageNumber - 1] names a page of the document. */
  predicate PageExists(pageNumber: int, pageHeights: seq<real>) {
    1 <= pageNumber <= |pageHeights|
  }

  /** Where a text draw's anchor and a shape draw's bounding box lie when read
      back in top-down coordinates on a page of height `pageHeight`. */
  function TopDownAnchor(d: DrawCommand, pageHeight: real): (real, real)
    requires d.DrawText?
  {
    (d.x, pageHeight - d.y)
  }

  function TopDownBox(d: DrawCommand, pageHeight: real): Box
    requires !d.DrawText?
  {
    match d
    case DrawRectangle(_, x, y, w, h, _, _) => Box(x, pageHeight - y - h, w, h)
    case DrawEllipse(_, cx, cy, rx, ry, _, _) => Box(cx - rx, pageHeight - cy - ry, 2.0 * rx, 2.0 * ry)
  }

  /** The drawText call for one text annotation on a page of the given height:
      text, size and colour are carried over, and the anchor read back
      top-down is the annotation's own position. */
  function TextDraw(t: TextAnnotation, pageHeight: real): (d: DrawCommand)
    ensures d.DrawText? && d.page == t.pageNumber - 1
    ensures d.text == t.text && d.size == t.fontSize && d.color == t.color
    ensures TopDownAnchor(d, pageHeight) == (t.x, t.y)
  {
    DrawText(t.pageNumber - 1, t.text, t.x, pageHeight - t.y, t.fontSize, t.color)
  }

  /** The drawRectangle or drawEllipse call for one shape: the kind decides
      the call, and either way the drawn figure, read back top-down, fills
      exactly the annotation's box (an ellipse by its centre and radii). */
  function ShapeDraw(s: ShapeAnnotation, pageHeight: real): (d: DrawCommand)
    ensures !d.DrawText? && d.page == s.pageNumber - 1
    ensures d.DrawEllipse? <==> s.kind == Circle
    ensures d.borderColor == s.color && d.borderWidth == ShapeBorderWidth
    ensures TopDownBox(d, pageHeight) == Box(s.x, s.y, s.width, s.height)
  {
    match s.kind
    case Rectangle =>
      DrawRectangle(s.pageNumber - 1, s.x, pageHeight - s.y - s.height, s.width, s.height,
                    s.color, ShapeBorderWidth)
    case Circle =>
      DrawEllipse(s.pageNumber - 1, s.x + s.width / 2.0, pageHeight - s.y - s.height / 2.0,
                  s.width / 2.0, s.height / 2.0, s.color, ShapeBorderWidth)
  }

  /** The height of page `pageNumber`, or 0 when there is no such page (the
      save loops never ask for one). */
  function PageHeight(pageNumber: int, pageHeights: seq<real>): real {
    if PageExists(pageNumber, pageHeights) then pageHeights[pageNumber - 1] else 0.0
  }

  /** The tests and draw calls of the two save loops. */
  function TextOnPage(pageHeights: seq<real>): TextAnnotation -> bool {
    (t: TextAnnotation) => PageExists(t.pageNumber, pageHeights)
  }

  function ShapeOnPage(pageHeights: seq<real>): ShapeAnnotation -> bool {
    (s: ShapeAnnotation) => PageExists(s.pageNumber, pageHeights)
  }

  function TextDrawOn(pageHeights: seq<real>): TextAnnotation -> DrawCommand {
    (t: TextAnnotation) => TextDraw(t, PageHeight(t.pageNumber, pageHeights))
  }

  function ShapeDrawOn(pageHeights: seq<real>): ShapeAnnotation -> DrawCommand {
    (s: ShapeAnnotation) => ShapeDraw(s, PageHeight(s.pageNumber, pageHeights))
  }

  /** The first forEach of the save handler: a drawText for each annotation
      whose page exists, skipping the others. */
  function TextDraws(texts: seq<TextAnnotation>, pageHeights: seq<real>): seq<DrawCommand> {
    FilterMap(texts, TextOnPage(pageHeights), TextDrawOn(pageHeights))
  }

  /** The second forEach: a drawRectangle or drawEllipse for each shape whose
      page exists. */
  function ShapeDraws(shapes: seq<ShapeAnnotation>, pageHeights: seq<real>): seq<DrawCommand> {
    FilterMap(shapes, ShapeOnPage(pageHeights), ShapeDrawOn(pageHeights))
  }

  /** The annotations the save handler finds a page for. */
  function TextsOnPages(texts: seq<TextAnnotation>, pageHeights: seq<real>): seq<TextAnnotation> {
    Filter(texts, TextOnPage(pageHeights))
  }

  function ShapesOnPages(shapes: seq<ShapeAnnotation>, pageHeights: seq<real>): seq<ShapeAnnotation> {
    Filter(shapes, ShapeOnPage(pageHeights))
  }

  /** The text draws are exactly the drawText calls of the annotations that
      have a page, one each and in list order, drawn against that page's
      height. */
  lemma TextDrawsMatchKept(texts: seq<TextAnnotation>, pageHeights: seq<real>)
    ensures var kept := TextsOnPages(texts, pageHeights);
      |TextDraws(texts, pageHeights)| == |kept|
      && forall i :: 0 <= i < |kept| ==>
           PageExists(kept[i].pageNumber, pageHeights)
           && TextDraws(texts, pageHeights)[i] == TextDraw(kept[i], pageHeights[kept[i].pageNumber - 1])
  {
    var kept := TextsOnPages(texts, pageHeights);
    FilterMapIsMapOfFilter(texts, TextOnPage(pageHeights), TextDrawOn(pageHeights));
    forall i | 0 <= i < |kept| ensures PageExists(kept[i].pageNumber, pageHeights) {
      FilterMembership(texts, TextOnPage(pageHeights), kept[i]);
    }
  }

  /** The shape draws are exactly the calls of the shapes that have a page,
      one each and in list order. */
  lemma ShapeDrawsMatchKept(shapes: seq<ShapeAnnotation>, pageHeights: seq<real>)
    ensures var kept := ShapesOnPages(shapes, pageHeights);
      |ShapeDraws(shapes, pageHeights)| == |kept|
      && forall i :: 0 <= i < |kept| ==>
           PageExists(kept[i].pageNumber, pageHeights)
           && ShapeDraws(shapes, pageHeights)[i] == ShapeDraw(kept[i], pageHeights[kept[i].pageNumber - 1])
  {
    var kept := ShapesOnPages(shapes, pageHeights);
    FilterMapIsMapOfFilter(shapes, ShapeOnPage(pageHeights), ShapeDrawOn(pageHeights));
    forall i | 0 <= i < |kept| ensures PageExists(kept[i].pageNumber, pageHeights) {
      FilterMembership(shapes, ShapeOnPage(pageHeights), kept[i]);
    }
  }

  /** Appending an annotation adds its one draw at the end, or nothing when its
      page does not exist: the step of the save loop. */
  lemma TextDrawsSnoc(texts: seq<TextAnnotation>, t: TextAnnotation, pageHeights: seq<real>)
    ensures TextDraws(texts + [t], pageHeights)
         == TextDraws(texts, pageHeights)
            + (if PageExists(t.pageNumber, pageHeights) then [TextDraw(t, pageHeights[t.pageNumber - 1])] else [])
  {
    FilterMapSnoc(texts, t, TextOnPage(pageHeights), TextDrawOn(pageHeights));
  }

  lemma ShapeDrawsSnoc(shapes: seq<ShapeAnnotation>, s: ShapeAnnotation, pageHeights: seq<real>)
    ensures ShapeDraws(shapes + [s], pageHeights)
         == ShapeDraws(shapes, pageHeights)
            + (if PageExists(s.pageNumber, pageHeights) then [ShapeDraw(s, pageHeights[s.pageNumber - 1])] else [])
  {
    FilterMapSnoc(shapes, s, ShapeOnPage(pageHeights), ShapeDrawOn(pageHeights));
  }

  /** Every draw of the save: first all drawText calls, then all shape calls.
      The result names one draw per annotation that has a page, text calls
      strictly before shape calls. */
  function SaveDraws(texts: seq<TextAnnotation>, shapes: seq<ShapeAnnotation>, pageHeights: seq<real>)
    : (draws: seq<DrawCommand>)
    ensures |draws| == |TextsOnPages(texts, pageHeights)| + |ShapesOnPages(shapes, pageHeights)|
    ensures forall i :: 0 <= i < |draws| ==>
              (draws[i].DrawText? <==> i < |TextsOnPages(texts, pageHeights)|)
  {
    TextDrawsMatchKept(texts, pageHeights);
    ShapeDrawsMatchKept(shapes, pageHeights);
    TextDraws(texts, pageHeights) + ShapeDraws(shapes, pageHeights)
  }

  /** When every annotation carries a #RRGGBB colour, as the colour pickers
      produce, every draw of the save receives three channels in [0, 255]. */
  lemma SaveColorsInRange(texts: seq<TextAnnotation>, shapes: seq<ShapeAnnotation>, pageHeights: seq<real>)
    requires forall i :: 0 <= i < |texts| ==> IsHexColor(texts[i].color)
    requires forall i :: 0 <= i < |shapes| ==> IsHexColor(shapes[i].color)
    ensures forall i :: 0 <= i < |SaveDraws(texts, shapes, pageHeights)| ==>
              ChannelsInByteRange(DrawColor(SaveDraws(texts, shapes, pageHeights)[i]))
  {
    var draws := SaveDraws(texts, shapes, pageHeights);
    var keptTexts := TextsOnPages(texts, pageHeights);
    var keptShapes := ShapesOnPages(shapes, pageHeights);
    TextDrawsMatchKept(texts, pageHeights);
    ShapeDrawsMatchKept(shapes, pageHeights);
    forall i | 0 <= i < |draws| ensures ChannelsInByteRange(DrawColor(draws[i])) {
      if i < |keptTexts| {
        var t := keptTexts[i];
        FilterMembership(texts, TextOnPage(pageHeights), t);
        assert draws[i] == TextDraw(t, pageHeights[t.pageNumber - 1]);
        HexColorInByteRange(t.color);
      } else {
        var s := keptShapes[i - |keptTexts|];
        FilterMembership(shapes, ShapeOnPage(pageHeights), s);
        assert draws[i] == ShapeDraw(s, pageHeights[s.pageNumber - 1]);
        HexColorInByteRange(s.color);
      }
    }
  }

  /** An annotation whose page does not exist leaves the save output as it
      would be without it. */
  lemma SkippedPageChangesNothing(texts: seq<TextAnnotation>, t: TextAnnotation,
                                  shapes: seq<ShapeAnnotation>, s: ShapeAnnotation, pageHeights: seq<real>)
    requires !PageExists(t.pageNumber, pageHeights) && !PageExists(s.pageNumber, pageHeights)
    ensures SaveDraws(texts + [t], shapes, pageHeights) == SaveDraws(texts, shapes, pageHeights)
    ensures SaveDraws(texts, shapes + [s], pageHeights) == SaveDraws(texts, shapes, pageHeights)
  {
    TextDrawsSnoc(texts, t, pageHeights);
    ShapeDrawsSnoc(shapes, s, pageHeights);
  }

  /** The file the editor was given: only its name and MIME type matter. */
  datatype PdfFile = PdfFile(name: string, mimeType: string)

  datatype SaveOutcome =
    | NoPdfLoaded                                       // "No PDF file loaded"
    | SaveFailed                                        // "Failed to save PDF"
    | Saved(fileName: string, draws: seq<DrawCommand>)  // downloaded as fileName

  /** The whole save handler. `document` holds the page heights pdf-lib
      finds, or None when pdf-lib rejects the bytes. */
  function SaveOutcomeOf(file: Option<PdfFile>, document: Option<seq<real>>,
                         texts: seq<TextAnnotation>, shapes: seq<ShapeAnnotation>): (r: SaveOutcome)
    ensures r.NoPdfLoaded? <==> file.None?
    ensures r.SaveFailed? <==> file.Some? && document.None?
    ensures r.Saved? ==>
              r.fileName == "edited-" + file.value.name && r.draws == SaveDraws(texts, shapes, document.value)
  {
    match file
    case None => NoPdfLoaded
    case Some(f) =>
      match document
      case None => SaveFailed
      case Some(pageHeights) => Saved("edited-" + f.name, SaveDraws(texts, shapes, pageHeights))
  }

  /** Saving with no annotations still downloads a copy, with no draws. */
  lemma SaveWithoutAnnotations(file: PdfFile, pageHeights: seq<real>)
    ensures SaveOutcomeOf(Some(file), Some(pageHeights), [], []) == Saved("edited-" + file.name, [])
  {
    assert TextDraws([], pageHeights) == [] && ShapeDraws([], pageHeights) == [];
  }
}
