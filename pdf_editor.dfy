/** The PDF editor page: its viewer state (zoom, view rotation, current
    page), the two annotation lists the click and delete handlers rebuild,
    and the save handler that replays the annotations as draw calls. */
module PdfEditor {
  import opened Common
  import opened PdfDraw
  import opened HexColor

  datatype Tool = SelectTool | TextTool | RectangleTool | CircleTool

  /** The list a delete button belongs to. */
  datatype AnnotationList = TextList | ShapeList

  const MinScale: real := 0.5
  const MaxScale: real := 2.0
  const ZoomStep: real := 0.1
  const InitialScale: real := 1.0

  /** Size of every new rectangle or circle, in page units. */
  const NewShapeWidth: real := 100.0
  const NewShapeHeight: real := 60.0

  // ---------------------------------------------------------------- zoom

  /** Zoom in: one step up, never above 200%. */
  function ZoomedIn(scale: real): (r: real)
    ensures r <= MaxScale && r <= scale + ZoomStep
    ensures MinScale <= scale <= MaxScale ==> scale <= r <= MaxScale
    ensures scale + ZoomStep <= MaxScale ==> r == scale + ZoomStep
    ensures scale + ZoomStep > MaxScale ==> r == MaxScale
  {
    // Math.min(2, scale + 0.1)
    if scale + ZoomStep <= MaxScale then scale + ZoomStep else MaxScale
  }

  /** Zoom out: one step down, never below 50%. */
  function ZoomedOut(scale: real): (r: real)
    ensures r >= MinScale && r >= scale - ZoomStep
    ensures MinScale <= scale <= MaxScale ==> MinScale <= r <= scale
    ensures scale - ZoomStep >= MinScale ==> r == scale - ZoomStep
    ensures scale - ZoomStep < MinScale ==> r == MinScale
  {
    // Math.max(0.5, scale - 0.1)
    if scale - ZoomStep >= MinScale then scale - ZoomStep else MinScale
  }

  datatype ZoomButton = ZoomInButton | ZoomOutButton

  function ZoomPress(scale: real, button: ZoomButton): real {
    match button
    case ZoomInButton => ZoomedIn(scale)
    case ZoomOutButton => ZoomedOut(scale)
  }

  /** The scale after pressing the zoom buttons in the given order. */
  function Zoom(scale: real, presses: seq<ZoomButton>): real
    decreases |presses|
  {
    if presses == [] then scale else Zoom(ZoomPress(scale, presses[0]), presses[1..])
  }

  /** Any sequence of zoom presses keeps a scale inside [0.5, 2]. */
  lemma {:induction false} ZoomStaysInRange(scale: real, presses: seq<ZoomButton>)
    requires MinScale <= scale <= MaxScale
    ensures MinScale <= Zoom(scale, presses) <= MaxScale
    decreases |presses|
  {
    if presses != [] {
      ZoomStaysInRange(ZoomPress(scale, presses[0]), presses[1..]);
    }
  }

  /** The same presses counted in tenths: the integer zoom level 5..20. */
  function ZoomTenths(tenths: int, presses: seq<ZoomButton>): int
    decreases |presses|
  {
    if presses == [] then tenths
    else
      var next := match presses[0]
                  case ZoomInButton => Min(20, tenths + 1)
                  case ZoomOutButton => Max(5, tenths - 1);
      ZoomTenths(next, presses[1..])
  }

  /** In exact arithmetic a scale that starts on a 10% step stays on one: the
      only reachable scales are 0.5, 0.6, ..., 2.0. */
  lemma {:induction false} ZoomOnTenthSteps(tenths: int, presses: seq<ZoomButton>)
    requires 5 <= tenths <= 20
    ensures Zoom(tenths as real / 10.0, presses) == ZoomTenths(tenths, presses) as real / 10.0
    ensures 5 <= ZoomTenths(tenths, presses) <= 20
    decreases |presses|
  {
    if presses != [] {
      var next := match presses[0]
                  case ZoomInButton => Min(20, tenths + 1)
                  case ZoomOutButton => Max(5, tenths - 1);
      assert ZoomPress(tenths as real / 10.0, presses[0]) == next as real / 10.0;
      ZoomOnTenthSteps(next, presses[1..]);
    }
  }

  /** From the initial 100%, every reachable scale is in [0.5, 2]. */
  lemma ZoomFromInitial(presses: seq<ZoomButton>)
    ensures MinScale <= Zoom(InitialScale, presses) <= MaxScale
  {
    ZoomStaysInRange(InitialScale, presses);
  }

  // ------------------------------------------------------------- rotation

  /** The rotate button: a quarter turn clockwise, modulo a full turn. */
  function Rotated(rotation: int): int {
    (rotation + 90) % 360
  }

  /** The view rotation after `presses` presses from the initial 0. */
  function RotationAfter(presses: nat): (r: int)
    ensures r == 0 || r == 90 || r == 180 || r == 270
  {
    RotationIsQuarter(presses);
    (90 * presses) % 360
  }

  lemma RotationIsQuarter(presses: nat)
    ensures (90 * presses) % 360 == 90 * (presses % 4)
  {
    var q, k := presses / 4, presses % 4;
    assert presses == 4 * q + k;
    assert 90 * presses == 360 * q + 90 * k;
  }

  /** One press moves the rotation after k presses to the rotation after k + 1. */
  lemma RotateStep(presses: nat)
    ensures Rotated(RotationAfter(presses)) == RotationAfter(presses + 1)
  {
    RotationIsQuarter(presses);
    RotationIsQuarter(presses + 1);
    var k := presses % 4;
    assert (presses + 1) % 4 == (if k == 3 then 0 else k + 1);
  }

  /** Four presses restore the rotation. */
  lemma FourRotationsRestore(presses: nat)
    ensures RotationAfter(presses + 4) == RotationAfter(presses)
  {
    RotationIsQuarter(presses);
    RotationIsQuarter(presses + 4);
    assert (presses + 4) % 4 == presses % 4;
  }

  // ------------------------------------------------------- page navigation

  /** The Previous button: one page back, never before page 1; a page at
      or before 1 (page 0 is reachable) becomes 1. */
  function PreviousPage(currentPage: int): (r: int)
    ensures r >= 1
    ensures currentPage > 1 ==> r == currentPage - 1
    ensures currentPage <= 1 ==> r == 1
  {
    Max(1, currentPage - 1)
  }

  /** The Next button: one page on, never past the last page; a page at or
      past the last one (a shorter second document keeps it) becomes the last. */
  function NextPage(currentPage: int, numPages: int): (r: int)
    ensures r <= numPages
    ensures currentPage < numPages ==> r == currentPage + 1
    ensures currentPage >= numPages ==> r == numPages
  {
    Min(numPages, currentPage + 1)
  }

  predicate PreviousDisabled(currentPage: int) {
    currentPage == 1
  }

  predicate NextDisabled(currentPage: int, numPages: int) {
    currentPage == numPages
  }

  /** With at least one page and the current page in range, both buttons keep
      it in range. */
  lemma NavigationInRange(currentPage: int, numPages: int)
    requires 1 <= currentPage <= numPages
    ensures 1 <= PreviousPage(currentPage) <= numPages
    ensures 1 <= NextPage(currentPage, numPages) <= numPages
  {
  }

  /** A button that is not disabled moves exactly one page. */
  lemma EnabledButtonMovesOnePage(currentPage: int, numPages: int)
    requires 1 <= currentPage <= numPages
    ensures !PreviousDisabled(currentPage) ==> PreviousPage(currentPage) == currentPage - 1
    ensures !NextDisabled(currentPage, numPages) ==> NextPage(currentPage, numPages) == currentPage + 1
  {
  }

  /** Next and Previous undo each other away from the ends. */
  lemma NavigationInverse(currentPage: int, numPages: int)
    ensures 1 <= currentPage < numPages ==> PreviousPage(NextPage(currentPage, numPages)) == currentPage
    ensures 1 < currentPage <= numPages ==> NextPage(PreviousPage(currentPage), numPages) == currentPage
  {
  }

  /** Before pdf.js reports the page count, numPages is 0 and Next is enabled
      on page 1; pressing it leaves the current page at 0. */
  lemma NextBeforePagesAreCounted()
    ensures !NextDisabled(1, 0) && NextPage(1, 0) == 0
  {
  }

  // ------------------------------------------------------------ coordinates

  /** A click's distance from the page's left (or top) edge, divided by the
      zoom: the result times the scale gives the on-screen offset back. */
  function ScreenToPage(client: real, origin: real, scale: real): (r: real)
    requires scale > 0.0
    ensures r * scale == client - origin
  {
    (client - origin) / scale
  }

  /** The overlay draws a stored box scaled by the zoom. */
  function OverlayBox(box: Box, scale: real): Box {
    Box(box.left * scale, box.top * scale, box.width * scale, box.height * scale)
  }

  /** A shape the user clicks at (clientX, clientY) is drawn with its corner
      at the click's offset from the measured page rectangle, whatever the
      zoom. */
  lemma ClickedShapeOverlay(clientX: real, clientY: real, left: real, top: real, scale: real)
    requires scale > 0.0
    ensures var box := Box(ScreenToPage(clientX, left, scale), ScreenToPage(clientY, top, scale),
                           NewShapeWidth, NewShapeHeight);
            OverlayBox(box, scale).left == clientX - left && OverlayBox(box, scale).top == clientY - top
  {
  }

  // ---------------------------------------------------------------- delete

  function TextIdIsNot(id: string): TextAnnotation -> bool {
    (a: TextAnnotation) => a.id != id
  }

  function ShapeIdIsNot(id: string): ShapeAnnotation -> bool {
    (a: ShapeAnnotation) => a.id != id
  }

  /** textAnnotations.filter((a) => a.id !== id) */
  function TextsWithout(texts: seq<TextAnnotation>, id: string): seq<TextAnnotation> {
    Filter(texts, TextIdIsNot(id))
  }

  /** shapeAnnotations.filter((a) => a.id !== id) */
  function ShapesWithout(shapes: seq<ShapeAnnotation>, id: string): seq<ShapeAnnotation> {
    Filter(shapes, ShapeIdIsNot(id))
  }

  /** Deleting by id keeps exactly the entries with another id, in their
      order: the result splits over any cut of the list. */
  lemma TextDeletion(texts: seq<TextAnnotation>, id: string, a: TextAnnotation, k: nat)
    requires k <= |texts|
    ensures a in TextsWithout(texts, id) <==> a in texts && a.id != id
    ensures TextsWithout(texts, id) == TextsWithout(texts[..k], id) + TextsWithout(texts[k..], id)
  {
    FilterMembership(texts, TextIdIsNot(id), a);
    assert texts == texts[..k] + texts[k..];
    FilterConcat(texts[..k], texts[k..], TextIdIsNot(id));
  }

  lemma ShapeDeletion(shapes: seq<ShapeAnnotation>, id: string, a: ShapeAnnotation, k: nat)
    requires k <= |shapes|
    ensures a in ShapesWithout(shapes, id) <==> a in shapes && a.id != id
    ensures ShapesWithout(shapes, id) == ShapesWithout(shapes[..k], id) + ShapesWithout(shapes[k..], id)
  {
    FilterMembership(shapes, ShapeIdIsNot(id), a);
    assert shapes == shapes[..k] + shapes[k..];
    FilterConcat(shapes[..k], shapes[k..], ShapeIdIsNot(id));
  }

  /** Deleting an annotation just added with a fresh id restores the list. */
  lemma AddThenDeleteText(texts: seq<TextAnnotation>, a: TextAnnotation)
    requires forall i :: 0 <= i < |texts| ==> texts[i].id != a.id
    ensures TextsWithout(texts + [a], a.id) == texts
  {
    FilterSnoc(texts, a, TextIdIsNot(a.id));
    FilterAllKept(texts, TextIdIsNot(a.id));
  }

  lemma AddThenDeleteShape(shapes: seq<ShapeAnnotation>, a: ShapeAnnotation)
    requires forall i :: 0 <= i < |shapes| ==> shapes[i].id != a.id
    ensures ShapesWithout(shapes + [a], a.id) == shapes
  {
    FilterSnoc(shapes, a, ShapeIdIsNot(a.id));
    FilterAllKept(shapes, ShapeIdIsNot(a.id));
  }

  // ----------------------------------------------------------- the editor

  class Editor {
    var pdfFile: Option<PdfFile>
    var numPages: int
    var currentPage: int
    var scale: real
    var rotation: int
    ghost var rotations: nat   // presses of the rotate button so far
    var activeTool: Tool
    var textAnnotations: seq<TextAnnotation>
    var shapeAnnotations: seq<ShapeAnnotation>
    var newText: string
    var fontSize: int
    var textColor: string
    var shapeColor: string

    /** The zoom stays in [0.5, 2], the rotation is the one after the presses
        so far, and every colour held (the two pickers' values and each
        annotation's) is a #RRGGBB string, as the colour inputs supply. */
    ghost predicate Valid()
      reads this
    {
      && MinScale <= scale <= MaxScale
      && rotation == RotationAfter(rotations)
      && IsHexColor(textColor) && IsHexColor(shapeColor)
      && (forall i :: 0 <= i < |textAnnotations| ==> IsHexColor(textAnnotations[i].color))
      && (forall i :: 0 <= i < |shapeAnnotations| ==> IsHexColor(shapeAnnotations[i].color))
    }

    constructor ()
      ensures Valid()
      ensures pdfFile == None && numPages == 0 && currentPage == 1
      ensures scale == InitialScale && rotation == 0 && rotations == 0
      ensures activeTool == SelectTool && textAnnotations == [] && shapeAnnotations == []
      ensures newText == "Sample Text" && fontSize == 16
      ensures textColor == "#000000" && shapeColor == "#FF0000"
    {
      pdfFile, numPages, currentPage := None, 0, 1;
      scale, rotation, rotations := InitialScale, 0, 0;
      activeTool, textAnnotations, shapeAnnotations := SelectTool, [], [];
      newText, fontSize := "Sample Text", 16;
      textColor, shapeColor := "#000000", "#FF0000";
    }

    /** Choosing a file: only a PDF replaces the current file. */
    method UploadFile(file: Option<PdfFile>) returns (accepted: bool)
      requires Valid()
      modifies this`pdfFile
      ensures Valid()
      ensures accepted <==> file.Some? && file.value.mimeType == "application/pdf"
      ensures pdfFile == if accepted then file else old(pdfFile)
    {
      accepted := file.Some? && file.value.mimeType == "application/pdf";
      if accepted {
        pdfFile := file;
      }
    }

    /** pdf.js reports the page count of the loaded document. */
    method DocumentLoaded(pages: int)
      requires Valid()
      modifies this`numPages
      ensures Valid()
      ensures numPages == pages
    {
      numPages := pages;
    }

    method SetActiveTool(tool: Tool)
      requires Valid()
      modifies this`activeTool
      ensures Valid()
      ensures activeTool == tool
    {
      activeTool := tool;
    }

    method SetNewText(text: string)
      requires Valid()
      modifies this`newText
      ensures Valid()
      ensures newText == text
    {
      newText := text;
    }

    method SetFontSize(size: int)
      requires Valid()
      modifies this`fontSize
      ensures Valid()
      ensures fontSize == size
    {
      fontSize := size;
    }

    /** The text colour input; a colour input's value is always #RRGGBB. */
    method SetTextColor(color: string)
      requires Valid() && IsHexColor(color)
      modifies this`textColor
      ensures Valid() && textColor == color
    {
      textColor := color;
    }

    /** The shape colour input; a colour input's value is always #RRGGBB. */
    method SetShapeColor(color: string)
      requires Valid() && IsHexColor(color)
      modifies this`shapeColor
      ensures Valid() && shapeColor == color
    {
      shapeColor := color;
    }

    /** A click on the page. `stamp` is the id Date.now() supplies. The select
        tool does nothing; the text tool appends one text annotation and the
        shape tools one shape, at the click position divided by the zoom;
        the other list is left alone. */
    method PageClick(clientX: real, clientY: real, left: real, top: real, stamp: string)
      requires Valid()
      modifies this`textAnnotations, this`shapeAnnotations
      ensures Valid()
      ensures activeTool == SelectTool ==>
                textAnnotations == old(textAnnotations) && shapeAnnotations == old(shapeAnnotations)
      ensures activeTool == TextTool ==>
                && textAnnotations == old(textAnnotations) + [TextAnnotation(
                     stamp, newText, ScreenToPage(clientX, left, scale), ScreenToPage(clientY, top, scale),
                     fontSize, textColor, currentPage)]
                && shapeAnnotations == old(shapeAnnotations)
      ensures (activeTool == RectangleTool || activeTool == CircleTool) ==>
                && shapeAnnotations == old(shapeAnnotations) + [ShapeAnnotation(
                     stamp, if activeTool == RectangleTool then Rectangle else Circle,
                     ScreenToPage(clientX, left, scale), ScreenToPage(clientY, top, scale),
                     NewShapeWidth, NewShapeHeight, shapeColor, currentPage)]
                && textAnnotations == old(textAnnotations)
    {
      if activeTool == SelectTool {
        return;
      }
      var x := ScreenToPage(clientX, left, scale);
      var y := ScreenToPage(clientY, top, scale);
      if activeTool == TextTool {
        textAnnotations := textAnnotations
          + [TextAnnotation(stamp, newText, x, y, fontSize, textColor, currentPage)];
      } else {
        var kind := if activeTool == RectangleTool then Rectangle else Circle;
        shapeAnnotations := shapeAnnotations
          + [ShapeAnnotation(stamp, kind, x, y, NewShapeWidth, NewShapeHeight, shapeColor, currentPage)];
      }
    }

    /** A delete button: every entry with that id leaves the named list; the
        other list is untouched. */
    method DeleteAnnotation(id: string, list: AnnotationList)
      requires Valid()
      modifies this`textAnnotations, this`shapeAnnotations
      ensures Valid()
      ensures list == TextList ==>
                textAnnotations == TextsWithout(old(textAnnotations), id)
                && shapeAnnotations == old(shapeAnnotations)
      ensures list == ShapeList ==>
                shapeAnnotations == ShapesWithout(old(shapeAnnotations), id)
                && textAnnotations == old(textAnnotations)
    {
      if list == TextList {
        var kept := TextsWithout(textAnnotations, id);
        forall i | 0 <= i < |kept| ensures IsHexColor(kept[i].color) {
          FilterMembership(textAnnotations, TextIdIsNot(id), kept[i]);
        }
        textAnnotations := kept;
      } else {
        var kept := ShapesWithout(shapeAnnotations, id);
        forall i | 0 <= i < |kept| ensures IsHexColor(kept[i].color) {
          FilterMembership(shapeAnnotations, ShapeIdIsNot(id), kept[i]);
        }
        shapeAnnotations := kept;
      }
    }

    method ZoomOut()
      requires Valid()
      modifies this`scale
      ensures Valid() && scale == ZoomedOut(old(scale))
    {
      scale := ZoomedOut(scale);
    }

    method ZoomIn()
      requires Valid()
      modifies this`scale
      ensures Valid() && scale == ZoomedIn(old(scale))
    {
      scale := ZoomedIn(scale);
    }

    /** The rotate button; the rotation stays the one after this many presses. */
    method Rotate()
      requires Valid()
      modifies this`rotation, this`rotations
      ensures Valid() && rotations == old(rotations) + 1
      ensures rotation == Rotated(old(rotation))
    {
      RotateStep(rotations);
      rotation := Rotated(rotation);
      rotations := rotations + 1;
    }

    method GoToPreviousPage()
      requires Valid()
      modifies this`currentPage
      ensures Valid()
      ensures currentPage == PreviousPage(old(currentPage))
    {
      currentPage := PreviousPage(currentPage);
    }

    method GoToNextPage()
      requires Valid()
      modifies this`currentPage
      ensures Valid()
      ensures currentPage == NextPage(old(currentPage), numPages)
    {
      currentPage := NextPage(currentPage, numPages);
    }

    /** The save handler. `document` is what pdf-lib makes of the file's bytes:
        the heights of its pages, or None when loading fails. The text
        annotations are drawn first, then the shapes, each list in order;
        neither zoom nor view rotation takes part. Every colour handed to
        pdf-lib parses to three channels in 0..255. */
    method SavePdf(document: Option<seq<real>>) returns (outcome: SaveOutcome)
      requires Valid()
      ensures outcome == SaveOutcomeOf(pdfFile, document, textAnnotations, shapeAnnotations)
      ensures outcome.Saved? ==>
                forall i :: 0 <= i < |outcome.draws| ==> ChannelsInByteRange(DrawColor(outcome.draws[i]))
    {
      if pdfFile.None? {
        return NoPdfLoaded;
      }
      if document.None? {
        return SaveFailed;
      }
      var pages := document.value;
      var draws: seq<DrawCommand> := [];

      var i := 0;
      while i < |textAnnotations|
        invariant 0 <= i <= |textAnnotations|
        invariant draws == TextDraws(textAnnotations[..i], pages)
      {
        var a := textAnnotations[i];
        if PageExists(a.pageNumber, pages) {
          var height := pages[a.pageNumber - 1];
          draws := draws + [TextDraw(a, height)];
        }
        TextDrawsSnoc(textAnnotations[..i], a, pages);
        assert textAnnotations[..i + 1] == textAnnotations[..i] + [a];
        i := i + 1;
      }
      assert textAnnotations[..i] == textAnnotations;

      var j := 0;
      while j < |shapeAnnotations|
        invariant 0 <= j <= |shapeAnnotations|
        invariant draws == TextDraws(textAnnotations, pages) + ShapeDraws(shapeAnnotations[..j], pages)
      {
        var a := shapeAnnotations[j];
        if PageExists(a.pageNumber, pages) {
          var height := pages[a.pageNumber - 1];
          draws := draws + [ShapeDraw(a, height)];
        }
        ShapeDrawsSnoc(shapeAnnotations[..j], a, pages);
        assert shapeAnnotations[..j + 1] == shapeAnnotations[..j] + [a];
        j := j + 1;
      }
      assert shapeAnnotations[..j] == shapeAnnotations;

      SaveColorsInRange(textAnnotations, shapeAnnotations, pages);
      outcome := Saved("edited-" + pdfFile.value.name, draws);
    }
  }
}
