# Transcode Nexus: a verified model of the editor and converter state

Transcode Nexus is a browser file-converter app. This project models the
synchronous logic of four of its React components and proves properties of
that model:

- **The PDF editor page** (`src/pages/PDFEditor.tsx`) has these parts:
  - zoom, clamped to [0.5, 2] in steps of 0.1;
  - a view rotation that cycles through 0, 90, 180 and 270 degrees;
  - Previous/Next page navigation;
  - a click handler that adds text or shape annotations at the click
    position divided by the zoom;
  - deletion of annotations by id;
  - the save handler. It replays each annotation whose page exists as a
    drawText, drawRectangle or drawEllipse call, flipping y against the
    page height. Each colour comes from `parseInt(color.slice(..), 16)`.
- **The download history card** (`src/components/DownloadHistory.tsx`) keeps
  a newest-first list under one storage key. The list is capped at ten
  entries. The card loads the list on mount, has a clear button, and renders
  nothing when the list is empty.
- **The converter page** (`src/pages/Index.tsx`) holds the selected category,
  file, output format and converting flag. It also holds the per-category
  default format and accepted-types tables. The formats table comes from
  `src/components/FormatSelector.tsx`.
- **The page-manager card** (`src/components/PDFPageManager.tsx`) shows one
  row per page, with disabled flags on the move, rotate and delete buttons
  and the callbacks a click fires.

Layout, one module per file:

- `common.dfy` (`Common`) holds Option, Min/Max (Math.min/Math.max) and an
  order-preserving `Filter`/`FilterMap` (Array.prototype.filter and a
  filtering forEach), with their lemmas.
- `hex_color.dfy` (`HexColor`) models JavaScript's `parseInt(s, 16)` and
  clamped `slice`, the channel parse of a colour string, and the
  `#rrggbb` strings a colour input produces.
- `pdf_draw.dfy` (`PdfDraw`) holds the annotation records, the draw commands
  and the save mapping as pure functions.
- `pdf_editor.dfy` (`PdfEditor`) holds the handlers' arithmetic. The page
  state is the `Editor` class; its `SavePdf` is the two forEach loops,
  proved against `SaveOutcomeOf`. The editor invariant (`Valid`) keeps the
  zoom in [0.5, 2], the rotation equal to 90 degrees per press modulo 360,
  and every colour the editor holds in `#RRGGBB` form.
- `download_history.dfy` (`DownloadHistory`) holds the prepend-and-cap
  function and the `History` class, whose storage key and displayed list
  are fields.
- `converter.dfy` (`Converter`) holds the tables and the `ConverterPage` class.
- `page_manager.dfy` (`PageManager`) holds the rows and the click dispatch
  as pure functions.

Inputs from the environment are parameters:

- ids from `Date.now()` and ISO dates;
- the mouse position and the page's bounding rectangle;
- whether pdf-lib can load the file, and if it can, the page heights;
- whether the conversion wait throws.

Coordinates are exact reals.

The code has no per-page rotation or deletion at save, no text replacement
by cover-and-redraw, and no page reordering. The page-manager card only
reports those requests through callbacks, and the editor page does not use
the card. This model follows the code.

## Model

| member | source | states |
|---|---|---|
| Common.Filter | src/pages/PDFEditor.tsx:131 | filtering never lengthens a list |
| Common.FilterMembership | src/pages/PDFEditor.tsx:131 | an element is in the filtered list exactly when it was in the list and passes the test |
| Common.FilterConcat | src/pages/PDFEditor.tsx:131 | filtering distributes over concatenation, so survivors keep their relative order |
| Common.FilterAllKept | src/pages/PDFEditor.tsx:131 | a list whose every element passes is returned unchanged |
| Common.FilterIdempotent | src/pages/PDFEditor.tsx:131 | filtering twice equals filtering once |
| Common.FilterSnoc | src/pages/PDFEditor.tsx:131 | appending an element adds it to the filtered list exactly when it passes |
| Common.FilterMap | src/pages/PDFEditor.tsx:150-165 | a forEach that draws only for passing elements produces at most one command per element |
| Common.FilterMapIsMapOfFilter | src/pages/PDFEditor.tsx:150-165 | the i-th command is `f` of the i-th passing element, and there are as many commands as passing elements |
| Common.FilterMapSnoc | src/pages/PDFEditor.tsx:150-165 | one more element adds at most its own command, at the end |
| HexColor.Slice | src/pages/PDFEditor.tsx:159-161 | String.prototype.slice with clamped bounds: the exact substring when the bounds lie inside, the rest of the string from start when end runs past the end, empty when end <= start or start is past the end |
| HexColor.TrimStart | src/pages/PDFEditor.tsx:159-161 | parseInt's leading-whitespace skip: a suffix of the input that is empty or does not start with whitespace |
| HexColor.TrimStartDropsWhitespace | src/pages/PDFEditor.tsx:159-161 | every character the whitespace skip drops is whitespace |
| HexColor.HexDigitsPrefix | src/pages/PDFEditor.tsx:159-161 | the digits parseInt reads: a prefix of the input made only of hexadecimal digits, followed by a character that is not one |
| HexColor.TwoDigitParse | src/pages/PDFEditor.tsx:159-161 | parseInt of two hexadecimal digits in base 16 is their two-digit value, at most 255 |
| HexColor.Channel | src/pages/PDFEditor.tsx:173-175 | the pair sliced at positions i and i + 1 has the value 16 × digit(i) + digit(i + 1) |
| HexColor.ChannelParse | src/pages/PDFEditor.tsx:173-175 | slicing two digits out of a colour and parsing them gives the channel value, at most 255 |
| HexColor.ParseHexColor | src/pages/PDFEditor.tsx:172-176 | for `#RRGGBB` the three channels are the base-16 values of characters 1-2, 3-4 and 5-6 |
| HexColor.HexColorInByteRange | src/pages/PDFEditor.tsx:158-162 | a `#RRGGBB` colour never yields NaN or an out-of-range channel |
| HexColor.FormatColor | src/pages/PDFEditor.tsx:326-331 | the colour input's value for three channels is a well-formed `#rrggbb` string |
| HexColor.ParseFormatRoundTrip | src/pages/PDFEditor.tsx:343-348 | parsing a colour picked in the input returns exactly the channels picked |
| PdfDraw.TextDraw | src/pages/PDFEditor.tsx:150-165 | the drawText call is on page index pageNumber - 1 and carries the text, size and colour; its anchor read back top-down is the annotation's position |
| PdfDraw.ShapeDraw | src/pages/PDFEditor.tsx:178-196 | a rectangle gives drawRectangle and a circle gives drawEllipse, with border colour the annotation's and width 2; the figure read back top-down fills the annotation's box |
| PdfDraw.TextDrawsMatchKept | src/pages/PDFEditor.tsx:150-165 | the text draws are one drawText per annotation whose page exists, in list order, each against its page's height |
| PdfDraw.ShapeDrawsMatchKept | src/pages/PDFEditor.tsx:168-198 | the shape draws are one call per shape whose page exists, in list order, each against its page's height |
| PdfDraw.TextDrawsSnoc | src/pages/PDFEditor.tsx:150-152 | one more text annotation adds its draw at the end when its page exists, and nothing otherwise |
| PdfDraw.ShapeDrawsSnoc | src/pages/PDFEditor.tsx:168-170 | one more shape adds its draw at the end when its page exists, and nothing otherwise |
| PdfDraw.SaveDraws | src/pages/PDFEditor.tsx:149-198 | one draw per annotation with an existing page; all text draws come before all shape draws |
| PdfDraw.SaveColorsInRange | src/pages/PDFEditor.tsx:158-176 | when every colour is `#RRGGBB`, every draw receives three channels in [0, 255] |
| PdfDraw.SkippedPageChangesNothing | src/pages/PDFEditor.tsx:151-152 | an annotation whose page index does not exist leaves the save output unchanged |
| PdfDraw.SaveOutcomeOf | src/pages/PDFEditor.tsx:138-213 | "no PDF" exactly when there is no file; failure exactly when pdf-lib cannot load it; otherwise the download is named `edited-<name>` and holds the save draws |
| PdfDraw.SaveWithoutAnnotations | src/pages/PDFEditor.tsx:138-213 | a save with no annotations still downloads `edited-<name>`, with no draws |
| PdfEditor.ZoomedIn | src/pages/PDFEditor.tsx:436 | zoom in never exceeds 2 nor adds more than 0.1, stays in range from a value in range, adds exactly 0.1 when that fits, and is exactly 2 otherwise |
| PdfEditor.ZoomedOut | src/pages/PDFEditor.tsx:426 | zoom out never goes below 0.5 nor subtracts more than 0.1, stays in range from a value in range, subtracts exactly 0.1 when that fits, and is exactly 0.5 otherwise |
| PdfEditor.ZoomStaysInRange | src/pages/PDFEditor.tsx:426-436 | any sequence of zoom presses from a scale in [0.5, 2] stays in [0.5, 2] |
| PdfEditor.ZoomOnTenthSteps | src/pages/PDFEditor.tsx:426-436 | in exact arithmetic, from a whole number of tenths in range, every sequence of presses stays on whole tenths between 5 and 20 |
| PdfEditor.ZoomFromInitial | src/pages/PDFEditor.tsx:60 | from the initial 1.0, any sequence of presses keeps the scale in [0.5, 2] |
| PdfEditor.RotationAfter | src/pages/PDFEditor.tsx:61 | the rotation after any number of presses is 0, 90, 180 or 270 |
| PdfEditor.RotationIsQuarter | src/pages/PDFEditor.tsx:444 | (90·k) mod 360 is 90 times (k mod 4) |
| PdfEditor.RotateStep | src/pages/PDFEditor.tsx:444 | one press of `(rotation + 90) % 360` moves the rotation after k presses to the rotation after k + 1 presses |
| PdfEditor.FourRotationsRestore | src/pages/PDFEditor.tsx:444 | four presses restore the rotation |
| PdfEditor.PreviousPage | src/pages/PDFEditor.tsx:456 | the result is at least 1: a page above 1 moves back one, and any page at or below 1 (including the reachable page 0) becomes 1 |
| PdfEditor.NextPage | src/pages/PDFEditor.tsx:467 | the result is at most numPages: a page below numPages moves forward one, and any page at or past numPages becomes numPages |
| PdfEditor.NavigationInRange | src/pages/PDFEditor.tsx:456-468 | with at least one page and the current page in range, both buttons keep the page in [1, numPages] |
| PdfEditor.EnabledButtonMovesOnePage | src/pages/PDFEditor.tsx:456-468 | with the current page in [1, numPages], an enabled Previous or Next button moves exactly one page |
| PdfEditor.NavigationInverse | src/pages/PDFEditor.tsx:456-468 | Next then Previous, or Previous then Next, returns to the page when neither press was clamped |
| PdfEditor.NextBeforePagesAreCounted | src/pages/PDFEditor.tsx:467-468 | before the page count arrives (numPages = 0) Next is enabled and moves page 1 to page 0 |
| PdfEditor.ScreenToPage | src/pages/PDFEditor.tsx:97-99 | the stored coordinate times the scale is the click's offset from the measured bounding rectangle's left (or top) edge |
| PdfEditor.ClickedShapeOverlay | src/pages/PDFEditor.tsx:98-99 | a shape added by a click is drawn by the overlay with its corner at the click's offset from the measured rectangle, at any zoom and at view rotation 0 |
| PdfEditor.TextDeletion | src/pages/PDFEditor.tsx:130-131 | an entry survives deletion exactly when it was there with another id; survivors keep their order |
| PdfEditor.ShapeDeletion | src/pages/PDFEditor.tsx:132-133 | a shape survives deletion exactly when it was there with another id; survivors keep their order |
| PdfEditor.AddThenDeleteText | src/pages/PDFEditor.tsx:129-134 | deleting a text annotation just added under a fresh id restores the list |
| PdfEditor.AddThenDeleteShape | src/pages/PDFEditor.tsx:129-134 | deleting a shape just added under a fresh id restores the list |
| PdfEditor.Editor.constructor | src/pages/PDFEditor.tsx:56-70 | no file, 0 pages, page 1, scale 1, rotation 0, select tool, no annotations, "Sample Text", size 16, black text, red shapes; the editor invariant holds, so both colours are `#RRGGBB` |
| PdfEditor.Editor.UploadFile | src/pages/PDFEditor.tsx:82-92 | the file is accepted exactly when it is present with type application/pdf; otherwise the previous file stays |
| PdfEditor.Editor.DocumentLoaded | src/pages/PDFEditor.tsx:215-217 | the page count is the one the viewer reports |
| PdfEditor.Editor.SetActiveTool | src/pages/PDFEditor.tsx:268-292 | the chosen tool becomes active |
| PdfEditor.Editor.SetNewText | src/pages/PDFEditor.tsx:309 | the text field's value becomes the text for new annotations |
| PdfEditor.Editor.SetFontSize | src/pages/PDFEditor.tsx:318 | the slider's value becomes the font size for new annotations |
| PdfEditor.Editor.SetTextColor | src/pages/PDFEditor.tsx:326-331 | the colour input's `#RRGGBB` value becomes the text colour, and every colour the editor holds stays `#RRGGBB` |
| PdfEditor.Editor.SetShapeColor | src/pages/PDFEditor.tsx:343-348 | the colour input's `#RRGGBB` value becomes the shape colour, and every colour the editor holds stays `#RRGGBB` |
| PdfEditor.Editor.PageClick | src/pages/PDFEditor.tsx:94-127 | select changes nothing; text appends one annotation with the current text, size, colour and page at the scaled click position; rectangle or circle appends one 100×60 shape of that kind; the other list is unchanged; the editor invariant is kept |
| PdfEditor.Editor.DeleteAnnotation | src/pages/PDFEditor.tsx:129-136 | the named list loses exactly the entries with that id; the other list is untouched; every remaining colour is still `#RRGGBB` |
| PdfEditor.Editor.ZoomOut | src/pages/PDFEditor.tsx:426 | the scale becomes max(0.5, scale − 0.1) and stays in [0.5, 2] |
| PdfEditor.Editor.ZoomIn | src/pages/PDFEditor.tsx:436 | the scale becomes min(2, scale + 0.1) and stays in [0.5, 2] |
| PdfEditor.Editor.Rotate | src/pages/PDFEditor.tsx:444 | the rotation becomes (rotation + 90) mod 360 and stays (90·presses) mod 360 |
| PdfEditor.Editor.GoToPreviousPage | src/pages/PDFEditor.tsx:456 | the page becomes max(1, page − 1) |
| PdfEditor.Editor.GoToNextPage | src/pages/PDFEditor.tsx:467 | the page becomes min(numPages, page + 1) |
| PdfEditor.Editor.SavePdf | src/pages/PDFEditor.tsx:138-213 | the two forEach loops produce exactly the outcome `SaveOutcomeOf` specifies for the current file and annotations, and every colour they hand to pdf-lib parses to three channels in [0, 255] |
| DownloadHistory.StoredOrEmpty | src/components/DownloadHistory.tsx:73-74 | a missing stored value reads as the empty list |
| DownloadHistory.Prepended | src/components/DownloadHistory.tsx:83 | the new list puts the new item first, then the previous items in order, and has min(old length + 1, 10) entries |
| DownloadHistory.AddAllKeepsNewest | src/components/DownloadHistory.tsx:72-85 | after any series of additions the list is the ten newest of all items, newest first |
| DownloadHistory.AddAllBounded | src/components/DownloadHistory.tsx:83 | the list never holds more than ten entries |
| DownloadHistory.History.constructor | src/components/DownloadHistory.tsx:15 | the card starts with an empty displayed list over whatever storage holds |
| DownloadHistory.History.Load | src/components/DownloadHistory.tsx:17-22 | on mount the card shows the stored list, or keeps its empty list when nothing is stored |
| DownloadHistory.History.Add | src/components/DownloadHistory.tsx:72-85 | storage becomes the prepend-and-cap of the stored list (empty when missing) with an item carrying the given name and type |
| DownloadHistory.History.Clear | src/components/DownloadHistory.tsx:24-27 | both the stored and the displayed history are empty |
| DownloadHistory.History.Rendered | src/components/DownloadHistory.tsx:29 | the card renders nothing exactly when its list is empty, and otherwise shows the list |
| Converter.DefaultFormat | src/pages/Index.tsx:31-37 | each category's default format is the first of that category's offered formats |
| Converter.AcceptedTypes | src/pages/Index.tsx:16-25 | each category's accepted-types entry has exactly that category's MIME patterns as keys |
| Converter.AcceptedExtensionsWellFormed | src/pages/Index.tsx:16-25 | every pattern lists at least one extension, each a dot followed by a name |
| Converter.ConverterPage.constructor | src/pages/Index.tsx:10-13 | category image, no file, output PNG (the image default), not converting |
| Converter.ConverterPage.CategoryChange | src/pages/Index.tsx:27-38 | the category is set, the file cleared, the output format becomes that category's default, and convert is no longer offered |
| Converter.ConverterPage.FileSelect | src/pages/Index.tsx:40-42 | the file becomes the selected one, and convert is enabled exactly when no conversion is running |
| Converter.ConverterPage.FormatChange | src/pages/Index.tsx:118-122 | the picked format becomes the output format |
| Converter.ConverterPage.UploaderAcceptedTypes | src/pages/Index.tsx:110-113 | the uploader receives exactly the current category's MIME patterns |
| Converter.ConverterPage.BeginConvert | src/pages/Index.tsx:45-54 | the handler goes on exactly when a file is selected; then the flag is raised and the convert button disabled, otherwise the flag is unchanged |
| Converter.ConverterPage.FinishConvert | src/pages/Index.tsx:56-73 | entered with the flag raised, it lowers the flag whether or not the wait threw, and the notice is success with the output format or failure |
| Converter.ConverterPage.Convert | src/pages/Index.tsx:44-74 | no file gives the no-file notice and changes nothing; with a file the flag is raised before the wait (asserted there) and cleared afterwards, and the notice is success with the output format or failure |
| PageManager.Rows | src/components/PDFPageManager.tsx:29-91 | rows are pages 1..numPages in order; highlighted exactly for currentPage; move-up disabled exactly for page 1; move-down disabled exactly for page numPages; rotate never disabled; delete disabled exactly when numPages = 1 |
| PageManager.RowsArePages | src/components/PDFPageManager.tsx:29 | a page has a row exactly when it is in 1..numPages, and row pages strictly increase |
| PageManager.LastPageCannotBeDeleted | src/components/PDFPageManager.tsx:88 | with one page every delete button is disabled; with more, none is |
| PageManager.OneRowHighlighted | src/components/PDFPageManager.tsx:32-36 | at most one row is highlighted, and the current page's row is when it exists |
| PageManager.Dispatch | src/components/PDFPageManager.tsx:37-87 | a row click selects the row's page; move-up fires only `PageMove(page, Up)`, move-down only `PageMove(page, Down)`, rotate only `PageRotate(page)` and delete only `PageDelete(page)`, each exactly when its button is enabled; never page selection |
| PageManager.DispatchOnRows | src/components/PDFPageManager.tsx:42-91 | on the card's rows: move-up fires `PageMove(page, Up)` except on page 1, move-down fires `PageMove(page, Down)` except on the last page, rotate always fires `PageRotate(page)`, and delete fires `PageDelete(page)` unless the document has one page |

## Left out

- JSX rendering, styling, toasts, navigation, icons and scroll areas are
  user interface only. So are the Navbar, CategorySelector, FilePreview,
  FileUploader (react-dropzone) and ImageResizeOptions.
- The per-page overlay filter (`pageNumber === currentPage`) is not
  modelled. The overlay is modelled only by its scaled box (`OverlayBox`).
- React's asynchronous state updates and the interleaving of awaits are not
  modelled. Each handler is one atomic step over the state it reads.
- Floating-point arithmetic is replaced by exact reals. Division by the scale
  and the overlay's multiplication are exact here. No claim is made about
  rounding drift of repeated zoom steps in IEEE doubles.
- pdf-lib and react-pdf are foreign libraries and are not modelled:
  - Loading and saving a document are reduced to "load failed" or "the page
    heights".
  - Draw calls are recorded as commands, not rendered.
  - The division by 255 and the range check inside `rgb()` are omitted. A
    command keeps the colour string, and `DrawColor` gives the channels
    before the division.
- PdfEditor.ClickedShapeOverlay: the 2-pixel border of the clickable
  container (`border-2`, src/pages/PDFEditor.tsx:481-482) is not modelled.
  The click is measured from the container's border box, but the overlays
  are positioned from its padding edge (lines 506-510 and 525-530). On
  screen the corner therefore sits 2 pixels right of and below the pointer.
- PdfEditor.ClickedShapeOverlay holds only at view rotation 0. The page is
  drawn rotated (line 494), but the click handler, the overlay and the save
  all ignore the rotation, and so does the model.
- PageManager.Dispatch assumes that a disabled button swallows the click and
  fires nothing. The shared Button component is not part of this model. If
  it disables pointer events, the click would instead reach the row and
  select the row's page.
- PageManager.DispatchOnRows rests on the same assumption about disabled
  buttons as `Dispatch`.
- PdfEditor.Editor.SetTextColor and PdfEditor.Editor.SetShapeColor require a
  `#RRGGBB` value. A `type="color"` input supplies nothing else, and the
  Input component that wraps it is not part of this model.
- PdfDraw.SaveOutcomeOf: a drawText/drawRectangle/drawEllipse or save call
  that throws partway is not modelled. Once the document loads, the save
  always succeeds.
- Blob creation, object URLs and the anchor-click download are browser I/O.
  Only the `edited-<name>` download name is kept.
- localStorage and JSON are modelled as one `Option` field. A stored empty
  string, which `if (stored)` also treats as missing, is not distinguished.
  Malformed JSON is not modelled.
- `Date.now()` ids, ISO dates, the mouse position, the bounding rectangle
  and the outcome of the conversion wait are inputs.
- The 2-second timer in the convert handler is the point between
  `BeginConvert` and `FinishConvert`. Nothing else runs during it, and
  whether it threw is the `waitFails` input.
- HexColor.ParseInt16 covers parseInt's base-16 path:
  - leading ECMAScript whitespace;
  - an optional sign;
  - an optional `0x`/`0X` prefix;
  - the longest hexadecimal prefix, with no digits giving NaN (`None`).
  Any other radix is not needed.
- PdfEditor.Editor.SetFontSize does not restrict the size to the slider's
  range 8-72. The handler itself accepts any value.
- The page manager's callbacks are not connected to any handler in the code,
  so page rotation, deletion and moves have no effect to model.
- FormatSelector's table has five more keys (compress, merge, split,
  watermark, background-removal). No FileCategory value reaches them, so
  they are left out.
- Uploading a second PDF keeps the current page and the annotations of the
  first. The model reproduces this but proves nothing further about it.
