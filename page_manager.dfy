/** The page-management card: one row per page with a highlight and four
    buttons whose disabled flags depend only on the row's page and the page
    count. The card holds no state; it reports clicks through callbacks. */
module PageManager {
  import opened Common

  /** One rendered row: its page number, whether it is highlighted, and the
      disabled flags of its move-up, move-down, rotate and delete buttons. */
  datatype PageRow = PageRow(
    page: int,
    highlighted: bool,
    moveUpDisabled: bool,
    moveDownDisabled: bool,
    rotateDisabled: bool,
    deleteDisabled: bool)

  /** The row for `page` given the card's properties. */
  function Row(page: int, numPages: int, currentPage: int): PageRow {
    PageRow(page, currentPage == page, page == 1, page == numPages, false, numPages == 1)
  }

  /** Array.from({ length: numPages }, (_, i) => i + 1).map(...): a length
      below zero yields no rows. */
  function Rows(numPages: int, currentPage: int): (rows: seq<PageRow>)
    ensures |rows| == Max(0, numPages)
    ensures forall i :: 0 <= i < |rows| ==> rows[i].page == i + 1
    ensures forall i :: 0 <= i < |rows| ==>
              && (rows[i].highlighted <==> rows[i].page == currentPage)
              && (rows[i].moveUpDisabled <==> rows[i].page == 1)
              && (rows[i].moveDownDisabled <==> rows[i].page == numPages)
              && !rows[i].rotateDisabled
              && (rows[i].deleteDisabled <==> numPages == 1)
  {
    seq(Max(0, numPages), i => Row(i + 1, numPages, currentPage))
  }

  /** The rows are exactly the pages 1..numPages, ascending, each once. */
  lemma RowsArePages(numPages: int, currentPage: int, page: int)
    ensures (exists i :: 0 <= i < |Rows(numPages, currentPage)| && Rows(numPages, currentPage)[i].page == page)
            <==> 1 <= page <= numPages
    ensures forall i, j :: 0 <= i < j < |Rows(numPages, currentPage)| ==>
              Rows(numPages, currentPage)[i].page < Rows(numPages, currentPage)[j].page
  {
    var rows := Rows(numPages, currentPage);
    if 1 <= page <= numPages {
      assert rows[page - 1].page == page;
    }
  }

  /** With a single page every row's delete button is disabled, so that page
      cannot be deleted; with more pages none is. */
  lemma LastPageCannotBeDeleted(numPages: int, currentPage: int)
    ensures numPages == 1 ==> forall i :: 0 <= i < |Rows(numPages, currentPage)| ==> Rows(numPages, currentPage)[i].deleteDisabled
    ensures numPages != 1 ==> forall i :: 0 <= i < |Rows(numPages, currentPage)| ==> !Rows(numPages, currentPage)[i].deleteDisabled
  {
  }

  /** At most one row is highlighted, and exactly one when the current page
      is a page of the document. */
  lemma OneRowHighlighted(numPages: int, currentPage: int)
    ensures forall i, j ::
              (0 <= i < |Rows(numPages, currentPage)| && 0 <= j < |Rows(numPages, currentPage)|
               && Rows(numPages, currentPage)[i].highlighted && Rows(numPages, currentPage)[j].highlighted)
              ==> i == j
    ensures 1 <= currentPage <= numPages ==> Rows(numPages, currentPage)[currentPage - 1].highlighted
  {
  }

  /** Where a click on a row lands. */
  datatype RowClick = RowBody | MoveUpButton | MoveDownButton | RotateButton | DeleteButton

  datatype Direction = Up | Down

  /** The callbacks the card reports through. */
  datatype Callback =
    | PageSelect(page: int)
    | PageMove(page: int, direction: Direction)
    | PageRotate(page: int)
    | PageDelete(page: int)

  /** The callbacks one click fires. An enabled button stops propagation, so
      only its own callback fires; a click on the row itself selects the
      row's page. A disabled button is taken to swallow the click and fire
      nothing; the shared Button component that decides this is not part of
      this model. */
  function Dispatch(row: PageRow, click: RowClick): (fired: seq<Callback>)
    ensures |fired| <= 1
    ensures click == RowBody ==> fired == [PageSelect(row.page)]
    ensures click != RowBody ==> forall k :: 0 <= k < |fired| ==> !fired[k].PageSelect?
    ensures forall k :: 0 <= k < |fired| ==> fired[k].page == row.page
    ensures click == MoveUpButton ==>
              (fired == [] <==> row.moveUpDisabled) && forall k :: 0 <= k < |fired| ==> fired[k] == PageMove(row.page, Up)
    ensures click == MoveDownButton ==>
              (fired == [] <==> row.moveDownDisabled) && forall k :: 0 <= k < |fired| ==> fired[k] == PageMove(row.page, Down)
    ensures click == RotateButton ==>
              (fired == [] <==> row.rotateDisabled) && forall k :: 0 <= k < |fired| ==> fired[k] == PageRotate(row.page)
    ensures click == DeleteButton ==>
              (fired == [] <==> row.deleteDisabled) && forall k :: 0 <= k < |fired| ==> fired[k] == PageDelete(row.page)
  {
    match click
    case RowBody => [PageSelect(row.page)]
    case MoveUpButton => if row.moveUpDisabled then [] else [PageMove(row.page, Up)]
    case MoveDownButton => if row.moveDownDisabled then [] else [PageMove(row.page, Down)]
    case RotateButton => if row.rotateDisabled then [] else [PageRotate(row.page)]
    case DeleteButton => if row.deleteDisabled then [] else [PageDelete(row.page)]
  }

  /** On the card's rows: page 1 never reports a move up, the last page never
      a move down, rotate always reports its page, and a one-page document
      never reports a delete. */
  lemma DispatchOnRows(numPages: int, currentPage: int, i: int, click: RowClick)
    requires 0 <= i < |Rows(numPages, currentPage)|
    ensures var r := Rows(numPages, currentPage)[i];
            var fired := Dispatch(r, click);
            && (click == MoveUpButton ==> fired == (if r.page == 1 then [] else [PageMove(r.page, Up)]))
            && (click == MoveDownButton ==> fired == (if r.page == numPages then [] else [PageMove(r.page, Down)]))
            && (click == RotateButton ==> fired == [PageRotate(r.page)])
            && (click == DeleteButton ==> fired == (if numPages == 1 then [] else [PageDelete(r.page)]))
  {
  }
}
