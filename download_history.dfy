/** The recent-downloads log: a most-recent-first list of at most ten items
    kept under one storage key, and the card that shows it. The storage key
    is a single field: None when nothing is stored. */
module DownloadHistory {
  import opened Common

  datatype HistoryItem = HistoryItem(id: string, fileName: string, date: string, fileType: string)

  /** How many entries the log keeps. */
  const MaxEntries: nat := 10

  /** A missing stored value reads as the empty list. */
  function StoredOrEmpty(stored: Option<seq<HistoryItem>>): (h: seq<HistoryItem>)
    ensures stored.None? ==> h == []
    ensures stored.Some? ==> h == stored.value
  {
    match stored
    case None => []
    case Some(items) => items
  }

  /** [newItem, ...history].slice(0, 10): the new item first, then the
      previous items newest first, the oldest ones dropped past ten. */
  function Prepended(history: seq<HistoryItem>, item: HistoryItem): (r: seq<HistoryItem>)
    ensures |r| == Min(|history| + 1, MaxEntries)
    ensures r[0] == item
    ensures r[1..] == history[..Min(|history|, MaxEntries - 1)]
  {
    var all := [item] + history;
    assert all[1..] == history;
    all[..Min(|all|, MaxEntries)]
  }

  function Reverse<T>(xs: seq<T>): (r: seq<T>)
    ensures |r| == |xs|
  {
    if xs == [] then [] else Reverse(xs[1..]) + [xs[0]]
  }

  /** The log after adding each of `items` in turn. */
  function AddAll(history: seq<HistoryItem>, items: seq<HistoryItem>): seq<HistoryItem>
    decreases |items|
  {
    if items == [] then history else AddAll(Prepended(history, items[0]), items[1..])
  }

  /** After a series of additions the log holds the newest ten of all the items
      ever added or already there, newest first. */
  lemma {:induction false} AddAllKeepsNewest(history: seq<HistoryItem>, items: seq<HistoryItem>)
    requires |history| <= MaxEntries
    ensures var all := Reverse(items) + history;
            AddAll(history, items) == all[..Min(|all|, MaxEntries)]
    decreases |items|
  {
    if items != [] {
      var x, rest := items[0], items[1..];
      var h1 := Prepended(history, x);
      AddAllKeepsNewest(h1, rest);
      // Reverse(items) == Reverse(rest) + [x]
      assert Reverse(items) == Reverse(rest) + [x];
      var all := Reverse(items) + history;
      var all1 := Reverse(rest) + h1;
      var n := Min(|all|, MaxEntries);
      var n1 := Min(|all1|, MaxEntries);
      assert n1 == n;
      forall i | 0 <= i < n ensures all1[i] == all[i] {
        var r := |Reverse(rest)|;
        if i < r {
        } else if i == r {
          assert all1[i] == h1[0] == x;
        } else {
          assert all1[i] == h1[i - r] == h1[1..][i - r - 1];
        }
      }
      assert all1[..n1] == all[..n];
    }
  }

  /** However many items are added, the log never exceeds ten entries. */
  lemma AddAllBounded(history: seq<HistoryItem>, items: seq<HistoryItem>)
    requires |history| <= MaxEntries
    ensures |AddAll(history, items)| <= MaxEntries
  {
    AddAllKeepsNewest(history, items);
  }

  /** The storage key and the list the card shows. addToDownloadHistory
      writes only the storage; the card copies the storage once, on mount. */
  class History {
    var stored: Option<seq<HistoryItem>>
    var displayed: seq<HistoryItem>

    /** The card mounts over whatever the storage already holds. */
    constructor (initial: Option<seq<HistoryItem>>)
      ensures stored == initial && displayed == []
    {
      stored := initial;
      displayed := [];
    }

    /** The mount effect: show the stored list, or keep the empty one. */
    method Load()
      modifies this`displayed
      ensures displayed == if stored.Some? then stored.value else old(displayed)
    {
      if stored.Some? {
        displayed := stored.value;
      }
    }

    /** addToDownloadHistory(fileName, type); `id` and `date` stand for
        Date.now() and the ISO timestamp. */
    method Add(fileName: string, fileType: string, id: string, date: string)
      modifies this`stored
      ensures stored == Some(Prepended(StoredOrEmpty(old(stored)), HistoryItem(id, fileName, date, fileType)))
      ensures |stored.value| <= MaxEntries
      ensures stored.value[0].fileName == fileName && stored.value[0].fileType == fileType
    {
      stored := Some(Prepended(StoredOrEmpty(stored), HistoryItem(id, fileName, date, fileType)));
    }

    /** The Clear button: the key is removed and the card emptied. */
    method Clear()
      modifies this
      ensures stored == None && displayed == []
    {
      stored := None;
      displayed := [];
    }

    /** The card shows its list, or renders nothing when the list is empty. */
    function Rendered(): (r: Option<seq<HistoryItem>>)
      reads this
      ensures r.None? <==> displayed == []
      ensures r.Some? ==> r.value == displayed
    {
      if |displayed| == 0 then None else Some(displayed)
    }
  }
}
