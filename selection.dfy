/**
 * The program and preview combo boxes: one entry per switcher input, the
 * input's long name as text and its input id as item data, and a current
 * selection that the panel keeps on the live program or preview input.
 */
module Selection {
  import opened Wrappers

  /** The current selection of a combo box with nothing selected. */
  const CB_ERR: int := -1

  datatype ComboItem = ComboItem(name: string, id: int)

  /** The first index whose item data is `id`, if any. */
  function FirstIndexWithId(items: seq<ComboItem>, id: int): (r: Option<nat>)
    ensures r.Some? ==> r.value < |items| && items[r.value].id == id
    ensures r.Some? ==> forall j :: 0 <= j < r.value ==> items[j].id != id
    ensures r.None? <==> forall j :: 0 <= j < |items| ==> items[j].id != id
    decreases |items|
  {
    if items == [] then None
    else if items[0].id == id then Some(0)
    else match FirstIndexWithId(items[1..], id)
      case None => None
      case Some(k) => Some(k + 1)
  }

  /**
   * The selection the search loop leaves: the first item carrying the live
   * id, or the selection as it was when no item carries it.
   */
  function SelectionAfter(items: seq<ComboItem>, curSel: int, id: int): int {
    match FirstIndexWithId(items, id)
    case Some(k) => k
    case None => curSel
  }

  /** The selection matches the live id whenever some item carries it. */
  lemma SelectionMatchesLiveId(items: seq<ComboItem>, curSel: int, id: int)
    ensures (exists k :: 0 <= k < |items| && items[k].id == id) ==>
              var sel := SelectionAfter(items, curSel, id);
              0 <= sel < |items| && items[sel].id == id && forall j :: 0 <= j < sel ==> items[j].id != id
    ensures (forall k :: 0 <= k < |items| ==> items[k].id != id) ==> SelectionAfter(items, curSel, id) == curSel
  {
  }

  /** Re-running the search for the same id (a coalesced signal) changes nothing. */
  lemma SelectionIdempotent(items: seq<ComboItem>, curSel: int, id: int)
    ensures SelectionAfter(items, SelectionAfter(items, curSel, id), id) == SelectionAfter(items, curSel, id)
  {
  }

  class ComboBox {
    var items: seq<ComboItem>
    var curSel: int

    constructor ()
      ensures items == [] && curSel == CB_ERR
    {
      items := [];
      curSel := CB_ERR;
    }

    method ResetContent()
      modifies this
      ensures items == [] && curSel == CB_ERR
    {
      items := [];
      curSel := CB_ERR;
    }

    /** Appends an entry with item data 0 and returns its index. */
    method AddString(name: string) returns (index: int)
      modifies this
      ensures items == old(items) + [ComboItem(name, 0)] && curSel == old(curSel)
      ensures index == |old(items)|
    {
      index := |items|;
      items := items + [ComboItem(name, 0)];
    }

    method SetItemData(index: int, id: int)
      requires 0 <= index < |items|
      modifies this
      ensures items == old(items)[index := old(items)[index].(id := id)] && curSel == old(curSel)
    {
      items := items[index := items[index].(id := id)];
    }

    method SetCurSel(index: int)
      requires 0 <= index < |items|
      modifies this
      ensures curSel == index && items == old(items)
    {
      curSel := index;
    }
  }
}
