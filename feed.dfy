/**
 * The news feed: a list of items that can be saved for later, and a filter
 * that shows all of them ("todos") or only the saved ones ("saved").
 */
module Feed {
  import opened Basics
  import opened Text

  datatype FeedItem = FeedItem(
    id: String, title: String, description: String, content: String, image: String,
    source: String, category: String, timestamp: String, likes: int, saved: bool, hasAISummary: bool)

  const All: String := "todos"
  const SavedOnly: String := "saved"

  function HasId(id: String): FeedItem -> bool
  {
    (item: FeedItem) => item.id == id
  }

  function FlipSaved(): FeedItem -> FeedItem
  {
    (item: FeedItem) => item.(saved := !item.saved)
  }

  /**
   * `toggleSave`'s new list: every item with the id has its `saved` flag
   * flipped; the list keeps its length and order, and nothing else changes.
   */
  function SaveToggled(items: seq<FeedItem>, id: String): (r: seq<FeedItem>)
    ensures |r| == |items|
    ensures forall i :: 0 <= i < |items| ==> r[i].saved == (items[i].saved != (items[i].id == id))
    ensures forall i :: 0 <= i < |items| ==> r[i].(saved := items[i].saved) == items[i]
  {
    MapIf(items, HasId(id), FlipSaved())
  }

  /** Saving and unsaving the same item gives back the list it started from. */
  lemma SaveToggledTwice(items: seq<FeedItem>, id: String)
    ensures SaveToggled(SaveToggled(items, id), id) == items
  {
    var twice := SaveToggled(SaveToggled(items, id), id);
    forall i | 0 <= i < |items| ensures twice[i] == items[i] {
      assert twice[i].saved == items[i].saved;
    }
  }

  function Shown(filter: String): FeedItem -> bool
  {
    (item: FeedItem) => filter == All || (filter == SavedOnly && item.saved)
  }

  /** `filteredItems`. */
  function FilteredItems(items: seq<FeedItem>, filter: String): (r: seq<FeedItem>)
    ensures |r| <= |items|
  {
    Filter(items, Shown(filter))
  }

  /**
   * "todos" shows every item, in order; "saved" shows the saved items and
   * only them; any other filter value shows nothing.
   */
  lemma FilteredItemsCases(items: seq<FeedItem>, filter: String)
    ensures filter == All ==> FilteredItems(items, filter) == items
    ensures filter == SavedOnly ==>
      forall item :: item in FilteredItems(items, filter) <==> item in items && item.saved
    ensures filter != All && filter != SavedOnly ==> FilteredItems(items, filter) == []
  {
    if filter == All {
      FilterKeepsAll(items, Shown(filter));
    } else if filter == SavedOnly {
      FilterMembers(items, Shown(filter));
    } else {
      FilterKeepsNone(items, Shown(filter));
    }
  }

  /** With unique ids, toggling an item in the "saved" view adds it there when it was unsaved and drops it when it was saved. */
  lemma ToggleInSavedView(items: seq<FeedItem>, k: nat)
    requires k < |items|
    requires forall i, j :: 0 <= i < j < |items| ==> items[i].id != items[j].id
    ensures var after := SaveToggled(items, items[k].id);
      (after[k] in FilteredItems(after, SavedOnly) <==> !items[k].saved)
      && (forall i :: 0 <= i < |items| && i != k ==>
            (after[i] in FilteredItems(after, SavedOnly) <==> items[i] in FilteredItems(items, SavedOnly)))
  {
    var after := SaveToggled(items, items[k].id);
    FilterMembers(after, Shown(SavedOnly));
    FilterMembers(items, Shown(SavedOnly));
    forall i | 0 <= i < |items| && i != k
      ensures after[i] in FilteredItems(after, SavedOnly) <==> items[i] in FilteredItems(items, SavedOnly)
    {
      assert after[i] == items[i];
    }
  }

  class Page {
    var items: seq<FeedItem>
    var filter: String

    /** The page starts from the given items with every item shown. */
    constructor (initial: seq<FeedItem>)
      ensures items == initial && filter == All
    {
      items := initial;
      filter := All;
    }

    /** `toggleSave`. */
    method ToggleSave(id: String)
      modifies this
      ensures items == SaveToggled(old(items), id) && filter == old(filter)
    {
      items := MapIf(items, HasId(id), FlipSaved());
    }

    /** The filter buttons. */
    method SetFilter(f: String)
      modifies this
      ensures filter == f && items == old(items)
    {
      filter := f;
    }

    /** What the list renders. */
    function Visible(): seq<FeedItem>
      reads this
    {
      FilteredItems(items, filter)
    }
  }
}
