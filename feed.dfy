/** The state of the shorts screen: the shown list, the focus cursor, the chip
    selections and the last error, held by one controller object whose methods
    are the screen's state changes. A network call is replaced by its response,
    given as a parameter. */
module Feed {
  import opened Wrappers
  import opened Query
  import opened Quality

  /** What a search call gave back: a thrown error (transport failure or a
      non-success status, with its message), a response without `items`, or
      the items. */
  datatype Response<T> = Failed(message: string) | NoItems | Items(items: seq<T>)

  /** An item of a channel search: only `id.channelId` is read. */
  datatype ChannelHit = ChannelHit(channelId: string)

  /** The error recorded by `setError`: the message of a failed request, or the
      error the runtime throws when a content response has no `items` list
      (`response.data.items.slice(...)` on line 94 runs before the check on
      line 96). */
  datatype FetchError = RequestFailed(message: string) | ItemsMissing

  /** The cursor after a viewability event (lines 423-427): the index of the
      first viewable item, or the old cursor when nothing is viewable. */
  function NextCursor(cursor: nat, viewable: seq<nat>): (r: nat)
    ensures |viewable| > 0 ==> r == viewable[0]
    ensures |viewable| == 0 ==> r == cursor
  {
    if |viewable| > 0 then viewable[0] else cursor
  }

  /** Repeating a viewability event changes nothing more, and a non-empty event
      makes the earlier cursor irrelevant. */
  lemma NextCursorSettles(cursor: nat, other: nat, viewable: seq<nat>)
    ensures NextCursor(NextCursor(cursor, viewable), viewable) == NextCursor(cursor, viewable)
    ensures |viewable| > 0 ==> NextCursor(cursor, viewable) == NextCursor(other, viewable)
  {
  }

  /** The category selection after tapping `chip` (line 369): tapping the
      selected chip clears the selection, tapping any other selects it. */
  function Toggled(selected: Option<Category>, chip: Category): (r: Option<Category>)
    ensures r == None <==> selected.Some? && selected.value.id == chip.id
    ensures r != None ==> r == Some(chip)
  {
    if selected.Some? && selected.value.id == chip.id then None else Some(chip)
  }

  /** Two taps on one chip leave it unselected when it was not selected before
      them and selected when it was. */
  lemma ToggleTwice(selected: Option<Category>, chip: Category)
    ensures Toggled(Toggled(selected, chip), chip)
         == if selected.Some? && selected.value.id == chip.id then Some(chip) else None
  {
  }

  class ShortsFeed {
    var shorts: seq<Item>
    var currentIndex: nat
    var selectedCategory: Option<Category>
    var selectedLanguage: Language
    var error: Option<FetchError>

    /** The category the shown list was filtered for: the one selected when its
        search was started. */
    ghost var filteredFor: Option<Category>

    /** Every shown item passes the content filter for the category it was
        filtered for; a channel search keeps no item the content filter would
        drop, so the invariant covers the lists of both searches. The selected
        chips are among the ones the screen offers. */
    ghost predicate Valid()
      reads this
    {
      && (forall x :: x in shorts ==> ContentAccepts(x, filteredFor))
      && (selectedCategory.None? || selectedCategory.value in Categories)
      && selectedLanguage in Languages
    }

    constructor ()
      ensures Valid()
      ensures shorts == [] && currentIndex == 0 && error == None
      ensures selectedCategory == None && selectedLanguage == English
    {
      shorts := [];
      currentIndex := 0;
      selectedCategory := None;
      selectedLanguage := English;
      error := None;
      filteredFor := None;
    }

    /** `fetchShorts(query)` (lines 58-157) with its one response: builds the
        request, then either replaces the shown list by the filtered items or
        records the error and keeps the list. */
    method FetchShorts(query: string, response: Response<Item>) returns (request: Request)
      requires Valid()
      modifies this
      ensures Valid()
      ensures request == ContentRequest(query, old(selectedCategory), old(selectedLanguage))
      ensures selectedCategory == old(selectedCategory) && selectedLanguage == old(selectedLanguage)
      ensures currentIndex == old(currentIndex)
      ensures response.Items? ==>
        shorts == Keep(ByContent, response.items, selectedCategory) && error == None
      ensures response.Items? ==> filteredFor == selectedCategory
      ensures !response.Items? ==> filteredFor == old(filteredFor)
      ensures response.Failed? ==> shorts == old(shorts) && error == Some(RequestFailed(response.message))
      ensures response.NoItems? ==> shorts == old(shorts) && error == Some(ItemsMissing)
    {
      error := None;
      request := ContentRequest(query, selectedCategory, selectedLanguage);
      match response
      case Failed(message) =>
        error := Some(RequestFailed(message));
      case NoItems =>
        error := Some(ItemsMissing);
      case Items(items) =>
        shorts := Keep(ByContent, items, selectedCategory);
        filteredFor := selectedCategory;
    }

    /** `searchChannels(query)` (lines 159-277) with the responses of its two
        steps. The second request is built, and its response read, only when the
        channel lookup found a channel; a lookup with no result empties the list. */
    method SearchChannels(query: string, lookup: Response<ChannelHit>, videos: Response<Item>)
      returns (lookupRequest: Request, shortsRequest: Option<Request>)
      requires Valid()
      modifies this
      ensures Valid()
      ensures lookupRequest == ChannelLookupRequest(query, old(selectedCategory))
      ensures selectedCategory == old(selectedCategory) && selectedLanguage == old(selectedLanguage)
      ensures currentIndex == old(currentIndex)
      ensures lookup.Failed? ==>
        shortsRequest == None && shorts == old(shorts) && error == Some(RequestFailed(lookup.message))
      ensures lookup.NoItems? || lookup == Items([]) ==>
        shortsRequest == None && shorts == [] && error == None
      ensures lookup.Items? && |lookup.items| > 0 ==>
        shortsRequest == Some(ChannelShortsRequest(lookup.items[0].channelId, selectedCategory, selectedLanguage))
      ensures lookup.Items? && |lookup.items| > 0 && videos.Failed? ==>
        shorts == old(shorts) && error == Some(RequestFailed(videos.message))
      ensures lookup.Items? && |lookup.items| > 0 && videos.NoItems? ==>
        shorts == old(shorts) && error == None
      ensures lookup.Items? && |lookup.items| > 0 && videos.Items? ==>
        shorts == Keep(ByChannel, videos.items, selectedCategory) && error == None
      ensures lookup.Items? && |lookup.items| > 0 && videos.Items? ==> filteredFor == selectedCategory
      ensures !(lookup.Items? && |lookup.items| > 0 && videos.Items?) ==> filteredFor == old(filteredFor)
    {
      error := None;
      shortsRequest := None;
      lookupRequest := ChannelLookupRequest(query, selectedCategory);
      if lookup.Failed? {
        error := Some(RequestFailed(lookup.message));
      } else if lookup.Items? && |lookup.items| > 0 {
        var channelId := lookup.items[0].channelId;
        shortsRequest := Some(ChannelShortsRequest(channelId, selectedCategory, selectedLanguage));
        match videos
        case Failed(message) =>
          error := Some(RequestFailed(message));
        case NoItems =>
        case Items(items) =>
          var kept := Keep(ByChannel, items, selectedCategory);
          forall x | x in kept ensures ContentAccepts(x, selectedCategory) {
            ChannelAcceptsImpliesContentAccepts(x, selectedCategory);
          }
          shorts := kept;
          filteredFor := selectedCategory;
      } else {
        shorts := [];
      }
    }

    /** `onViewableItemsChanged` (lines 423-427), given the indices of the
        viewable items in order. */
    method OnViewableItemsChanged(viewable: seq<nat>)
      requires Valid()
      modifies this`currentIndex
      ensures Valid()
      ensures currentIndex == NextCursor(old(currentIndex), viewable)
    {
      if |viewable| > 0 {
        currentIndex := viewable[0];
      }
    }

    /** A tap on one of the offered category chips (line 369). */
    method ToggleCategory(chip: Category)
      requires Valid() && chip in Categories
      modifies this`selectedCategory
      ensures Valid()
      ensures selectedCategory == Toggled(old(selectedCategory), chip)
    {
      selectedCategory := if selectedCategory.Some? && selectedCategory.value.id == chip.id
                          then None else Some(chip);
    }

    /** A tap on one of the offered language chips (line 382). */
    method SelectLanguage(language: Language)
      requires Valid() && language in Languages
      modifies this`selectedLanguage
      ensures Valid()
      ensures selectedLanguage == language
    {
      selectedLanguage := language;
    }
  }
}
