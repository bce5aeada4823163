/** The quality filter of the shorts screen: the two acceptance predicates that
    `Array.filter` applies to the items of a video search (content search and
    channel search), and the stable filter itself. */
module Quality {
  import opened Wrappers
  import opened Text
  import opened Query
  import opened Subsequence

  /** One search result: `id.videoId`, `id.channelId` and the `snippet` fields the
      screen reads. */
  datatype Item = Item(videoId: string, channelId: string, title: string, description: string, channelTitle: string)

  /** The shorts marker appears in the lower-cased title or description. */
  predicate IsShort(item: Item) {
    Contains(Lower(item.title), ShortsMarker) || Contains(Lower(item.description), ShortsMarker)
  }

  // ---------------------------------------------------------------------------
  // Content search (lines 98-141)
  // ---------------------------------------------------------------------------

  /** The promotional-title test of the content search, on the lower-cased title. */
  predicate ContentSpam(title: string) {
    (Contains(title, "follow me") && Contains(title, "like"))
    || HasRun(title, '!', 3)
    || (HasDollarAmount(title) && !Contains(title, "tutorial"))
  }

  /** The educational-content test of the content search, on the lower-cased texts. */
  predicate ContentEducational(title: string, description: string) {
    Contains(title, "learn") || Contains(title, "how to") || Contains(title, "tutorial")
    || Contains(title, "tips") || Contains(title, "guide")
    || Contains(description, "learn") || Contains(description, "tutorial")
    || Contains(description, "education") || Contains(description, "how to")
  }

  predicate ContentAccepts(item: Item, selected: Option<Category>) {
    if !IsShort(item) then false
    else
      var title, description := Lower(item.title), Lower(item.description);
      if ContentSpam(title) then false
      else if IsEducation(selected) then ContentEducational(title, description)
      else true
  }

  // ---------------------------------------------------------------------------
  // Channel search (lines 218-258)
  // ---------------------------------------------------------------------------

  /** The promotional-title test of the channel search, on the lower-cased title. */
  predicate ChannelSpam(title: string) {
    (Contains(title, "follow") && Contains(title, "like"))
    || HasRun(title, '!', 2)
    || HasDollarAmount(title)
  }

  /** The educational-content test of the channel search, on the lower-cased texts. */
  predicate ChannelEducational(title: string, description: string) {
    Contains(title, "learn") || Contains(title, "how to") || Contains(title, "tutorial")
    || Contains(title, "tips")
    || Contains(description, "learn") || Contains(description, "tutorial")
    || Contains(description, "education")
  }

  predicate ChannelAccepts(item: Item, selected: Option<Category>) {
    if !IsShort(item) then false
    else
      var title, description := Lower(item.title), Lower(item.description);
      if ChannelSpam(title) then false
      else if IsEducation(selected) then ChannelEducational(title, description)
      else true
  }

  // ---------------------------------------------------------------------------
  // The stable filter
  // ---------------------------------------------------------------------------

  /** Which of the two searches produced the items. */
  datatype Search = ByContent | ByChannel

  predicate Accepts(search: Search, item: Item, selected: Option<Category>) {
    match search
    case ByContent => ContentAccepts(item, selected)
    case ByChannel => ChannelAccepts(item, selected)
  }

  /** `items.filter(item => ...)` with the predicate of `search`. */
  function Keep(search: Search, items: seq<Item>, selected: Option<Category>): (r: seq<Item>)
    ensures |r| <= |items|
    ensures forall x :: x in r ==> x in items && Accepts(search, x, selected)
  {
    if items == [] then []
    else if Accepts(search, items[0], selected) then [items[0]] + Keep(search, items[1..], selected)
    else Keep(search, items[1..], selected)
  }

  /** The filter keeps exactly the accepted items, each as often as it occurs in
      the input, and drops every other one. */
  lemma {:induction false} KeepCounts(search: Search, items: seq<Item>, selected: Option<Category>, x: Item)
    ensures multiset(Keep(search, items, selected))[x]
         == if Accepts(search, x, selected) then multiset(items)[x] else 0
  {
    if items != [] {
      assert items == [items[0]] + items[1..];
      KeepCounts(search, items[1..], selected, x);
    }
  }

  /** The filter keeps the order of the input. */
  lemma {:induction false} KeepIsSubsequence(search: Search, items: seq<Item>, selected: Option<Category>)
    ensures IsSubsequence(Keep(search, items, selected), items)
  {
    if items != [] {
      var rest := Keep(search, items[1..], selected);
      KeepIsSubsequence(search, items[1..], selected);
      if Accepts(search, items[0], selected) {
        assert ([items[0]] + rest)[1..] == rest;
      } else {
        assert items == [items[0]] + items[1..];
        SubsequenceCons(rest, items[1..], items[0]);
      }
    }
  }

  /** Filtering the filtered list again changes nothing. */
  lemma {:induction false} KeepIdempotent(search: Search, items: seq<Item>, selected: Option<Category>)
    ensures Keep(search, Keep(search, items, selected), selected) == Keep(search, items, selected)
  {
    if items != [] {
      KeepIdempotent(search, items[1..], selected);
      var rest := Keep(search, items[1..], selected);
      if Accepts(search, items[0], selected) {
        assert ([items[0]] + rest)[1..] == rest;
      }
    }
  }

  // ---------------------------------------------------------------------------
  // Properties of the predicates
  // ---------------------------------------------------------------------------

  /** Whatever either search keeps carries the shorts marker. */
  lemma KeptAreShorts(search: Search, items: seq<Item>, selected: Option<Category>, x: Item)
    requires x in Keep(search, items, selected)
    ensures Contains(Lower(x.title), ShortsMarker) || Contains(Lower(x.description), ShortsMarker)
  {
  }

  /** The content search rejects a promotional title, whatever the category. */
  lemma ContentRejectsSpam(item: Item, selected: Option<Category>)
    requires
      var title := Lower(item.title);
      (Contains(title, "follow me") && Contains(title, "like"))
      || HasRun(title, '!', 3)
      || (HasDollarAmount(title) && !Contains(title, "tutorial"))
    ensures !ContentAccepts(item, selected)
  {
  }

  /** The channel search rejects a promotional title, whatever the category. */
  lemma ChannelRejectsSpam(item: Item, selected: Option<Category>)
    requires
      var title := Lower(item.title);
      (Contains(title, "follow") && Contains(title, "like"))
      || HasRun(title, '!', 2)
      || HasDollarAmount(title)
    ensures !ChannelAccepts(item, selected)
  {
  }

  /** Under Education every item the content search keeps has an educational
      keyword in its title or description. */
  lemma ContentEducationRelevance(item: Item, selected: Option<Category>)
    requires IsEducation(selected) && ContentAccepts(item, selected)
    ensures
      var title, description := Lower(item.title), Lower(item.description);
      Contains(title, "learn") || Contains(title, "how to") || Contains(title, "tutorial")
      || Contains(title, "tips") || Contains(title, "guide")
      || Contains(description, "learn") || Contains(description, "tutorial")
      || Contains(description, "education") || Contains(description, "how to")
  {
  }

  /** Outside Education the category plays no part in either search: the verdict
      is the one given with no category selected. */
  lemma OtherCategoriesIgnored(search: Search, item: Item, selected: Option<Category>)
    requires !IsEducation(selected)
    ensures Accepts(search, item, selected) == Accepts(search, item, None)
  {
  }

  /** An item that carries the marker, has no promotional title and, under
      Education, has an educational keyword is kept by the content search. */
  lemma ContentAcceptsClean(item: Item, selected: Option<Category>)
    requires IsShort(item) && !ContentSpam(Lower(item.title))
    requires IsEducation(selected) ==> ContentEducational(Lower(item.title), Lower(item.description))
    ensures ContentAccepts(item, selected)
  {
  }

  /** Each promotional pattern of the content search is caught by the channel
      search as well. */
  lemma ContentSpamIsChannelSpam(title: string)
    requires ContentSpam(title)
    ensures ChannelSpam(title)
  {
    if Contains(title, "follow me") && Contains(title, "like") {
      assert OccursAt("follow me", "follow", 0);
      ContainsTransitive(title, "follow me", "follow");
    } else if HasRun(title, '!', 3) {
      HasRunShorter(title, '!', 3, 2);
    }
  }

  /** The channel search is the stricter one: every item it accepts, the content
      search accepts for the same category. */
  lemma ChannelAcceptsImpliesContentAccepts(item: Item, selected: Option<Category>)
    requires ChannelAccepts(item, selected)
    ensures ContentAccepts(item, selected)
  {
    var title := Lower(item.title);
    if ContentSpam(title) {
      ContentSpamIsChannelSpam(title);
    }
  }

  /** What the channel search keeps from a list is an order-preserving
      subsequence of what the content search keeps from it. */
  lemma {:induction false} ChannelKeepWithinContentKeep(items: seq<Item>, selected: Option<Category>)
    ensures IsSubsequence(Keep(ByChannel, items, selected), Keep(ByContent, items, selected))
  {
    if items != [] {
      var x := items[0];
      var narrow := Keep(ByChannel, items[1..], selected);
      var wide := Keep(ByContent, items[1..], selected);
      ChannelKeepWithinContentKeep(items[1..], selected);
      if ChannelAccepts(x, selected) {
        ChannelAcceptsImpliesContentAccepts(x, selected);
        assert ([x] + narrow)[1..] == narrow && ([x] + wide)[1..] == wide;
      } else if ContentAccepts(x, selected) {
        SubsequenceCons(narrow, wide, x);
      }
    }
  }
}
