/** Concrete runs of the query builder, the quality filter and the controller. */
module Scenarios {
  import opened Wrappers
  import opened Text
  import opened Query
  import opened Quality
  import opened Feed

  /** The shorts feed for Education with an empty query asks for the newest
      shorts, starting with the marker and naming the category and the
      educational keywords. */
  lemma EducationFeedRequest()
    ensures "#shorts" <= ContentRequest("", Some(Education), English).q
    ensures Contains(ContentRequest("", Some(Education), English).q, "education")
    ensures Contains(ContentRequest("", Some(Education), English).q, "educational learn tutorial")
    ensures ContentRequest("", Some(Education), English).order == Some(Date)
    ensures ContentRequest("", Some(Education), English).videoCategoryId == Some("27")
  {
    assert Lower(Education.name) == "education";
    ContentSearchTermsMarker("", Some(Education));
    ContentSearchTermsCategory("", Some(Education));
  }

  /** A searched query comes first, before the marker, and switches the order to
      relevance. */
  lemma NewsSearchRequest()
    ensures "cats" + " " + ShortsMarker <= ContentRequest("cats", Some(News), English).q
    ensures Contains(ContentRequest("cats", Some(News), English).q, "news")
    ensures ContentRequest("cats", Some(News), English).order == Some(Relevance)
  {
    assert Lower(News.name) == "news";
    ContentSearchTermsMarker("cats", Some(News));
    ContentSearchTermsCategory("cats", Some(News));
  }

  lemma LowerPromotional()
    ensures Lower("Buy this NOW!!! $99 deal") == "buy this now!!! $99 deal"
  {
  }

  /** "Buy this NOW!!! $99 deal" is promotional: neither search keeps it, whatever
      its description and the category. */
  lemma PromotionalTitleRejected(item: Item, selected: Option<Category>)
    requires item.title == "Buy this NOW!!! $99 deal"
    ensures !ContentAccepts(item, selected) && !ChannelAccepts(item, selected)
  {
    var title := Lower(item.title);
    LowerPromotional();
    assert RunAt(title, '!', 3, 12);
    ContentRejectsSpam(item, selected);
    ContentSpamIsChannelSpam(title);
    ChannelRejectsSpam(item, selected);
  }

  /** Facts about the lower-cased title "quick math tutorial #shorts". */
  lemma TutorialTitle(title: string)
    requires title == "quick math tutorial #shorts"
    ensures Contains(title, ShortsMarker)
    ensures !ContentSpam(title) && !ChannelSpam(title)
    ensures Contains(title, "tutorial")
  {
    assert OccursAt(title, ShortsMarker, 20);
    assert OccursAt(title, "tutorial", 11);
    MissingCharNotContained(title, "follow", 'f');
    MissingCharNotContained(title, "follow me", 'f');
    MissingCharNoRun(title, '!', 2);
    MissingCharNoRun(title, '!', 3);
    NoDollarSignNoAmount(title);
  }

  lemma LowerTutorial()
    ensures Lower("Quick Math Tutorial #shorts") == "quick math tutorial #shorts"
  {
  }

  /** "Quick Math Tutorial #shorts" is kept by both searches under Education. */
  lemma TutorialKeptUnderEducation(item: Item)
    requires item.title == "Quick Math Tutorial #shorts"
    ensures ContentAccepts(item, Some(Education)) && ChannelAccepts(item, Some(Education))
  {
    LowerTutorial();
    TutorialTitle(Lower(item.title));
  }

  /** Facts about the lower-cased title "tutorial: save $5 #shorts". */
  lemma PricedTutorialTitle(title: string)
    requires title == "tutorial: save $5 #shorts"
    ensures Contains(title, ShortsMarker)
    ensures !ContentSpam(title) && ChannelSpam(title)
  {
    assert OccursAt(title, ShortsMarker, 18);
    assert OccursAt(title, "tutorial", 0);
    assert title[15] == '$' && IsDigit(title[16]);
    MissingCharNotContained(title, "follow me", 'f');
    MissingCharNoRun(title, '!', 3);
  }

  lemma LowerPricedTutorial()
    ensures Lower("Tutorial: save $5 #shorts") == "tutorial: save $5 #shorts"
  {
  }

  /** A price in a tutorial's title is fine for the content search but not for
      the stricter channel search, which rejects every dollar amount, whatever
      the category. */
  lemma PricedTutorialSplitsTheSearches(item: Item, selected: Option<Category>)
    requires item.title == "Tutorial: save $5 #shorts"
    ensures ContentAccepts(item, selected) && !ChannelAccepts(item, selected)
  {
    LowerPricedTutorial();
    PricedTutorialTitle(Lower(item.title));
    assert OccursAt(Lower(item.title), "tutorial", 0);
  }

  /** A channel lookup without results empties the list and issues no second
      request; the viewability events [3, 4] and then [] leave the cursor on 3. */
  method ChannelNotFoundThenScroll() returns (shortsRequest: Option<Request>, shown: seq<Item>, cursor: nat)
    ensures shortsRequest == None && shown == [] && cursor == 3
  {
    var feed := new ShortsFeed();
    var lookupRequest;
    lookupRequest, shortsRequest := feed.SearchChannels("nobody", Items([]), NoItems);
    feed.OnViewableItemsChanged([3, 4]);
    feed.OnViewableItemsChanged([]);
    shown, cursor := feed.shorts, feed.currentIndex;
  }
}
