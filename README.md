# Shorts query and quality filter

This project models the shorts screen of a React Native app that browses
YouTube videos. A search is run in one of two ways: by content (a free-text
query) or through a channel lookup. In both cases the screen builds a search
text and request parameters from the query and the selected category and
language. It asks the video-search API for one page of results and keeps
only the items that pass a keyword-based quality filter. The kept items
replace the shown list, and a focus cursor marks the item that plays.

The model has these modules:

- `Text`: ASCII lower-casing and substring search (`includes`). It also
  holds the three regular expressions of the spam checks, written as
  substring predicates: `/!{3,}/` and `/!!+/` are runs of `!`, and
  `/\$\d+/` is a dollar sign followed by a digit. It also holds the
  `[...].filter(Boolean).join(' ')` idiom (`Terms`) and its laws.
- `Query`: the category and language chips, the three search-text
  builders, the request parameters (order hint, category, language,
  channel scope) and which search a chip change re-runs.
- `Quality`: the content-search and channel-search acceptance predicates,
  the stable filter `Keep`, and what has been proved about them.
- `Subsequence`: order-preserving subsequences (the shape of a stable
  filter).
- `Feed`: the controller class `ShortsFeed`. It holds the shown list, the
  cursor, the chip selections and the last error. Its methods are the
  screen's state changes. Each network call is replaced by its response,
  which the method takes as a parameter.
- `Scenarios`: concrete searches, items and event sequences.

Main results:

- The content search text consists of the non-empty parts, in order,
  joined by single spaces. It always contains `#shorts`.
- The order hint is `relevance` exactly when the query is non-empty.
- Every kept item carries `#shorts` in its title or description.
- Both filters reject their spam patterns, whatever the category.
- Under Education, every item kept by the content filter has one of its
  educational keywords.
- A filter's result is an order-preserving subsequence of its input. It
  keeps every accepted item as often as it occurs and drops the rest.
  Filtering twice gives the same result as filtering once.
- The channel filter is stricter than the content filter. Its result is a
  subsequence of the content filter's result on the same items.
- The controller keeps an invariant: every shown item passes the content
  filter for the category its search ran with.

Choices where the model follows the code as written:

- The focus cursor is not clamped to the list and is not reset when a new
  list arrives.
- The two searches use two different predicates. The channel predicate is
  the stricter one.
- `education` is an educational keyword only in the description, not in
  the title.
- A query that itself starts with `#shorts` also yields a search text
  starting with `#shorts`. So `Query.ContentSearchTermsMarker` states the
  exact prefix in each case: `#shorts` for an empty query, and
  `query + " #shorts"` otherwise.
- In the content search, a response without an `items` list throws at line
  94, before the check on line 96. This is modelled as the error
  `ItemsMissing`, and the shown list is kept. In the channel search the
  same case leaves the list unchanged and records no error.

## Model

| member | source | states |
|---|---|---|
| `Text.Lower` | MyFirstAIApp/src/screens/ShortsScreen.js:108-109 | lower-casing keeps the length and maps each character by `LowerChar`: an upper-case ASCII letter becomes its lower-case letter (code point + 32) and every other character stays as it is |
| `Text.NonEmpty` | MyFirstAIApp/src/screens/ShortsScreen.js:70 | `filter(Boolean)` keeps every non-empty part as often as it occurs and nothing else (order: `Text.NonEmptyIsSubsequence`) |
| `Text.NonEmptyIsSubsequence` | MyFirstAIApp/src/screens/ShortsScreen.js:70 | `filter(Boolean)` keeps the parts in their order: its result is an order-preserving subsequence of the parts |
| `Text.TermsCons` | MyFirstAIApp/src/screens/ShortsScreen.js:64-70 | a leading part of the join is dropped when empty; otherwise it is followed by one space when the rest is non-empty |
| `Text.TermsEmpty` | MyFirstAIApp/src/screens/ShortsScreen.js:64-70 | the joined text is empty exactly when every part is empty |
| `Text.TermsContainPart` | MyFirstAIApp/src/screens/ShortsScreen.js:64-70 | every part appears in the joined text |
| `Text.HasRunShorter` | MyFirstAIApp/src/screens/ShortsScreen.js:114 | a match of `/!{3,}/` is also a match of `/!!+/` (a run of n copies holds every shorter run) |
| `Text.ContainsTransitive` | MyFirstAIApp/src/screens/ShortsScreen.js:113 | whatever occurs inside an occurrence occurs in the whole text, so a title that includes `follow me` includes `follow` |
| `Query.OnlyEducationIsSpecial` | MyFirstAIApp/src/screens/ShortsScreen.js:28-32 | among the offered category chips, only Education has the id '27' that turns on the educational terms and checks |
| `Query.ContentSearchTerms` | MyFirstAIApp/src/screens/ShortsScreen.js:64-70 | the content search text is the query followed by a space (only when non-empty), then `#shorts`, then the lower-cased category name and, for category '27', `educational learn tutorial`, each preceded by one space only when non-empty |
| `Query.ContentSearchTermsMarker` | MyFirstAIApp/src/screens/ShortsScreen.js:64-70 | the content search text always contains `#shorts`; it starts with `#shorts` for an empty query and with the query, a space and `#shorts` otherwise |
| `Query.ContentSearchTermsCategory` | MyFirstAIApp/src/screens/ShortsScreen.js:67-69 | with a category selected, its lower-cased name is in the search text, and for Education so is `educational learn tutorial` |
| `Query.ChannelLookupTerms` | MyFirstAIApp/src/screens/ShortsScreen.js:167-171 | the channel lookup text is the query without a category; for Education it is the query, `education educational learning` and the displayed (not lower-cased) name; for other categories it is the query and the name; it starts with a non-empty query |
| `Query.ChannelShortsTerms` | MyFirstAIApp/src/screens/ShortsScreen.js:188-192 | the channel shorts text equals the content search text of an empty query and starts with `#shorts` |
| `Query.ContentRequest` | MyFirstAIApp/src/screens/ShortsScreen.js:72-82 | a short-video search of 20 results with the content search text; order `relevance` exactly when the query is non-empty and `date` exactly when it is empty; category id and language code passed through unchanged; no channel scope |
| `Query.ChannelLookupRequest` | MyFirstAIApp/src/screens/ShortsScreen.js:173-181 | a channel search of 20 results with the lookup text and no duration, order, category, language or channel parameter |
| `Query.ChannelShortsRequest` | MyFirstAIApp/src/screens/ShortsScreen.js:194-205 | the channel's shorts request always orders by date and is scoped to the given channel id |
| `Query.ChannelShortsIsScopedContentRequest` | MyFirstAIApp/src/screens/ShortsScreen.js:194-205 | the channel's shorts request is the empty-query content request with the channel id added |
| `Query.RefreshFetch` | MyFirstAIApp/src/screens/ShortsScreen.js:279-287 | a chip change re-runs the channel search exactly in channel mode with a non-empty channel query; otherwise it runs the content search with the search query in content mode and with the empty query in channel mode |
| `Quality.Keep` | MyFirstAIApp/src/screens/ShortsScreen.js:98-141 | the filtered list is no longer than the input and holds only input items that the search's predicate accepts |
| `Quality.KeepCounts` | MyFirstAIApp/src/screens/ShortsScreen.js:98-141 | each accepted item is kept as often as it occurs in the input, and every rejected item is dropped |
| `Quality.KeepIsSubsequence` | MyFirstAIApp/src/screens/ShortsScreen.js:218-258 | the filtered list is an order-preserving subsequence of the input |
| `Quality.KeepIdempotent` | MyFirstAIApp/src/screens/ShortsScreen.js:98-141 | filtering the filtered list again returns it unchanged |
| `Quality.KeptAreShorts` | MyFirstAIApp/src/screens/ShortsScreen.js:99-105 | every item either search keeps has `#shorts` in its lower-cased title or description |
| `Quality.ContentRejectsSpam` | MyFirstAIApp/src/screens/ShortsScreen.js:112-119 | the content filter rejects a title with `follow me` and `like`, with `!!!`, or with a `$`-digit and no `tutorial`, whatever the category |
| `Quality.ChannelRejectsSpam` | MyFirstAIApp/src/screens/ShortsScreen.js:232-238 | the channel filter rejects a title with `follow` and `like`, with `!!`, or with any `$`-digit, whatever the category |
| `Quality.ContentEducationRelevance` | MyFirstAIApp/src/screens/ShortsScreen.js:122-138 | under category '27' every kept item has `learn`, `how to`, `tutorial`, `tips` or `guide` in the title, or `learn`, `tutorial`, `education` or `how to` in the description |
| `Quality.OtherCategoriesIgnored` | MyFirstAIApp/src/screens/ShortsScreen.js:122-138 | outside category '27' either filter gives the verdict it gives with no category selected |
| `Quality.ContentAcceptsClean` | MyFirstAIApp/src/screens/ShortsScreen.js:98-141 | an item with the marker, no promotional title and, under Education, an educational keyword is kept (the converse of the three rejections) |
| `Quality.ContentSpamIsChannelSpam` | MyFirstAIApp/src/screens/ShortsScreen.js:232-238 | every promotional pattern of the content filter is also caught by the channel filter |
| `Quality.ChannelAcceptsImpliesContentAccepts` | MyFirstAIApp/src/screens/ShortsScreen.js:218-258 | every item the channel filter accepts is accepted by the content filter for the same category |
| `Quality.ChannelKeepWithinContentKeep` | MyFirstAIApp/src/screens/ShortsScreen.js:218-258 | what the channel filter keeps from a list is an order-preserving subsequence of what the content filter keeps from it |
| `Feed.NextCursor` | MyFirstAIApp/src/screens/ShortsScreen.js:423-427 | the cursor becomes the first viewable index, or stays unchanged when nothing is viewable |
| `Feed.NextCursorSettles` | MyFirstAIApp/src/screens/ShortsScreen.js:423-427 | repeating an event changes nothing more, and after a non-empty event the earlier cursor no longer matters |
| `Feed.Toggled` | MyFirstAIApp/src/screens/ShortsScreen.js:369 | tapping a chip clears the selection exactly when that chip (by id) was selected; otherwise the chip becomes the selection |
| `Feed.ToggleTwice` | MyFirstAIApp/src/screens/ShortsScreen.js:369 | two taps on a chip leave it selected exactly when it was selected before them |
| `Feed.ShortsFeed.constructor` | MyFirstAIApp/src/screens/ShortsScreen.js:46-51 | the screen starts with an empty list, cursor 0, no category, English and no error |
| `Feed.ShortsFeed.FetchShorts` | MyFirstAIApp/src/screens/ShortsScreen.js:58-157 | builds the content request from the selection at call time; items replace the list wholesale with the content-filtered items and clear the error; a failure or a missing item list records the error and keeps the list; the cursor and the selections are unchanged; the list is recorded as filtered for the selected category exactly when it is replaced; the shown-items invariant is kept |
| `Feed.ShortsFeed.SearchChannels` | MyFirstAIApp/src/screens/ShortsScreen.js:159-277 | a failed lookup records the error; a lookup with no items empties the list and builds no second request; otherwise the second request is scoped to the first hit's channel id, and its items replace the list with the channel-filtered items, recorded as filtered for the selected category; the invariant is kept |
| `Feed.ShortsFeed.OnViewableItemsChanged` | MyFirstAIApp/src/screens/ShortsScreen.js:423-427 | the cursor moves as `NextCursor` says and nothing else changes |
| `Feed.ShortsFeed.ToggleCategory` | MyFirstAIApp/src/screens/ShortsScreen.js:368-370 | a tap on an offered chip makes the category selection `Toggled` of the old one and nothing else changes; the selection stays among the offered chips |
| `Feed.ShortsFeed.SelectLanguage` | MyFirstAIApp/src/screens/ShortsScreen.js:382 | a tap on an offered language makes it the selection and nothing else changes |
| `Scenarios.EducationFeedRequest` | MyFirstAIApp/src/screens/ShortsScreen.js:64-80 | Education with an empty query: the text starts with `#shorts` and contains `education` and `educational learn tutorial`; order by date; category id 27 |
| `Scenarios.NewsSearchRequest` | MyFirstAIApp/src/screens/ShortsScreen.js:64-79 | the query `cats` under News: the text starts with `cats #shorts` and contains `news`; order by relevance |
| `Scenarios.PromotionalTitleRejected` | MyFirstAIApp/src/screens/ShortsScreen.js:112-119 | the title `Buy this NOW!!! $99 deal` is rejected by both filters, whatever the description and category |
| `Scenarios.TutorialKeptUnderEducation` | MyFirstAIApp/src/screens/ShortsScreen.js:98-141 | the title `Quick Math Tutorial #shorts` is accepted by both filters under Education |
| `Scenarios.PricedTutorialSplitsTheSearches` | MyFirstAIApp/src/screens/ShortsScreen.js:115 | the title `Tutorial: save $5 #shorts` is accepted by the content filter and rejected by the channel filter, whatever the category |
| `Scenarios.ChannelNotFoundThenScroll` | MyFirstAIApp/src/screens/ShortsScreen.js:263-265 | a channel lookup with no results gives an empty list and no second request; the events [3, 4] then [] leave the cursor at 3 |

## Left out

- The network calls are left out. This covers the `axios` requests, the API key and URL configuration, the `part`/`key` transport details, `Alert` and `console` logging. Each response is a parameter of the method that consumes it.
- The `loading` flag is left out: each fetch is one atomic step, so the flag would always be false between steps.
- Asynchronous ordering is left out. In particular, the race between overlapping fetches started by the `useEffect` hook (lines 279-287) is not modelled. `Query.RefreshFetch` only says which fetch a chip change starts.
- The search-mode tabs and the two text inputs (lines 289-359) are not state of the model. The mode and the queries are parameters of `Query.RefreshFetch` and of the fetch methods.
- Rendering is left out: the layout constants computed from the window size (floating point, lines 20-27), the JSX, the style sheets and the player widget. This includes the `play` flag of line 399.
- `Text.Lower`: lower-cases ASCII letters only, not the full Unicode case mapping of `toLowerCase`.
- The text of the runtime's error when a content response lacks `items` is not modelled. It is recorded as `ItemsMissing`.
- MyFirstAIApp/src/screens/HomeScreen.js, MyFirstAIApp/App.js and MyFirstAIApp/src/screens/VideoPlayerScreen.js are not part of this model. They are parameter wiring, navigation and a callback around the player widget.
