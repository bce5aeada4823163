/** The query builder of the shorts screen: the category and language chips, the
    three search texts, and the request parameters handed to the video-search
    API. */
module Query {
  import opened Wrappers
  import opened Text

  // ---------------------------------------------------------------------------
  // Chips
  // ---------------------------------------------------------------------------

  datatype Category = Category(id: string, name: string, color: string)

  const Education := Category("27", "Education", "#4CAF50")
  const News := Category("25", "News", "#2196F3")
  const ScienceTech := Category("28", "Science & Tech", "#9C27B0")
  /** The category chips the screen offers (lines 28-32). */
  const Categories: seq<Category> := [Education, News, ScienceTech]

  /** The category id the screen treats specially: the Education chip's id. */
  const EducationId := "27"

  predicate IsEducation(selected: Option<Category>) {
    selected.Some? && selected.value.id == EducationId
  }

  /** Among the offered chips, Education is the only one that turns on the
      educational terms and checks. */
  lemma OnlyEducationIsSpecial(chip: Category)
    requires chip in Categories
    ensures IsEducation(Some(chip)) <==> chip == Education
  {
  }

  datatype Language = Language(code: string, name: string)

  const English := Language("en", "English")

  /** The language chips the screen offers (lines 34-43); English comes first and
      is the initial selection. */
  const Languages: seq<Language> := [
    English, Language("es", "Spanish"), Language("fr", "French"),
    Language("de", "German"), Language("hi", "Hindi"), Language("ja", "Japanese"),
    Language("ko", "Korean"), Language("zh", "Chinese")
  ]

  // ---------------------------------------------------------------------------
  // Search texts
  // ---------------------------------------------------------------------------

  const ShortsMarker := "#shorts"
  const EducationVideoTerms := "educational learn tutorial"
  const EducationChannelTerms := "education educational learning"

  /** The lower-cased name of the selected category, or nothing. */
  function CategoryWord(selected: Option<Category>): string {
    if selected.Some? then Lower(selected.value.name) else ""
  }

  /** The educational video keywords under Education, or nothing. */
  function EducationWord(selected: Option<Category>): string {
    if IsEducation(selected) then EducationVideoTerms else ""
  }

  /** Terms of four parts, as a nest of `Spaced`. */
  lemma TermsOfFour(a: string, b: string, c: string, d: string)
    ensures Terms([a, b, c, d]) == Spaced(a, Spaced(b, Spaced(c, d)))
  {
    assert [a, b, c, d] == [a] + [b, c, d];
    assert [b, c, d] == [b] + [c, d];
    assert [c, d] == [c] + [d];
    assert [d] == [d] + [];
    TermsCons(a, [b, c, d]);
    TermsCons(b, [c, d]);
    TermsCons(c, [d]);
    TermsCons(d, []);
  }

  /** Terms of three parts, as a nest of `Spaced`. */
  lemma TermsOfThree(a: string, b: string, c: string)
    ensures Terms([a, b, c]) == Spaced(a, Spaced(b, c))
  {
    assert [a, b, c] == [a] + [b, c];
    assert [b, c] == [b] + [c];
    assert [c] == [c] + [];
    TermsCons(a, [b, c]);
    TermsCons(b, [c]);
    TermsCons(c, []);
  }

  /** The content search text (lines 64-70): the query, the shorts marker, the
      lower-cased category name and, for Education, the educational keywords,
      each kept only when non-empty and separated by single spaces. */
  function ContentSearchTerms(query: string, selected: Option<Category>): (r: string)
    ensures r == Before(query) + ShortsMarker + After(CategoryWord(selected)) + After(EducationWord(selected))
  {
    var word, edu := CategoryWord(selected), EducationWord(selected);
    TermsOfFour(query, ShortsMarker, word, edu);
    SpacedAroundNonEmpty(query, ShortsMarker, word, edu);
    Terms([query, ShortsMarker, word, edu])
  }

  /** The content search text always holds the shorts marker; it starts with the
      marker when the query is empty, and with the query and the marker otherwise. */
  lemma ContentSearchTermsMarker(query: string, selected: Option<Category>)
    ensures Contains(ContentSearchTerms(query, selected), ShortsMarker)
    ensures query == "" ==> ShortsMarker <= ContentSearchTerms(query, selected)
    ensures query != "" ==> query + " " + ShortsMarker <= ContentSearchTerms(query, selected)
  {
    var word, edu := After(CategoryWord(selected)), After(EducationWord(selected));
    ConcatAssociative(Before(query) + ShortsMarker, word, edu);
    ContainsMiddle(Before(query), ShortsMarker, word + edu);
  }

  /** With a category selected, its lower-cased name is in the content search
      text, and for Education so are the educational keywords. */
  lemma ContentSearchTermsCategory(query: string, selected: Option<Category>)
    requires selected.Some?
    ensures Contains(ContentSearchTerms(query, selected), Lower(selected.value.name))
    ensures IsEducation(selected) ==> Contains(ContentSearchTerms(query, selected), EducationVideoTerms)
  {
    var parts := [query, ShortsMarker, CategoryWord(selected), EducationWord(selected)];
    TermsOfFour(query, ShortsMarker, CategoryWord(selected), EducationWord(selected));
    TermsContainPart(parts, 2);
    TermsContainPart(parts, 3);
  }

  /** The channel lookup text (lines 167-171): the query, the channel education
      keywords for Education, and the category name as displayed (not
      lower-cased), each kept only when non-empty and separated by single spaces. */
  function ChannelLookupTerms(query: string, selected: Option<Category>): (r: string)
    ensures selected.None? ==> r == query
    ensures IsEducation(selected) ==>
      r == Before(query) + EducationChannelTerms + After(selected.value.name)
    ensures selected.Some? && !IsEducation(selected) ==> r == Spaced(query, selected.value.name)
    ensures query != "" ==> query <= r
  {
    var name := if selected.Some? then selected.value.name else "";
    var edu := if IsEducation(selected) then EducationChannelTerms else "";
    TermsOfThree(query, edu, name);
    Terms([query, edu, name])
  }

  /** The search text for the shorts of a found channel (lines 188-192). It is the
      content search text of an empty query. */
  function ChannelShortsTerms(selected: Option<Category>): (r: string)
    ensures r == ContentSearchTerms("", selected)
    ensures ShortsMarker <= r
  {
    TermsOfThree(ShortsMarker, CategoryWord(selected), EducationWord(selected));
    Terms([ShortsMarker, CategoryWord(selected), EducationWord(selected)])
  }

  // ---------------------------------------------------------------------------
  // Requests
  // ---------------------------------------------------------------------------

  datatype Order = Relevance | Date
  datatype SearchType = Video | Channel

  /** The query parameters of one search call; `None` is a parameter left
      `undefined`, which is not sent. The API key is configuration and is not
      modelled. */
  datatype Request = Request(
    part: string,
    maxResults: nat,
    q: string,
    searchType: SearchType,
    videoDuration: Option<string>,
    order: Option<Order>,
    videoCategoryId: Option<string>,
    relevanceLanguage: Option<string>,
    channelId: Option<string>)

  const PageSize: nat := 20

  /** The id of the selected category, or no parameter at all. */
  function CategoryId(selected: Option<Category>): Option<string> {
    if selected.Some? then Some(selected.value.id) else None
  }

  /** Order by relevance for a non-empty query, by date for an empty one. */
  function OrderFor(query: string): Order {
    if query == "" then Date else Relevance
  }

  /** The request of the content search (lines 72-82). */
  function ContentRequest(query: string, selected: Option<Category>, language: Language): (r: Request)
    ensures r.searchType == Video && r.maxResults == PageSize && r.videoDuration == Some("short")
    ensures r.q == ContentSearchTerms(query, selected)
    ensures r.order == Some(Relevance) <==> query != ""
    ensures r.order == Some(Date) <==> query == ""
    ensures r.videoCategoryId == CategoryId(selected)
    ensures r.relevanceLanguage == Some(language.code)
    ensures r.channelId == None
  {
    Request("snippet", PageSize, ContentSearchTerms(query, selected), Video, Some("short"),
            Some(OrderFor(query)), CategoryId(selected), Some(language.code), None)
  }

  /** The channel lookup request (lines 173-181): a channel search that carries no
      duration, order, category or language. */
  function ChannelLookupRequest(query: string, selected: Option<Category>): (r: Request)
    ensures r.searchType == Channel && r.maxResults == PageSize
    ensures r.q == ChannelLookupTerms(query, selected)
    ensures r.videoDuration == None && r.order == None && r.videoCategoryId == None
    ensures r.relevanceLanguage == None && r.channelId == None
  {
    Request("snippet", PageSize, ChannelLookupTerms(query, selected), Channel, None, None, None, None, None)
  }

  /** The request for a found channel's shorts (lines 194-205). */
  function ChannelShortsRequest(channelId: string, selected: Option<Category>, language: Language): (r: Request)
    ensures r.order == Some(Date)
    ensures r.channelId == Some(channelId)
    ensures r.q == ChannelShortsTerms(selected)
  {
    Request("snippet", PageSize, ChannelShortsTerms(selected), Video, Some("short"),
            Some(Date), CategoryId(selected), Some(language.code), Some(channelId))
  }

  /** The shorts request of a found channel is the content request of an empty
      query, scoped to that channel: same text, order by date, same category and
      language. */
  lemma ChannelShortsIsScopedContentRequest(channelId: string, selected: Option<Category>, language: Language)
    ensures ChannelShortsRequest(channelId, selected, language)
         == ContentRequest("", selected, language).(channelId := Some(channelId))
  {
  }

  // ---------------------------------------------------------------------------
  // Which search a category or language change runs (lines 279-287)
  // ---------------------------------------------------------------------------

  datatype SearchMode = ContentMode | ChannelMode
  datatype Fetch = FetchContent(query: string) | FetchChannel(query: string)

  function RefreshFetch(mode: SearchMode, searchQuery: string, channelQuery: string): (f: Fetch)
    ensures f.FetchChannel? <==> mode == ChannelMode && channelQuery != ""
    ensures f.FetchChannel? ==> f.query == channelQuery
    ensures f.FetchContent? ==> f.query == (if mode == ContentMode then searchQuery else "")
  {
    if mode == ContentMode && searchQuery != "" then FetchContent(searchQuery)
    else if mode == ChannelMode && channelQuery != "" then FetchChannel(channelQuery)
    else FetchContent("")
  }
}
