/**
 * The image provider manager: the registry (only the Unsplash provider is
 * ever constructed), the fallback `searchImages` loop, the best-image search
 * for a topic, topic keywords, health checks and the article image and
 * Markdown it builds from a found image.
 */
module ImageManager {
  import opened Wrappers
  import opened Strs
  import opened Js
  import opened Fallback
  import opened BaseImageProvider
  import UnsplashProvider

  /** What initializeProviders reads: the manager config and UNSPLASH_ACCESS_KEY. */
  datatype Setup = Setup(provider: Option<string>, orientation: Option<string>, size: Option<string>,
                         perPage: Option<int>, accessKey: Option<string>, unsplashConstructs: bool)

  /** The options of getBestImageForTopic that it reads or passes on. */
  datatype TopicOptions = TopicOptions(
    provider: Option<string>, maxRetries: Option<int>, page: Option<Value>, orderBy: Option<string>,
    limit: Option<int>, orientation: Option<string>, minWidth: Option<int>, minHeight: Option<int>,
    filters: Option<Filters>)

  /** `a || d` for an optional number. */
  function OrInt(a: Option<int>, d: int): (r: int)
    ensures a.Some? && a.value != 0 ==> r == a.value
    ensures a.None? || a.value == 0 ==> r == d
  {
    if a.Some? && a.value != 0 then a.value else d
  }

  /** `a || d` for an optional string. */
  function OrText(a: Option<string>, d: string): (r: string)
    ensures a.Some? && a.value != "" ==> r == a.value
    ensures a.None? || a.value == "" ==> r == d
  {
    if a.Some? && a.value != "" then a.value else d
  }

  /** `{...defaults, ...filters}`: every filter the caller sets wins. */
  function MergeFilters(d: Filters, f: Filters): (r: Filters)
    ensures f.minWidth.Some? ==> r.minWidth == f.minWidth
    ensures f.minWidth.None? ==> r.minWidth == d.minWidth
    ensures f.minHeight.Some? ==> r.minHeight == f.minHeight
    ensures f.minHeight.None? ==> r.minHeight == d.minHeight
    ensures f.orientation.Some? ==> r.orientation == f.orientation
    ensures f.orientation.None? ==> r.orientation == d.orientation
  {
    Filters(if f.minWidth.Some? then f.minWidth else d.minWidth,
            if f.minHeight.Some? then f.minHeight else d.minHeight,
            if f.orientation.Some? then f.orientation else d.orientation)
  }

  /**
   * The search options getBestImageForTopic builds: limit 5, landscape and a
   * minimum of 800x600 by default, caller filters on top, and sorting by
   * relevance whatever the caller asked.
   */
  function BestSearchOptions(o: TopicOptions): (r: UnsplashProvider.SearchOptions)
    ensures r.limit == Some(OrInt(o.limit, 5))
    ensures r.orientation == Some(OrText(o.orientation, "landscape"))
    ensures r.sortBy == Some("relevance")
    ensures r.page == o.page && r.orderBy == o.orderBy
    ensures r.filters.Some?
    ensures o.filters.None? ==>
      (r.filters.value == Filters(Some(OrInt(o.minWidth, 800)), Some(OrInt(o.minHeight, 600)),
                                  Some(OrText(o.orientation, "landscape"))))
    ensures o.filters.Some? ==>
      var f := o.filters.value;
      r.filters.value.minWidth == (if f.minWidth.Some? then f.minWidth else Some(OrInt(o.minWidth, 800)))
      && r.filters.value.minHeight == (if f.minHeight.Some? then f.minHeight else Some(OrInt(o.minHeight, 600)))
      && r.filters.value.orientation == (if f.orientation.Some? then f.orientation else Some(OrText(o.orientation, "landscape")))
  {
    var defaults := Filters(Some(OrInt(o.minWidth, 800)), Some(OrInt(o.minHeight, 600)),
                            Some(OrText(o.orientation, "landscape")));
    UnsplashProvider.SearchOptions(
      o.page, Some(OrInt(o.limit, 5)), Some(OrText(o.orientation, "landscape")), o.orderBy,
      Some(if o.filters.Some? then MergeFilters(defaults, o.filters.value) else defaults),
      Some("relevance"))
  }

  /**
   * What a registered provider does when asked `searchImages(keywords,
   * options)`: its availability probe and the reply, as one outcome.
   */
  type Search = (string, Value, UnsplashProvider.SearchOptions) -> Attempt

  /** The outcome of each candidate for one call of `searchImages`. */
  function Consult(search: Search, keywords: Value, o: UnsplashProvider.SearchOptions): (outcome: string -> Attempt)
  {
    name => search(name, keywords, o)
  }

  /** The image manager reads success, the images and the metadata of a provider's reply. */
  function AttemptOfReply(r: ImageReply): (a: Attempt)
    ensures a.Returned? && (a.success <==> r.Images?)
    ensures r.Images? ==> a.images == r.images && a.metadata == r.metadata
  {
    if r.Images? then Returned(true, r.images, r.metadata) else Returned(false, [], [])
  }

  /** An Unsplash search with no results is not usable, so the manager moves on. */
  lemma NoResultsNotUsable(s: UnsplashProvider.Settings, timestamp: string, keywords: Value,
                           o: UnsplashProvider.SearchOptions, total: Value, totalPages: Value)
    requires NormalizeKeywords(keywords).Ok? && ValidateSearchParams(NormalizeKeywords(keywords).value, o.limit)
    ensures !Usable(ImageSearch, AttemptOfReply(UnsplashProvider.SearchImages(
              s, timestamp, keywords, o, UnsplashProvider.Response(Some([]), total, totalPages))))
  {
    UnsplashProvider.NoResultsIsEmptySuccess(s, timestamp, keywords, o, Some([]), total, totalPages);
  }

  // ---------------------------------------------------------------------------
  // generateSearchKeywords
  // ---------------------------------------------------------------------------

  predicate TechTopic(t: string)
  {
    Contains(t, "технолог") || Contains(t, "ai") || Contains(t, "искусственный интеллект")
  }

  predicate HealthTopic(t: string)
  {
    Contains(t, "здоров") || Contains(t, "медицин")
  }

  predicate BusinessTopic(t: string)
  {
    Contains(t, "бизнес") || Contains(t, "финанс")
  }

  predicate EducationTopic(t: string)
  {
    Contains(t, "образован") || Contains(t, "обучен")
  }

  predicate NatureTopic(t: string)
  {
    Contains(t, "природ") || Contains(t, "экологи")
  }

  /**
   * `generateSearchKeywords(topic)`: the topic, then the three words of the
   * first category the lower-cased topic mentions, or generic words.
   */
  function GenerateSearchKeywords(topic: string): (r: seq<string>)
    ensures |r| == 4 && r[0] == topic
    ensures TechTopic(Lower(topic)) ==> r[1..] == ["technology", "artificial intelligence", "innovation"]
    ensures !TechTopic(Lower(topic)) && HealthTopic(Lower(topic)) ==> r[1..] == ["health", "medical", "wellness"]
    ensures (!TechTopic(Lower(topic)) && !HealthTopic(Lower(topic)) && BusinessTopic(Lower(topic)))
            ==> r[1..] == ["business", "finance", "success"]
    ensures (!TechTopic(Lower(topic)) && !HealthTopic(Lower(topic)) && !BusinessTopic(Lower(topic))
             && EducationTopic(Lower(topic)))
            ==> r[1..] == ["education", "learning", "study"]
    ensures (!TechTopic(Lower(topic)) && !HealthTopic(Lower(topic)) && !BusinessTopic(Lower(topic))
             && !EducationTopic(Lower(topic)) && NatureTopic(Lower(topic)))
            ==> r[1..] == ["nature", "environment", "ecology"]
    ensures r[1..] == ["concept", "abstract", "modern"] <==>
              !TechTopic(Lower(topic)) && !HealthTopic(Lower(topic)) && !BusinessTopic(Lower(topic))
              && !EducationTopic(Lower(topic)) && !NatureTopic(Lower(topic))
  {
    var t := Lower(topic);
    [topic] + (if TechTopic(t) then ["technology", "artificial intelligence", "innovation"]
               else if HealthTopic(t) then ["health", "medical", "wellness"]
               else if BusinessTopic(t) then ["business", "finance", "success"]
               else if EducationTopic(t) then ["education", "learning", "study"]
               else if NatureTopic(t) then ["nature", "environment", "ecology"]
               else ["concept", "abstract", "modern"])
  }

  /**
   * The categories are tried in order and matched as substrings, so a nature
   * topic whose English words contain "ai" (as "rain" does) gets technology
   * keywords.
   */
  lemma RainForestIsTechnology()
    ensures GenerateSearchKeywords("Rain forest природа")[1] == "technology"
  {
    var t := Lower("Rain forest природа");
    assert t[1..][..2] == "ai";
    assert StartsWith(t[1..], "ai");
    assert Contains(t[1..], "ai");
    assert Contains(t, "ai");
  }

  // ---------------------------------------------------------------------------
  // The manager
  // ---------------------------------------------------------------------------

  datatype ArticleImage = ArticleImage(url: Value, alt: Value, title: Value, width: Value, height: Value,
                                       attribution: Option<string>, attributionHtml: Option<string>)

  datatype BestImage =
    | Best(image: Fields, alternatives: seq<Fields>, searchKeywords: seq<string>, metadata: Fields)
    | NoSuitableImages

  class Manager {
    /** Registered provider names (the keys of the `providers` Map); each is an Unsplash provider. */
    var providers: seq<string>
    const defaultProvider: string
    const unsplash: UnsplashProvider.Settings

    constructor(setup: Setup)
      ensures defaultProvider == OrText(setup.provider, "unsplash")
      ensures providers == if setup.accessKey.Some? && setup.accessKey.value != "" && setup.unsplashConstructs
                           then ["unsplash"] else []
      ensures providers != [] ==> IsAvailable(unsplash.apiKey)
      ensures unsplash == UnsplashProvider.FromConfig(
                Some(Str(setup.accessKey.GetOr(""))), setup.perPage,
                Some(OrText(setup.orientation, "landscape")), Some(OrText(setup.size, "regular")))
    {
      defaultProvider := OrText(setup.provider, "unsplash");
      unsplash := UnsplashProvider.FromConfig(
        Some(Str(setup.accessKey.GetOr(""))), setup.perPage,
        Some(OrText(setup.orientation, "landscape")), Some(OrText(setup.size, "regular")));
      if setup.accessKey.Some? && setup.accessKey.value != "" && setup.unsplashConstructs {
        providers := ["unsplash"];
      } else {
        providers := [];
      }
    }

    function AvailableProviders(): (r: seq<string>)
      reads this
      ensures r == providers
    {
      providers
    }

    /** `getProvider(name)`. */
    function GetProvider(name: Option<string>): (r: Result<string, string>)
      reads this
      ensures r.Ok? <==> Preferred(name, defaultProvider) in providers
      ensures r.Ok? ==> r.value == Preferred(name, defaultProvider)
      ensures r.Err? ==> r.error == NotFound(ImageSearch, Preferred(name, defaultProvider))
    {
      var n := Preferred(name, defaultProvider);
      if n in providers then Ok(n) else Err(NotFound(ImageSearch, n))
    }

    /**
     * `searchImages(keywords, options)`: every provider consulted is asked
     * with the caller's keywords and options; only a successful reply with at
     * least one image ends the search, and any other reply becomes lastError.
     */
    method SearchImages(keywords: Value, o: UnsplashProvider.SearchOptions, provider: Option<string>,
                        maxRetries: Option<int>, search: Search)
      returns (r: Outcome)
      ensures var cands := Candidates(Preferred(provider, defaultProvider), providers, maxRetries);
        r == Run(ImageSearch, cands, providers, Consult(search, keywords, o), None)
      ensures r.Found? ==> r.provider in providers && r.result == search(r.provider, keywords, o)
                           && r.result.Returned? && r.result.success && |r.result.images| > 0
    {
      var cands := Candidates(Preferred(provider, defaultProvider), providers, maxRetries);
      var visited;
      r, visited := TryInOrder(ImageSearch, cands, providers, Consult(search, keywords, o));
    }

    /**
     * `getBestImageForTopic(topic, options)`: a search for the topic's
     * keywords with the best-image options; the first image of the found
     * reply, the rest as alternatives in order.
     */
    method GetBestImageForTopic(topic: string, o: TopicOptions, search: Search)
      returns (r: BestImage)
      ensures var keywords := Arr(AsValues(GenerateSearchKeywords(topic)));
        var found := Run(ImageSearch, Candidates(Preferred(o.provider, defaultProvider), providers, o.maxRetries),
                         providers, Consult(search, keywords, BestSearchOptions(o)), None);
        (r.Best? <==> found.Found?)
        && (r.Best? ==> found.result == search(found.provider, keywords, BestSearchOptions(o))
                        && found.result.Returned? && [r.image] + r.alternatives == found.result.images
                        && r.searchKeywords == GenerateSearchKeywords(topic)
                        && r.metadata == found.result.metadata)
    {
      var keywords := GenerateSearchKeywords(topic);
      var result := SearchImages(Arr(AsValues(keywords)), BestSearchOptions(o), o.provider, o.maxRetries, search);
      if result.Found? {
        var images := result.result.images;
        r := Best(images[0], images[1..], keywords, result.result.metadata);
      } else {
        r := NoSuitableImages;
      }
    }

    /** `checkProvidersHealth()`. */
    method CheckHealth(probe: string -> Probe, elapsed: string -> int) returns (checks: seq<Health>)
      ensures |checks| == |providers|
      ensures forall i :: 0 <= i < |providers| ==> checks[i] == HealthOf(providers[i], probe(providers[i]), elapsed(providers[i]))
    {
      checks := CheckProvidersHealth(providers, probe, elapsed);
    }

    /** The provider an image came from: `providers.get(image.source?.toLowerCase())`. */
    function SourceProvider(image: Fields): (r: Result<bool, string>)
      reads this
      ensures r.Err? <==> Get(image, "source").Some? && !Get(image, "source").value.Null? && !Get(image, "source").value.Str?
      ensures r.Ok? ==> (r.value <==>
        Get(image, "source").Some? && Get(image, "source").value.Str? && Lower(Get(image, "source").value.s) in providers)
    {
      match Get(image, "source")
      case None => Ok(false)
      case Some(Null) => Ok(false)
      case Some(Str(s)) => Ok(Lower(s) in providers)
      case Some(_) => Err("image.source?.toLowerCase is not a function")
    }

    /**
     * `formatImageForArticle(image, options)`: the provider's URL for the
     * size when the source provider is registered, else `image.url`; the alt
     * text falls back to the description and then 'Article image'.
     */
    function FormatImageForArticle(image: Fields, size: Option<string>, includeAttribution: Option<Value>)
      : (r: Result<ArticleImage, string>)
      reads this
      ensures r.Ok? <==> SourceProvider(image).Ok?
      ensures r.Ok? ==> r.value.alt == Or(Get(image, "title"), Or(Get(image, "description"), Str("Article image")))
      ensures r.Ok? && !SourceProvider(image).value ==> r.value.url == Prop(image, "url") && r.value.attribution.None?
      ensures r.Ok? && SourceProvider(image).value ==>
                r.value.url == UnsplashProvider.GetImageUrl(image, OrText(size, "regular"))
      ensures r.Ok? ==> (r.value.attribution.Some? <==> SourceProvider(image).value && includeAttribution != Some(Bool(false)))
    {
      var p := SourceProvider(image);
      if p.Err? then Err(p.error)
      else Ok(Formatted(image, p.value, size, includeAttribution))
    }

    /**
     * `createImageMarkdown(image, options)`: `![alt](url)`, with the title in
     * quotes when it is truthy, and the attribution in italics only when
     * `includeAttribution` is truthy.
     */
    function CreateImageMarkdown(image: Fields, size: Option<string>, includeAttribution: Option<Value>)
      : (r: Result<string, string>)
      reads this
      ensures r.Ok? <==> FormatImageForArticle(image, size, includeAttribution).Ok?
      ensures r.Ok? ==> r.value == ImageMarkdown(FormatImageForArticle(image, size, includeAttribution).value, includeAttribution)
    {
      var formatted := FormatImageForArticle(image, size, includeAttribution);
      if formatted.Err? then Err(formatted.error)
      else Ok(ImageMarkdown(formatted.value, includeAttribution))
    }
  }

  /** The article image of a found image, through its registered provider or as it is. */
  function Formatted(image: Fields, registered: bool, size: Option<string>, includeAttribution: Option<Value>)
    : (a: ArticleImage)
    ensures a.alt == Or(Get(image, "title"), Or(Get(image, "description"), Str("Article image")))
    ensures !registered ==> a.url == Prop(image, "url") && a.attribution.None?
    ensures registered ==> a.url == UnsplashProvider.GetImageUrl(image, OrText(size, "regular"))
    ensures a.attribution.Some? <==> registered && includeAttribution != Some(Bool(false))
    ensures a.attribution.Some? ==>
              a.attribution.value == UnsplashProvider.AttributionText(image)
              && a.attributionHtml == Some(UnsplashProvider.AttributionHtml(image))
  {
    var url := if registered then UnsplashProvider.GetImageUrl(image, OrText(size, "regular")) else Prop(image, "url");
    var attributed := registered && includeAttribution != Some(Bool(false));
    var (text, html) := Attribution(image, attributed);
    ArticleImage(url, Or(Get(image, "title"), Or(Get(image, "description"), Str("Article image"))),
                 Prop(image, "title"), Prop(image, "width"), Prop(image, "height"), text, html)
  }

  /** The provider's attribution text and HTML, when attribution is wanted. */
  function Attribution(image: Fields, attributed: bool): (r: (Option<string>, Option<string>))
    ensures r.0.Some? <==> attributed
    ensures r.1.Some? <==> attributed
    ensures attributed ==> r.0.value == UnsplashProvider.AttributionText(image) && r.1.value == UnsplashProvider.AttributionHtml(image)
  {
    if attributed then (Some(UnsplashProvider.AttributionText(image)), Some(UnsplashProvider.AttributionHtml(image)))
    else (None, None)
  }

  /**
   * The Markdown of a formatted image: its link, and after a blank line the
   * attribution in italics only when includeAttribution is truthy and the
   * attribution is not empty.
   */
  function ImageMarkdown(f: ArticleImage, includeAttribution: Option<Value>): (md: string)
    ensures var link := ImageLink(ToText(f.alt), ToText(f.url), if Truthy(f.title) then Some(ToText(f.title)) else None);
      StartsWith(md, link)
      && (Attributed(f, includeAttribution) ==> md[|link|..] == "\n\n*" + f.attribution.value + "*")
      && (!Attributed(f, includeAttribution) ==> |md| == |link|)
  {
    var link := ImageLink(ToText(f.alt), ToText(f.url), if Truthy(f.title) then Some(ToText(f.title)) else None);
    if Attributed(f, includeAttribution) then
      var r := WithAttribution(link, f.attribution.value);
      assert r[|link|..] == "\n\n" + ("*" + f.attribution.value + "*");
      r
    else
      link
  }

  /** `options.includeAttribution && formatted.attribution`. */
  predicate Attributed(f: ArticleImage, includeAttribution: Option<Value>)
  {
    Present(includeAttribution) && f.attribution.Some? && f.attribution.value != ""
  }

  /**
   * The Markdown image link `![alt](url)`, or `![alt](url "title")` with a
   * title: the head, then either ")" or the quoted title and ")".
   */
  function ImageLink(alt: string, url: string, title: Option<string>): (md: string)
    ensures StartsWith(md, "![" + alt + "](" + url) && EndsWith(md, ")")
    ensures title.None? ==> |md| == |"![" + alt + "](" + url| + 1
    ensures title.Some? ==> EndsWith(md, " \"" + title.value + "\")") && |md| == |"![" + alt + "](" + url| + |title.value| + 4
  {
    var head := "![" + alt + "](" + url;
    var md := if title.Some? then head + " \"" + title.value + "\")" else head + ")";
    assert md[..|head|] == head;
    assert title.Some? ==> md[|md| - |" \"" + title.value + "\")"|..] == " \"" + title.value + "\")";
    md
  }

  /** The attribution line appended in italics after a blank line. */
  function WithAttribution(md: string, attribution: string): (r: string)
    ensures |r| == |md| + 2 + |attribution| + 2
    ensures r[..|md|] == md && r[|md|..|md| + 2] == "\n\n" && EndsWith(r, "*" + attribution + "*")
  {
    var tail := "*" + attribution + "*";
    var r := md + "\n\n" + tail;
    Slices3(md, "\n\n", tail);
    r
  }

  /**
   * With includeAttribution truthy, the Markdown of an image whose source is
   * Unsplash ends with "Photo by <author> on Unsplash" in italics after a
   * blank line.
   */
  lemma UnsplashMarkdownAttribution(m: Manager, img: Fields, size: Option<string>, inc: Option<Value>)
    requires "unsplash" in m.providers && Get(img, "source") == Some(Str("Unsplash")) && Present(inc)
    ensures var r := m.CreateImageMarkdown(img, size, inc);
      r.Ok? && EndsWith(r.value, "\n\n*" + ("Photo by " + ToText(Prop(img, "author")) + " on Unsplash") + "*")
  {
    UnsplashSourceFound(m, img);
    var f := m.FormatImageForArticle(img, size, inc).value;
    assert f.attribution == Some(UnsplashProvider.AttributionText(img));
    UnsplashProvider.AttributionSpelled(img);
    MarkdownEndsWithAttribution(f, inc);
  }

  /** An attributed Markdown text ends with the attribution line. */
  lemma MarkdownEndsWithAttribution(f: ArticleImage, inc: Option<Value>)
    requires Attributed(f, inc)
    ensures EndsWith(ImageMarkdown(f, inc), "\n\n*" + f.attribution.value + "*")
  {
    var md := ImageMarkdown(f, inc);
    var link := ImageLink(ToText(f.alt), ToText(f.url), if Truthy(f.title) then Some(ToText(f.title)) else None);
    assert md[|link|..] == "\n\n*" + f.attribution.value + "*";
  }

  /**
   * An image an Unsplash search returned carries the source "Unsplash", so
   * the article formatter finds the registered provider under its lower-cased
   * name.
   */
  lemma SearchedImageFindsProvider(m: Manager, size: string, p: UnsplashProvider.Photo)
    requires "unsplash" in m.providers
    ensures m.SourceProvider(NormalizeImageData(UnsplashProvider.Name, UnsplashProvider.ProcessPhoto(size, p))) == Ok(true)
  {
    UnsplashProvider.ProcessedSource(size, p);
    UnsplashSourceKept(UnsplashProvider.ProcessPhoto(size, p));
    UnsplashSourceFound(m, NormalizeImageData(UnsplashProvider.Name, UnsplashProvider.ProcessPhoto(size, p)));
  }

  lemma UnsplashSourceKept(d: Fields)
    requires Get(d, "source") == Some(Str("Unsplash"))
    ensures Get(NormalizeImageData(UnsplashProvider.Name, d), "source") == Some(Str("Unsplash"))
  {
    NormalizedImage(UnsplashProvider.Name, d);
  }

  lemma UnsplashSourceFound(m: Manager, img: Fields)
    requires "unsplash" in m.providers && Get(img, "source") == Some(Str("Unsplash"))
    ensures m.SourceProvider(img) == Ok(true)
  {
    assert Lower("Unsplash") == "unsplash";
  }

  /**
   * The size asked for never changes the article URL of an image that came
   * back from a search, because normalisation dropped its `sizes`.
   */
  lemma ArticleUrlIgnoresSize(m: Manager, d: Fields, size1: Option<string>, size2: Option<string>, inc: Option<Value>)
    requires m.FormatImageForArticle(NormalizeImageData(UnsplashProvider.Name, d), size1, inc).Ok?
    ensures m.FormatImageForArticle(NormalizeImageData(UnsplashProvider.Name, d), size1, inc).value.url
         == m.FormatImageForArticle(NormalizeImageData(UnsplashProvider.Name, d), size2, inc).value.url
  {
    UnsplashProvider.NormalizedUrlIgnoresSize(d, OrText(size1, "regular"), OrText(size2, "regular"));
  }
}
