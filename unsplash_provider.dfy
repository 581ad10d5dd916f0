/**
 * The Unsplash image provider: the branch structure of `searchImages` around
 * an abstract HTTP response, the photo record it builds, its error override,
 * and the URL and attribution helpers the image manager calls.
 */
module UnsplashProvider {
  import opened Wrappers
  import opened Strs
  import opened Js
  import opened Seqs
  import opened BaseImageProvider

  const Name := "UnsplashProvider"

  /** The provider's settings: `config.perPage || 10`, `config.orientation || 'landscape'`, `config.size || 'regular'`. */
  datatype Settings = Settings(apiKey: Option<Value>, perPage: int, orientation: string, size: string)

  function FromConfig(apiKey: Option<Value>, perPage: Option<int>, orientation: Option<string>, size: Option<string>): (s: Settings)
    ensures s.perPage == (if perPage.Some? && perPage.value != 0 then perPage.value else 10)
    ensures s.orientation == (if orientation.Some? && orientation.value != "" then orientation.value else "landscape")
    ensures s.size == (if size.Some? && size.value != "" then size.value else "regular")
  {
    Settings(apiKey,
             if perPage.Some? && perPage.value != 0 then perPage.value else 10,
             if orientation.Some? && orientation.value != "" then orientation.value else "landscape",
             if size.Some? && size.value != "" then size.value else "regular")
  }

  /** The parts of an Unsplash API photo the provider reads. */
  datatype Photo = Photo(
    id: Value, urls: Fields, altDescription: Option<Value>, description: Option<Value>,
    userName: Value, userHtml: Value, userUsername: Value, width: Value, height: Value,
    linksHtml: Value, linksDownload: Value, tagTitles: Option<seq<Value>>,
    color: Value, likes: Value, downloads: Value)

  /** `photo.urls[size] || photo.urls.regular`. */
  function PhotoUrl(size: string, p: Photo): (v: Value)
    ensures Present(Get(p.urls, size)) ==> v == Get(p.urls, size).value
    ensures !Present(Get(p.urls, size)) ==> v == Prop(p.urls, "regular")
  {
    Or(Get(p.urls, size), Prop(p.urls, "regular"))
  }

  /** `photo.alt_description || photo.description || ''`. */
  function PhotoTitle(p: Photo): (v: Value)
    ensures v == if Present(p.altDescription) then p.altDescription.value
                 else if Present(p.description) then p.description.value else Str("")
  {
    Or(p.altDescription, Or(p.description, Str("")))
  }

  /** `photo.description || photo.alt_description || ''`. */
  function PhotoDescription(p: Photo): (v: Value)
    ensures v == if Present(p.description) then p.description.value
                 else if Present(p.altDescription) then p.altDescription.value else Str("")
  {
    Or(p.description, Or(p.altDescription, Str("")))
  }

  /** `photo.tags ? photo.tags.map(tag => tag.title) : []`. */
  function PhotoTags(p: Photo): Value
  {
    Arr(if p.tagTitles.Some? then p.tagTitles.value else [])
  }

  const ProcessedKeys: seq<string> :=
    ["id", "url", "thumbnail", "title", "description", "author", "authorUrl",
     "authorUsername", "width", "height", "source", "unsplashUrl", "downloadUrl",
     "tags", "license", "color", "likes", "downloads", "sizes"]

  /** `processUnsplashPhoto(photo)`: one entry for each of the nineteen keys, each key once. */
  function ProcessPhoto(size: string, p: Photo): (r: Fields)
    ensures Keys(r) == ProcessedKeys
    ensures Distinct(Keys(r))
  {
    ProcessedKeysDistinct();
    var r := [("id", p.id),
     ("url", PhotoUrl(size, p)),
     ("thumbnail", Prop(p.urls, "thumb")),
     ("title", PhotoTitle(p)),
     ("description", PhotoDescription(p)),
     ("author", p.userName),
     ("authorUrl", p.userHtml),
     ("authorUsername", p.userUsername),
     ("width", p.width),
     ("height", p.height),
     ("source", Str("Unsplash")),
     ("unsplashUrl", p.linksHtml),
     ("downloadUrl", p.linksDownload),
     ("tags", PhotoTags(p)),
     ("license", Str("Unsplash License")),
     ("color", p.color),
     ("likes", p.likes),
     ("downloads", p.downloads),
     ("sizes", Obj([("raw", Prop(p.urls, "raw")), ("full", Prop(p.urls, "full")),
                    ("regular", Prop(p.urls, "regular")), ("small", Prop(p.urls, "small")),
                    ("thumb", Prop(p.urls, "thumb"))]))];
    assert |Keys(r)| == |ProcessedKeys|;
    assert forall i :: 0 <= i < |r| ==> Keys(r)[i] == ProcessedKeys[i];
    r
  }

  /** The processed photo's url is the configured size, falling back to `regular`. */
  lemma ProcessedUrl(size: string, p: Photo)
    ensures Get(ProcessPhoto(size, p), "url") == Some(PhotoUrl(size, p))
  {
    ProcessedGet(size, p, 1, "url", PhotoUrl(size, p));
  }

  /** The processed photo's title prefers the alt text. */
  lemma ProcessedTitle(size: string, p: Photo)
    ensures Get(ProcessPhoto(size, p), "title") == Some(PhotoTitle(p))
  {
    ProcessedGet(size, p, 3, "title", PhotoTitle(p));
  }

  /** The processed photo's description prefers the description. */
  lemma ProcessedDescription(size: string, p: Photo)
    ensures Get(ProcessPhoto(size, p), "description") == Some(PhotoDescription(p))
  {
    ProcessedGet(size, p, 4, "description", PhotoDescription(p));
  }

  /** Every processed photo names Unsplash as its source. */
  lemma ProcessedSource(size: string, p: Photo)
    ensures Get(ProcessPhoto(size, p), "source") == Some(Str("Unsplash"))
  {
    ProcessedGet(size, p, 10, "source", Str("Unsplash"));
  }

  /** The processed photo keeps every size URL under `sizes`. */
  lemma ProcessedSizes(size: string, p: Photo)
    ensures HasKey(ProcessPhoto(size, p), "sizes")
  {
    var r := ProcessPhoto(size, p);
    assert r[18].0 == "sizes";
  }

  lemma ProcessedGet(size: string, p: Photo, i: nat, k: string, v: Value)
    requires i < |ProcessPhoto(size, p)| && ProcessPhoto(size, p)[i] == (k, v)
    ensures Get(ProcessPhoto(size, p), k) == Some(v)
  {
    var r := ProcessPhoto(size, p);
    GetDistinct(r, i);
  }

  lemma ProcessedKeysDistinct()
    ensures Distinct(ProcessedKeys)
  {
    var k := ProcessedKeys;
    forall i, j | 0 <= i < j < |k| ensures k[i] != k[j] {
      assert |k[i]| != |k[j]| || k[i][0] != k[j][0] || k[i][1] != k[j][1] || k[i][|k[i]| - 1] != k[j][|k[j]| - 1];
    }
  }

  /** What the search options of one call may carry. */
  datatype SearchOptions = SearchOptions(
    page: Option<Value>, limit: Option<int>, orientation: Option<string>, orderBy: Option<string>,
    filters: Option<Filters>, sortBy: Option<string>)

  datatype SearchParams = SearchParams(query: string, page: Value, perPage: int, orientation: string, orderBy: string)

  /** `Math.min(options.limit || this.perPage, 30)`. */
  function PerPage(s: Settings, limit: Option<int>): (n: int)
    ensures n <= 30
    ensures n == 30 || n == (if limit.Some? && limit.value != 0 then limit.value else s.perPage)
    ensures limit.Some? && limit.value != 0 && limit.value <= 30 ==> n == limit.value
  {
    var asked := if limit.Some? && limit.value != 0 then limit.value else s.perPage;
    if asked < 30 then asked else 30
  }

  function Params(s: Settings, query: string, o: SearchOptions): (p: SearchParams)
    ensures p.perPage == PerPage(s, o.limit) && p.query == query
    ensures p.page == (if Present(o.page) then o.page.value else Num(1))
  {
    SearchParams(query,
                 if Present(o.page) then o.page.value else Num(1),
                 PerPage(s, o.limit),
                 if o.orientation.Some? && o.orientation.value != "" then o.orientation.value else s.orientation,
                 if o.orderBy.Some? && o.orderBy.value != "" then o.orderBy.value else "relevant")
  }

  function ParamsValue(p: SearchParams): Value
  {
    Obj([("query", Str(p.query)), ("page", p.page), ("per_page", Num(p.perPage)),
         ("orientation", Str(p.orientation)), ("order_by", Str(p.orderBy))])
  }

  /** The `/search/photos` call as the provider sees it. */
  datatype ApiResponse =
    | Response(results: Option<seq<Photo>>, total: Value, totalPages: Value)
    | HttpError(status: Option<int>, message: Option<string>, errors: Option<seq<string>>)

  /**
   * `handleError(error)`: 403 becomes RATE_LIMIT_OR_ACCESS_DENIED, error
   * messages in the response body become UNSPLASH_API_ERROR, and anything else
   * is the base classification.
   */
  function HandleError(timestamp: string, status: Option<int>, message: Option<string>, errors: Option<seq<string>>): (r: ImageReply)
    ensures r.Error? && r.provider == Name
    ensures r.error == "RATE_LIMIT_OR_ACCESS_DENIED" <==> status == Some(403)
    ensures status != Some(403) && errors.Some? ==> r.error == "UNSPLASH_API_ERROR" && r.message == Join(errors.value, ", ")
    ensures status != Some(403) && errors.None? ==> r == BaseImageProvider.HandleError(Name, timestamp, status, message)
  {
    var base := BaseImageProvider.HandleError(Name, timestamp, status, message);
    if status == Some(403) then base.(error := "RATE_LIMIT_OR_ACCESS_DENIED", message := "Превышен лимит запросов или доступ запрещен")
    else if errors.Some? then base.(error := "UNSPLASH_API_ERROR", message := Join(errors.value, ", "))
    else base
  }

  /** The images a successful search keeps: filtered when filters are given, then sorted when asked. */
  function Selected(s: Settings, photos: seq<Photo>, o: SearchOptions): seq<Fields>
  {
    Chosen(Processed(s.size, photos), o)
  }

  /** `photos.map(photo => this.processPhoto(photo))`. */
  function Processed(size: string, photos: seq<Photo>): (r: seq<Fields>)
    ensures |r| == |photos| && forall i :: 0 <= i < |photos| ==> r[i] == ProcessPhoto(size, photos[i])
  {
    seq(|photos|, i requires 0 <= i < |photos| => ProcessPhoto(size, photos[i]))
  }

  /**
   * The processed images filtered when filters are given, then sorted when a
   * sort key is given: filtering comes first, and sorting only reorders.
   */
  function Chosen(images: seq<Fields>, o: SearchOptions): (r: seq<Fields>)
    ensures var filtered := if o.filters.Some? then FilterImages(images, o.filters.value) else images;
      (o.sortBy.Some? && o.sortBy.value != "" ==> r == SortImages(filtered, o.sortBy.value))
      && (!(o.sortBy.Some? && o.sortBy.value != "") ==> r == filtered)
      && multiset(r) == multiset(filtered)
    ensures o.filters.None? ==> multiset(r) == multiset(images)
    ensures o.filters.Some? ==>
      forall img :: img in r <==>
        (img in images && SizeOk(o.filters.value, img)
         && (OrientationFilterOn(o.filters.value) ==> OrientationOk(o.filters.value.orientation.value, img)))
  {
    var filtered := if o.filters.Some? then FilterImages(images, o.filters.value) else images;
    var r := if o.sortBy.Some? && o.sortBy.value != "" then SortImages(filtered, o.sortBy.value) else filtered;
    assert forall img :: img in r <==> img in multiset(filtered);
    r
  }

  /** Keywords that normalise and pass validateSearchParams with the caller's limit. */
  predicate ValidRequest(keywords: Value, o: SearchOptions)
  {
    NormalizeKeywords(keywords).Ok? && ValidateSearchParams(NormalizeKeywords(keywords).value, o.limit)
  }

  /** Every image the filters let through passes them and is one of the processed images. */
  lemma ChosenPass(images: seq<Fields>, o: SearchOptions, img: Fields)
    requires o.filters.Some? && img in Chosen(images, o)
    ensures img in images && SizeOk(o.filters.value, img)
    ensures OrientationFilterOn(o.filters.value) ==> OrientationOk(o.filters.value.orientation.value, img)
  {
    var filtered := FilterImages(images, o.filters.value);
    if o.sortBy.Some? && o.sortBy.value != "" {
      assert img in multiset(SortImages(filtered, o.sortBy.value));
    }
    assert img in filtered;
  }

  /**
   * `searchImages(keywords, options)`.  Every failure inside the `try`,
   * including invalid parameters, is returned through handleError.
   */
  function SearchImages(s: Settings, timestamp: string, keywords: Value, o: SearchOptions, api: ApiResponse): (r: ImageReply)
    ensures r.provider == Name
    ensures NormalizeKeywords(keywords).Err? ==>
              r == HandleError(timestamp, None, Some(NormalizeKeywords(keywords).error), None)
    ensures ValidRequest(keywords, o) && api.HttpError? ==>
              r == HandleError(timestamp, api.status, api.message, api.errors)
    ensures ValidRequest(keywords, o) && api.Response? && api.results.Some? && api.results.value != [] ==>
              var chosen := Chosen(Processed(s.size, api.results.value), o);
              r.Images? && |r.images| == |chosen|
              && forall i :: 0 <= i < |chosen| ==> r.images[i] == NormalizeImageData(Name, chosen[i])
  {
    var normalized := NormalizeKeywords(keywords);
    if normalized.Err? then HandleError(timestamp, None, Some(normalized.error), None)
    else if !ValidateSearchParams(normalized.value, o.limit) then
      HandleError(timestamp, None, Some("Invalid search parameters"), None)
    else
      var query := Join(normalized.value, " ");
      var params := Params(s, query, o);
      match api
      case HttpError(status, message, errors) => HandleError(timestamp, status, message, errors)
      case Response(results, total, totalPages) =>
        var photos := if results.Some? then results.value else [];
        if |photos| == 0 then
          FormatResponse(Name, timestamp, [], [("query", Str(query)), ("totalResults", Num(0)),
                                               ("searchParams", ParamsValue(params))])
        else
          FormatResponse(Name, timestamp, Selected(s, photos, o),
                         [("query", Str(query)), ("totalResults", total), ("totalPages", totalPages),
                          ("currentPage", params.page), ("searchParams", ParamsValue(params))])
  }

  /**
   * Invalid parameters (no keywords, or a limit outside [1, 50]) come back as
   * an UNKNOWN_ERROR reply, never as a thrown error, whatever the API would
   * have answered.
   */
  lemma InvalidParamsReply(s: Settings, timestamp: string, keywords: Value, o: SearchOptions, api: ApiResponse)
    requires NormalizeKeywords(keywords).Ok? && !ValidateSearchParams(NormalizeKeywords(keywords).value, o.limit)
    ensures var r := SearchImages(s, timestamp, keywords, o, api);
      r.Error? && r.error == "UNKNOWN_ERROR" && r.message == "Invalid search parameters"
  {
  }

  /** An array of blank keywords is invalid. */
  lemma BlankKeywordsInvalid(s: Settings, timestamp: string, items: seq<Value>, o: SearchOptions, api: ApiResponse)
    requires forall i :: 0 <= i < |items| ==> items[i] == Str("") || items[i] == Null
    ensures SearchImages(s, timestamp, Arr(items), o, api).Error?
  {
    BlankKeywordsDropped(items);
  }

  lemma BlankKeywordsDropped(items: seq<Value>)
    requires forall i :: 0 <= i < |items| ==> items[i] == Str("") || items[i] == Null
    ensures NormalizeKeywords(Arr(items)) == Ok([])
  {
    var r := NormalizeKeywords(Arr(items));
    assert IsBlank("") by { assert Trim("") == ""; }
    assert r.Ok?;
  }

  /** A response without photos is a successful reply with no images. */
  lemma NoResultsIsEmptySuccess(s: Settings, timestamp: string, keywords: Value, o: SearchOptions,
                                results: Option<seq<Photo>>, total: Value, totalPages: Value)
    requires NormalizeKeywords(keywords).Ok? && ValidateSearchParams(NormalizeKeywords(keywords).value, o.limit)
    requires results.None? || results == Some([])
    ensures var r := SearchImages(s, timestamp, keywords, o, Response(results, total, totalPages));
      r.Images? && r.images == []
  {
  }

  /**
   * Without filters and without a sort key the reply holds one normalised
   * image per API photo, in the API's order.
   */
  lemma UnfilteredKeepsOrder(s: Settings, timestamp: string, keywords: Value, o: SearchOptions,
                             photos: seq<Photo>, total: Value, totalPages: Value)
    requires NormalizeKeywords(keywords).Ok? && ValidateSearchParams(NormalizeKeywords(keywords).value, o.limit)
    requires o.filters.None? && (o.sortBy.None? || o.sortBy == Some(""))
    ensures var r := SearchImages(s, timestamp, keywords, o, Response(Some(photos), total, totalPages));
      r.Images? && |r.images| == |photos|
      && forall i :: 0 <= i < |photos| ==> r.images[i] == NormalizeImageData(Name, ProcessPhoto(s.size, photos[i]))
  {
    var chosen := Selected(s, photos, o);
    assert chosen == Processed(s.size, photos);
    var r := SearchImages(s, timestamp, keywords, o, Response(Some(photos), total, totalPages));
    if |photos| > 0 {
      assert r.images == FormatResponse(Name, timestamp, chosen, r.metadata).images;
    }
  }

  /** Every image of a filtered reply comes from a photo that passed the filter. */
  lemma FilteredImagesPass(s: Settings, photos: seq<Photo>, o: SearchOptions, img: Fields)
    requires o.filters.Some? && img in Selected(s, photos, o)
    ensures SizeOk(o.filters.value, img)
    ensures OrientationFilterOn(o.filters.value) ==> OrientationOk(o.filters.value.orientation.value, img)
    ensures exists i :: 0 <= i < |photos| && img == ProcessPhoto(s.size, photos[i])
  {
    var processed := Processed(s.size, photos);
    ChosenPass(processed, o, img);
    var i :| 0 <= i < |processed| && processed[i] == img;
  }

  /** The entry `photo.sizes[size]` when `photo.sizes` is an object and that entry is truthy. */
  predicate HasSized(photo: Fields, size: string)
  {
    Get(photo, "sizes").Some? && Get(photo, "sizes").value.Obj? && Present(Get(Get(photo, "sizes").value.fields, size))
  }

  /** `getImageUrl(photo, size)`: the named size when the photo carries it, else `url || downloadUrl`. */
  function GetImageUrl(photo: Fields, size: string): (r: Value)
    ensures HasSized(photo, size) ==> r == Get(Get(photo, "sizes").value.fields, size).value && Truthy(r)
    ensures !HasSized(photo, size) ==> r == Or(Get(photo, "url"), Prop(photo, "downloadUrl"))
  {
    match Get(photo, "sizes")
    case Some(Obj(sizes)) =>
      if Present(Get(sizes, size)) then Get(sizes, size).value
      else Or(Get(photo, "url"), Prop(photo, "downloadUrl"))
    case _ => Or(Get(photo, "url"), Prop(photo, "downloadUrl"))
  }

  /**
   * Images that went through formatResponse have lost `sizes`, so the size
   * asked for never changes their URL.
   */
  lemma NormalizedUrlIgnoresSize(d: Fields, size1: string, size2: string)
    ensures GetImageUrl(NormalizeImageData(Name, d), size1) == GetImageUrl(NormalizeImageData(Name, d), size2)
  {
    NormalizedImage(Name, d);
  }

  /** `getAttributionText(photo)`: exactly "Photo by <author> on Unsplash". */
  function AttributionText(photo: Fields): (t: string)
    ensures StartsWith(t, "Photo by ") && EndsWith(t, " on Unsplash")
    ensures |t| == 9 + |ToText(Prop(photo, "author"))| + 12
    ensures t[9..|t| - 12] == ToText(Prop(photo, "author"))
  {
    var t := "Photo by " + ToText(Prop(photo, "author")) + " on Unsplash";
    Slices3("Photo by ", ToText(Prop(photo, "author")), " on Unsplash");
    t
  }

  /** The attribution text spelled out. */
  lemma AttributionSpelled(photo: Fields)
    ensures AttributionText(photo) == "Photo by " + ToText(Prop(photo, "author")) + " on Unsplash"
  {
    var t := AttributionText(photo);
    var w := ToText(Prop(photo, "author"));
    assert t == t[..9] + t[9..|t| - 12] + t[|t| - 12..];
  }

  const HtmlLead := "Photo by <a href=\""
  const HtmlMid := "?utm_source=your_app&utm_medium=referral\">"
  const HtmlTail := "</a> on <a href=\"https://unsplash.com/?utm_source=your_app&utm_medium=referral\">Unsplash</a>"

  /**
   * `getAttributionHtml(photo)`: a link to the author's page carrying the
   * referral parameters, with the author's name as its text, then a link to
   * Unsplash.
   */
  function AttributionHtml(photo: Fields): (t: string)
    ensures var u, w := ToText(Prop(photo, "authorUrl")), ToText(Prop(photo, "author"));
      |t| == |HtmlLead| + |u| + |HtmlMid| + |w| + |HtmlTail|
      && t[..|HtmlLead|] == HtmlLead
      && t[|HtmlLead|..|HtmlLead| + |u|] == u
      && t[|HtmlLead| + |u|..|HtmlLead| + |u| + |HtmlMid|] == HtmlMid
      && t[|HtmlLead| + |u| + |HtmlMid|..|t| - |HtmlTail|] == w
      && t[|t| - |HtmlTail|..] == HtmlTail
  {
    var u, w := ToText(Prop(photo, "authorUrl")), ToText(Prop(photo, "author"));
    Slices5(HtmlLead, u, HtmlMid, w, HtmlTail);
    HtmlLead + u + HtmlMid + w + HtmlTail
  }
}
