/**
 * The value helpers every image provider inherits: keyword normalisation,
 * search-parameter validation, the response and image shapes, error
 * classification, and the filter and sort applied to result images.  Images
 * are JavaScript objects (ordered fields); dimensions are read as
 * `image.width || 0`.
 */
module BaseImageProvider {
  import opened Wrappers
  import opened Strs
  import opened Js
  import opened Seqs

  // ---------------------------------------------------------------------------
  // Keywords and search parameters
  // ---------------------------------------------------------------------------

  /**
   * `normalizeKeywords(keywords)`: a string is wrapped as it is; an array
   * keeps its non-blank entries; a truthy entry that is not a string makes
   * `keyword.trim()` throw.
   */
  function NormalizeKeywords(keywords: Value): (r: Result<seq<string>, string>)
    ensures keywords.Str? ==> r == Ok([keywords.s])
    ensures !keywords.Str? && !keywords.Arr? ==> r == Ok([])
    ensures keywords.Arr? && r.Ok? ==> forall k :: k in r.value ==> Str(k) in keywords.items && !IsBlank(k)
    ensures keywords.Arr? && r.Ok? ==> forall k :: Str(k) in keywords.items && !IsBlank(k) ==> k in r.value
    ensures keywords.Arr? ==> (r.Err? <==> exists v :: v in keywords.items && Truthy(v) && !v.Str?)
    ensures keywords.Arr? && r.Ok? ==> IsSubsequence(AsValues(r.value), keywords.items)
    ensures keywords.Arr? && r.Ok? ==>
              forall v :: Count(AsValues(r.value), v) == if KeywordOk(v) then Count(keywords.items, v) else 0
  {
    match keywords
    case Str(s) => Ok([s])
    case Arr(items) => KeepKeywords(items)
    case _ => Ok([])
  }

  /** An array entry normalizeKeywords keeps. */
  predicate KeywordOk(v: Value)
  {
    v.Str? && !IsBlank(v.s)
  }

  /** The strings of a list of string values. */
  function StringsOf(vs: seq<Value>): (r: seq<string>)
    requires forall i :: 0 <= i < |vs| ==> vs[i].Str?
    ensures |r| == |vs| && forall i :: 0 <= i < |vs| ==> vs[i] == Str(r[i])
  {
    seq(|vs|, i requires 0 <= i < |vs| => vs[i].s)
  }

  lemma StringsOfMembers(vs: seq<Value>)
    requires forall i :: 0 <= i < |vs| ==> vs[i].Str?
    ensures forall k :: k in StringsOf(vs) <==> Str(k) in vs
  {
    var r := StringsOf(vs);
    forall k ensures k in r <==> Str(k) in vs {
      if k in r { var i :| 0 <= i < |r| && r[i] == k; assert vs[i] == Str(k); }
      if Str(k) in vs { var i :| 0 <= i < |vs| && vs[i] == Str(k); assert r[i] == k; }
    }
  }

  /** Strings as JavaScript string values. */
  function AsValues(ks: seq<string>): (vs: seq<Value>)
    ensures |vs| == |ks| && forall i :: 0 <= i < |ks| ==> vs[i] == Str(ks[i])
  {
    seq(|ks|, i requires 0 <= i < |ks| => Str(ks[i]))
  }

  /**
   * `keywords.filter(keyword => keyword && keyword.trim().length > 0)`: the
   * callback throws on a truthy entry that is not a string.
   */
  function KeepKeywords(items: seq<Value>): (r: Result<seq<string>, string>)
    ensures r.Ok? ==> forall k :: k in r.value ==> Str(k) in items && !IsBlank(k)
    ensures r.Ok? ==> forall k :: Str(k) in items && !IsBlank(k) ==> k in r.value
    ensures r.Err? <==> exists v :: v in items && Truthy(v) && !v.Str?
    ensures r.Ok? ==> IsSubsequence(AsValues(r.value), items)
    ensures r.Ok? ==> forall v :: Count(AsValues(r.value), v) == if KeywordOk(v) then Count(items, v) else 0
  {
    if exists v :: v in items && Truthy(v) && !v.Str? then Err("keyword.trim is not a function")
    else
      var kept := Keep(items, KeywordOk);
      KeptKeywords(items);
      Ok(StringsOf(kept))
  }

  /** The values the keyword filter keeps are strings, and reading them as strings loses nothing. */
  lemma KeptKeywords(items: seq<Value>)
    ensures var kept := Keep(items, KeywordOk);
      (forall i :: 0 <= i < |kept| ==> kept[i].Str?)
      && AsValues(StringsOf(kept)) == kept
      && forall k :: k in StringsOf(kept) <==> Str(k) in kept
  {
    var kept := Keep(items, KeywordOk);
    assert forall i :: 0 <= i < |kept| ==> kept[i] in kept;
    StringsOfMembers(kept);
    assert AsValues(StringsOf(kept)) == kept;
  }

  /** `isAvailable()` / `hasApiKey()`: `Boolean(this.config.apiKey)`. */
  predicate IsAvailable(apiKey: Option<Value>)
  {
    Present(apiKey)
  }

  /** `options.limit || 10`. */
  function SearchLimit(limit: Option<int>): int
  {
    if limit.Some? && limit.value != 0 then limit.value else 10
  }

  /** `validateSearchParams(keywords, options)`: some keywords and a limit in [1, 50]. */
  function ValidateSearchParams(keywords: seq<string>, limit: Option<int>): (ok: bool)
    ensures ok <==> |keywords| > 0 && 1 <= SearchLimit(limit) <= 50
    ensures |keywords| > 0 && (limit.None? || limit == Some(0)) ==> ok
  {
    if |keywords| == 0 then false
    else
      var l := SearchLimit(limit);
      !(l < 1 || l > 50)
  }

  // ---------------------------------------------------------------------------
  // Image shape and responses
  // ---------------------------------------------------------------------------

  /** `a || b`, where an absent property is undefined. */
  function Or(a: Option<Value>, b: Value): (r: Value)
    ensures Present(a) ==> r == a.value
    ensures !Present(a) ==> r == b
  {
    if Present(a) then a.value else b
  }

  /** A property read, with undefined written as null. */
  function Prop(f: Fields, k: string): Value
  {
    Get(f, k).GetOr(Null)
  }

  const NormalizedKeys: seq<string> :=
    ["id", "url", "thumbnail", "title", "description", "author", "authorUrl",
     "source", "width", "height", "tags", "license", "downloadUrl"]

  /** The value `normalizeImageData` gives key k: the caller's own, else the fallback. */
  function NormalizedValue(provider: string, d: Fields, k: string): Value
  {
    if k == "url" then Or(Get(d, "url"), Or(Get(d, "src"), Null))
    else if k == "thumbnail" then Or(Get(d, "thumbnail"), Or(Get(d, "thumb"), Null))
    else if k == "title" then Or(Get(d, "title"), Or(Get(d, "alt"), Str("")))
    else if k == "description" then Or(Get(d, "description"), Str(""))
    else if k == "author" then Or(Get(d, "author"), Or(Get(d, "photographer"), Str("")))
    else if k == "authorUrl" then Or(Get(d, "authorUrl"), Or(Get(d, "photographerUrl"), Str("")))
    else if k == "source" then Or(Get(d, "source"), Str(provider))
    else if k == "tags" then Or(Get(d, "tags"), Arr([]))
    else if k == "license" then Or(Get(d, "license"), Str("Unknown"))
    else if k == "downloadUrl" then Or(Get(d, "downloadUrl"), Prop(d, "url"))
    // id, width and height fall back to null
    else Or(Get(d, k), Null)
  }

  /** `normalizeImageData(imageData)`: the fixed set of image keys with their fallbacks. */
  function NormalizeImageData(provider: string, d: Fields): (r: Fields)
    ensures Keys(r) == NormalizedKeys
  {
    seq(|NormalizedKeys|, i requires 0 <= i < |NormalizedKeys| => (NormalizedKeys[i], NormalizedValue(provider, d, NormalizedKeys[i])))
  }

  /**
   * A normalised image holds the caller's url, title, dimensions, source and
   * download link (or their fallbacks), and nothing else the provider
   * attached, such as `sizes`.
   */
  lemma NormalizedImage(provider: string, d: Fields)
    ensures var r := NormalizeImageData(provider, d);
      !HasKey(r, "sizes")
      && Get(r, "url") == Some(Or(Get(d, "url"), Or(Get(d, "src"), Null)))
      && Get(r, "title") == Some(Or(Get(d, "title"), Or(Get(d, "alt"), Str(""))))
      && Get(r, "width") == Some(Or(Get(d, "width"), Null))
      && Get(r, "height") == Some(Or(Get(d, "height"), Null))
      && Get(r, "source") == Some(Or(Get(d, "source"), Str(provider)))
      && Get(r, "downloadUrl") == Some(Or(Get(d, "downloadUrl"), Prop(d, "url")))
  {
    NoSizes(provider, d);
    NormalizedUrl(provider, d);
    NormalizedTitle(provider, d);
    NormalizedSource(provider, d);
    NormalizedWidth(provider, d);
    NormalizedHeight(provider, d);
    NormalizedDownloadUrl(provider, d);
  }

  // One lemma per key the providers and the image manager read.

  lemma NormalizedUrl(provider: string, d: Fields)
    ensures Get(NormalizeImageData(provider, d), "url") == Some(Or(Get(d, "url"), Or(Get(d, "src"), Null)))
  {
    NormalizedKey(provider, d, 1, "url");
  }

  lemma NormalizedTitle(provider: string, d: Fields)
    ensures Get(NormalizeImageData(provider, d), "title") == Some(Or(Get(d, "title"), Or(Get(d, "alt"), Str(""))))
  {
    NormalizedKey(provider, d, 3, "title");
  }

  lemma NormalizedSource(provider: string, d: Fields)
    ensures Get(NormalizeImageData(provider, d), "source") == Some(Or(Get(d, "source"), Str(provider)))
  {
    NormalizedKey(provider, d, 7, "source");
  }

  lemma NormalizedWidth(provider: string, d: Fields)
    ensures Get(NormalizeImageData(provider, d), "width") == Some(Or(Get(d, "width"), Null))
  {
    NormalizedKey(provider, d, 8, "width");
  }

  lemma NormalizedHeight(provider: string, d: Fields)
    ensures Get(NormalizeImageData(provider, d), "height") == Some(Or(Get(d, "height"), Null))
  {
    NormalizedKey(provider, d, 9, "height");
  }

  lemma NormalizedDownloadUrl(provider: string, d: Fields)
    ensures Get(NormalizeImageData(provider, d), "downloadUrl") == Some(Or(Get(d, "downloadUrl"), Prop(d, "url")))
  {
    NormalizedKey(provider, d, 12, "downloadUrl");
  }

  lemma NoSizes(provider: string, d: Fields)
    ensures !HasKey(NormalizeImageData(provider, d), "sizes")
  {
    NotNormalizedKey("sizes");
  }

  /** No five-letter key starting with s is a normalised key. */
  lemma NotNormalizedKey(k: string)
    requires |k| == 5 && k[0] == 's'
    ensures k !in NormalizedKeys
  {
    forall i | 0 <= i < |NormalizedKeys| ensures NormalizedKeys[i] != k {
      assert |NormalizedKeys[i]| != 5 || NormalizedKeys[i][0] != 's';
    }
  }

  /** Each normalised key reads back its own value. */
  lemma NormalizedKey(provider: string, d: Fields, i: nat, k: string)
    requires i < |NormalizedKeys| && NormalizedKeys[i] == k
    ensures Get(NormalizeImageData(provider, d), k) == Some(NormalizedValue(provider, d, k))
  {
    NormalizedKeysDistinct();
    GetDistinct(NormalizeImageData(provider, d), i);
  }

  lemma NormalizedKeysDistinct()
    ensures Distinct(NormalizedKeys)
  {
    forall i, j | 0 <= i < j < |NormalizedKeys| ensures NormalizedKeys[i] != NormalizedKeys[j] {
      assert |NormalizedKeys[i]| != |NormalizedKeys[j]| || NormalizedKeys[i][0] != NormalizedKeys[j][0]
          || NormalizedKeys[i][|NormalizedKeys[i]| - 1] != NormalizedKeys[j][|NormalizedKeys[j]| - 1];
    }
  }

  /** In an object without repeated keys, each key reads back its own value. */
  lemma GetDistinct(f: Fields, i: nat)
    requires i < |f| && Distinct(Keys(f))
    ensures Get(f, f[i].0) == Some(f[i].1)
  {
    var k := f[i].0;
    assert HasKey(f, k);
    var v := Get(f, k).value;
    var j :| 0 <= j < |f| && f[j] == (k, v);
    assert Keys(f)[j] == Keys(f)[i];
  }

  datatype ImageReply =
    | Images(provider: string, images: seq<Fields>, metadata: Fields)
    | Error(provider: string, timestamp: string, error: string, message: string)
  {
    predicate Success() { Images? }
  }

  /** `formatResponse(images, metadata)`. */
  function FormatResponse(provider: string, timestamp: string, images: seq<Fields>, metadata: Fields): (r: ImageReply)
    ensures r.Images? && r.provider == provider && |r.images| == |images|
    ensures forall i :: 0 <= i < |images| ==> r.images[i] == NormalizeImageData(provider, images[i])
  {
    Images(provider, seq(|images|, i requires 0 <= i < |images| => NormalizeImageData(provider, images[i])),
           Assign([("timestamp", Str(timestamp)), ("total", Num(|images|))], metadata))
  }

  /** `metadata.total` is the number of input images unless the caller's metadata sets it. */
  lemma FormatResponseTotal(provider: string, timestamp: string, images: seq<Fields>, metadata: Fields)
    ensures Get(FormatResponse(provider, timestamp, images, metadata).metadata, "total")
         == if HasKey(metadata, "total") then Get(metadata, "total") else Some(Num(|images|))
  {
    GetAssign([("timestamp", Str(timestamp)), ("total", Num(|images|))], metadata, "total");
  }

  /** `handleError(error)`: 401, 429 and 403 have fixed codes, anything else is UNKNOWN_ERROR. */
  function HandleError(provider: string, timestamp: string, status: Option<int>, message: Option<string>): (r: ImageReply)
    ensures r.Error? && r.provider == provider && r.timestamp == timestamp
    ensures r.error == "INVALID_API_KEY" <==> status == Some(401)
    ensures r.error == "RATE_LIMIT" <==> status == Some(429)
    ensures r.error == "ACCESS_FORBIDDEN" <==> status == Some(403)
    ensures r.error == "UNKNOWN_ERROR" <==> status !in {Some(401), Some(429), Some(403)}
    ensures r.error == "UNKNOWN_ERROR" && message.Some? && message.value != "" ==> r.message == message.value
  {
    if status == Some(401) then Error(provider, timestamp, "INVALID_API_KEY", "Неверный API ключ")
    else if status == Some(429) then Error(provider, timestamp, "RATE_LIMIT", "Превышен лимит запросов")
    else if status == Some(403) then Error(provider, timestamp, "ACCESS_FORBIDDEN", "Доступ запрещен")
    else Error(provider, timestamp, "UNKNOWN_ERROR",
               if message.Some? && message.value != "" then message.value else "Неизвестная ошибка")
  }

  // ---------------------------------------------------------------------------
  // filterImages
  // ---------------------------------------------------------------------------

  /** `image.width || 0` for a numeric dimension. */
  function Dim(img: Fields, k: string): int
  {
    match Get(img, k)
    case Some(Num(n)) => n
    case _ => 0
  }

  /** The filter options; an absent or zero minimum and an absent or empty orientation are off. */
  datatype Filters = Filters(minWidth: Option<int>, minHeight: Option<int>, orientation: Option<string>)

  function MinOf(o: Option<int>): int
  {
    if o.Some? then o.value else 0
  }

  predicate SizeOk(f: Filters, img: Fields)
  {
    (MinOf(f.minWidth) == 0 || (Dim(img, "width") != 0 && Dim(img, "width") >= MinOf(f.minWidth)))
    && (MinOf(f.minHeight) == 0 || (Dim(img, "height") != 0 && Dim(img, "height") >= MinOf(f.minHeight)))
  }

  /** `w / h > p / q` for a non-zero `h` and a positive `q`, without division. */
  predicate RatioAbove(w: int, h: int, p: int, q: int)
  {
    if h > 0 then q * w > p * h else q * w < p * h
  }

  predicate RatioBelow(w: int, h: int, p: int, q: int)
  {
    if h > 0 then q * w < p * h else q * w > p * h
  }

  /** The integer comparisons agree with the ratio of the dimensions as real numbers. */
  lemma RatioAsReal(w: int, h: int, p: int, q: int)
    requires h != 0 && q > 0
    ensures RatioAbove(w, h, p, q) <==> (w as real) / (h as real) > (p as real) / (q as real)
    ensures RatioBelow(w, h, p, q) <==> (w as real) / (h as real) < (p as real) / (q as real)
  {
    var x := (w as real) / (h as real);
    var t := (p as real) / (q as real);
    assert x * (h as real) == w as real;
    assert t * (q as real) == p as real;
    if h > 0 {
      assert x > t <==> x * (h as real) * (q as real) > t * (q as real) * (h as real);
      assert x < t <==> x * (h as real) * (q as real) < t * (q as real) * (h as real);
    } else {
      assert x > t <==> x * (h as real) * (q as real) < t * (q as real) * (h as real);
      assert x < t <==> x * (h as real) * (q as real) > t * (q as real) * (h as real);
    }
  }

  /** An image missing a dimension always passes; landscape is w/h > 1.2, portrait w/h < 0.8. */
  predicate OrientationOk(orientation: string, img: Fields)
  {
    var w := Dim(img, "width");
    var h := Dim(img, "height");
    if w == 0 || h == 0 then true
    else if orientation == "landscape" then RatioAbove(w, h, 6, 5)
    else if orientation == "portrait" then RatioBelow(w, h, 4, 5)
    else if orientation == "square" then !RatioBelow(w, h, 4, 5) && !RatioAbove(w, h, 6, 5)
    else true
  }

  predicate SizeFilterOn(f: Filters)
  {
    MinOf(f.minWidth) != 0 || MinOf(f.minHeight) != 0
  }

  predicate OrientationFilterOn(f: Filters)
  {
    f.orientation.Some? && f.orientation.value != ""
  }

  /** `filterImages(images, filters)`: the size filter, then the orientation filter. */
  function FilterImages(images: seq<Fields>, f: Filters): (r: seq<Fields>)
    ensures IsSubsequence(r, images)
    ensures forall img :: img in r <==> (img in images && SizeOk(f, img)
                                         && (OrientationFilterOn(f) ==> OrientationOk(f.orientation.value, img)))
    ensures forall img :: Count(r, img) ==
              if SizeOk(f, img) && (OrientationFilterOn(f) ==> OrientationOk(f.orientation.value, img))
              then Count(images, img) else 0
  {
    var sized := if SizeFilterOn(f) then Keep(images, img => SizeOk(f, img)) else images;
    var oriented := if OrientationFilterOn(f) then Keep(sized, img => OrientationOk(f.orientation.value, img)) else sized;
    SubsequenceRefl(images);
    SubsequenceRefl(sized);
    SubsequenceTrans(oriented, sized, images);
    oriented
  }

  lemma {:induction false} SubsequenceRefl<T>(s: seq<T>)
    ensures IsSubsequence(s, s)
    decreases |s|
  {
    if |s| > 0 {
      SubsequenceRefl(s[1..]);
    }
  }

  lemma {:induction false} SubsequenceTrans<T>(a: seq<T>, b: seq<T>, c: seq<T>)
    requires IsSubsequence(a, b) && IsSubsequence(b, c)
    ensures IsSubsequence(a, c)
    decreases |c|
  {
    if |a| > 0 {
      assert |b| > 0 && |c| > 0;
      if b[0] == c[0] && IsSubsequence(b[1..], c[1..]) {
        if a[0] == b[0] && IsSubsequence(a[1..], b[1..]) {
          SubsequenceTrans(a[1..], b[1..], c[1..]);
        } else {
          SubsequenceTrans(a, b[1..], c[1..]);
        }
      } else {
        SubsequenceTrans(a, b, c[1..]);
      }
    }
  }

  /** A landscape image that passes is wider than it is tall (for positive dimensions). */
  lemma LandscapeIsWide(images: seq<Fields>, img: Fields)
    requires img in FilterImages(images, Filters(None, None, Some("landscape")))
    requires Dim(img, "width") > 0 && Dim(img, "height") > 0
    ensures 5 * Dim(img, "width") > 6 * Dim(img, "height")
    ensures Dim(img, "width") > Dim(img, "height")
  {
  }

  // ---------------------------------------------------------------------------
  // sortImages
  // ---------------------------------------------------------------------------

  /** The descending sort key: area for 'size', else the named dimension. */
  function SortKey(sortBy: string, img: Fields): int
  {
    if sortBy == "size" then Dim(img, "width") * Dim(img, "height")
    else if sortBy == "width" then Dim(img, "width")
    else Dim(img, "height")
  }

  predicate SortedDesc(sortBy: string, s: seq<Fields>)
  {
    forall i, j :: 0 <= i < j < |s| ==> SortKey(sortBy, s[i]) >= SortKey(sortBy, s[j])
  }

  /** Puts `x` after every element whose key is at least its own (so ties keep input order). */
  function Insert(sortBy: string, x: Fields, s: seq<Fields>): (r: seq<Fields>)
    requires SortedDesc(sortBy, s)
    ensures multiset(r) == multiset(s) + multiset{x}
    ensures SortedDesc(sortBy, r)
    decreases |s|
  {
    if |s| == 0 then [x]
    else if SortKey(sortBy, s[0]) >= SortKey(sortBy, x) then
      SortedTail(sortBy, s);
      var rest := Insert(sortBy, x, s[1..]);
      InsertBound(sortBy, s, x, rest);
      ConsSorted(sortBy, s[0], rest);
      assert s == [s[0]] + s[1..];
      [s[0]] + rest
    else
      HeadBounds(sortBy, s);
      ConsSorted(sortBy, x, s);
      [x] + s
  }

  lemma SortedTail(sortBy: string, s: seq<Fields>)
    requires SortedDesc(sortBy, s) && |s| > 0
    ensures SortedDesc(sortBy, s[1..])
  {
    forall i, j | 0 <= i < j < |s| - 1 ensures SortKey(sortBy, s[1..][i]) >= SortKey(sortBy, s[1..][j]) {
      assert s[1..][i] == s[i + 1] && s[1..][j] == s[j + 1];
    }
  }

  /** The first element of a descending sequence has the largest key. */
  lemma HeadBounds(sortBy: string, s: seq<Fields>)
    requires SortedDesc(sortBy, s) && |s| > 0
    ensures forall y :: y in s ==> SortKey(sortBy, s[0]) >= SortKey(sortBy, y)
  {
    forall y | y in s ensures SortKey(sortBy, s[0]) >= SortKey(sortBy, y) {
      var k :| 0 <= k < |s| && s[k] == y;
    }
  }

  lemma InsertBound(sortBy: string, s: seq<Fields>, x: Fields, rest: seq<Fields>)
    requires SortedDesc(sortBy, s) && |s| > 0 && SortKey(sortBy, s[0]) >= SortKey(sortBy, x)
    requires multiset(rest) == multiset(s[1..]) + multiset{x}
    ensures forall y :: y in rest ==> SortKey(sortBy, s[0]) >= SortKey(sortBy, y)
  {
    HeadBounds(sortBy, s);
    forall y | y in rest ensures SortKey(sortBy, s[0]) >= SortKey(sortBy, y) {
      assert y in multiset(rest);
      if y != x {
        assert y in s[1..];
        var k :| 0 <= k < |s[1..]| && s[1..][k] == y;
        assert s[k + 1] == y;
      }
    }
  }

  /** An element whose key bounds a descending sequence can go in front of it. */
  lemma ConsSorted(sortBy: string, a: Fields, rest: seq<Fields>)
    requires SortedDesc(sortBy, rest)
    requires forall y :: y in rest ==> SortKey(sortBy, a) >= SortKey(sortBy, y)
    ensures SortedDesc(sortBy, [a] + rest)
  {
    var r := [a] + rest;
    forall i, j | 0 <= i < j < |r| ensures SortKey(sortBy, r[i]) >= SortKey(sortBy, r[j]) {
      assert r[j] == rest[j - 1];
      if i == 0 {
        assert rest[j - 1] in rest;
      } else {
        assert r[i] == rest[i - 1];
      }
    }
  }

  function SortDesc(sortBy: string, s: seq<Fields>): (r: seq<Fields>)
    ensures multiset(r) == multiset(s)
    ensures SortedDesc(sortBy, r)
    decreases |s|
  {
    if |s| == 0 then []
    else
      assert s == s[..|s| - 1] + [s[|s| - 1]];
      Insert(sortBy, s[|s| - 1], SortDesc(sortBy, s[..|s| - 1]))
  }

  /** The images of `s` whose sort key is `k`, in their order in `s`. */
  function WithKey(sortBy: string, k: int, s: seq<Fields>): seq<Fields>
    decreases |s|
  {
    if |s| == 0 then []
    else (if SortKey(sortBy, s[0]) == k then [s[0]] else []) + WithKey(sortBy, k, s[1..])
  }

  lemma {:induction false} WithKeyAppend(sortBy: string, k: int, a: seq<Fields>, b: seq<Fields>)
    ensures WithKey(sortBy, k, a + b) == WithKey(sortBy, k, a) + WithKey(sortBy, k, b)
    decreases |a|
  {
    if |a| > 0 {
      assert (a + b)[0] == a[0] && (a + b)[1..] == a[1..] + b;
      WithKeyAppend(sortBy, k, a[1..], b);
    } else {
      assert a + b == b;
    }
  }

  /** No image of a descending sequence below key `k` has key `k`. */
  lemma {:induction false} WithKeyBelow(sortBy: string, k: int, s: seq<Fields>)
    requires forall y :: y in s ==> SortKey(sortBy, y) < k
    ensures WithKey(sortBy, k, s) == []
    decreases |s|
  {
    if |s| > 0 {
      assert s[0] in s;
      assert forall y :: y in s[1..] ==> y in s;
      WithKeyBelow(sortBy, k, s[1..]);
    }
  }

  /** Insert puts `x` after every image with the same key. */
  lemma {:induction false} InsertStable(sortBy: string, k: int, x: Fields, s: seq<Fields>)
    requires SortedDesc(sortBy, s)
    ensures WithKey(sortBy, k, Insert(sortBy, x, s)) == WithKey(sortBy, k, s) + WithKey(sortBy, k, [x])
    decreases |s|
  {
    if |s| == 0 {
      assert WithKey(sortBy, k, []) == [];
    } else if SortKey(sortBy, s[0]) >= SortKey(sortBy, x) {
      SortedTail(sortBy, s);
      var rest := Insert(sortBy, x, s[1..]);
      InsertStable(sortBy, k, x, s[1..]);
      assert Insert(sortBy, x, s) == [s[0]] + rest;
      WithKeyAppend(sortBy, k, [s[0]], rest);
      WithKeyAppend(sortBy, k, [s[0]], s[1..]);
      assert s == [s[0]] + s[1..];
    } else {
      assert Insert(sortBy, x, s) == [x] + s;
      WithKeyAppend(sortBy, k, [x], s);
      if SortKey(sortBy, x) == k {
        HeadBounds(sortBy, s);
        WithKeyBelow(sortBy, k, s);
      } else {
        assert WithKey(sortBy, k, [x]) == [];
      }
    }
  }

  /** The descending sort is stable: images with equal keys keep their input order. */
  lemma {:induction false} SortDescStable(sortBy: string, k: int, s: seq<Fields>)
    ensures WithKey(sortBy, k, SortDesc(sortBy, s)) == WithKey(sortBy, k, s)
    decreases |s|
  {
    if |s| > 0 {
      var init := s[..|s| - 1];
      SortDescStable(sortBy, k, init);
      InsertStable(sortBy, k, s[|s| - 1], SortDesc(sortBy, init));
      assert s == init + [s[|s| - 1]];
      WithKeyAppend(sortBy, k, init, [s[|s| - 1]]);
    }
  }

  lemma SortStable(sortBy: string, s: seq<Fields>)
    ensures forall k :: WithKey(sortBy, k, SortDesc(sortBy, s)) == WithKey(sortBy, k, s)
  {
    forall k ensures WithKey(sortBy, k, SortDesc(sortBy, s)) == WithKey(sortBy, k, s) {
      SortDescStable(sortBy, k, s);
    }
  }

  /**
   * `sortImages(images, sortBy)`: 'size', 'width' and 'height' sort a copy in
   * descending order (missing dimensions count as 0), keeping images with
   * equal keys in input order as the stable `Array.prototype.sort` does; any
   * other key keeps the input order.
   */
  function SortImages(images: seq<Fields>, sortBy: string): (r: seq<Fields>)
    ensures multiset(r) == multiset(images)
    ensures sortBy in {"size", "width", "height"} ==> SortedDesc(sortBy, r)
    ensures sortBy in {"size", "width", "height"} ==> forall k :: WithKey(sortBy, k, r) == WithKey(sortBy, k, images)
    ensures sortBy !in {"size", "width", "height"} ==> r == images
  {
    if sortBy in {"size", "width", "height"} then SortStable(sortBy, images); SortDesc(sortBy, images) else images
  }

  /** Sorting by width puts the widest image first. */
  lemma WidestFirst(images: seq<Fields>, img: Fields)
    requires img in images
    ensures var r := SortImages(images, "width");
      |r| > 0 && Dim(r[0], "width") >= Dim(img, "width")
  {
    var r := SortImages(images, "width");
    assert img in multiset(r);
    var k :| 0 <= k < |r| && r[k] == img;
    if k > 0 {
      assert SortKey("width", r[0]) >= SortKey("width", r[k]);
    }
  }
}
