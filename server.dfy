/**
 * The TMDb proxy of the back end: the `/api/search`,
 * `/api/details/:mediaType/:id` and `/api/trending-picks` handlers.
 *
 * Every upstream request is a call of `fetch` on a URL; here `fetch` is a
 * function from URL to response that the handlers receive, and each handler
 * also returns the URLs it requested, in order. A handler's reply is either
 * the JSON it sends with status 200 or an error status with its message.
 */
module Server {
  import opened Wrappers
  import opened Text
  import Uri

  const TmdbBase: string := "https://api.themoviedb.org/3"
  const WatchPrefix: string := "https://www.youtube.com/watch?v="

  const KeyMissing: string := "Server configuration error: TMDB API Key missing."
  const QueryRequired: string := "Search query is required."
  const InvalidDetailsRequest: string := "Invalid ID or media type. Media type must be 'movie' or 'tv'."
  const UnparsedUpstreamError: string := "Failed to parse TMDb error response."
  const SearchFallback: string := "Failed to fetch from TMDb API."
  const DetailsFallback: string := "Failed to fetch details from TMDb API."
  const TrendingFallback: string := "Failed to fetch trending movies from TMDb API."
  const SearchInternal: string := "Internal server error. Failed to process movie search."
  const DetailsInternal: string := "Internal server error. Failed to fetch details or videos."
  const TrendingInternal: string := "Internal server error. Failed to process trending picks."

  const DefaultLanguage: string := "en-US"
  const DefaultMediaType: string := "movie"
  const DefaultLimit: int := 6

  // ---------------------------------------------------------------------
  // Values exchanged with TMDb and with clients
  // ---------------------------------------------------------------------

  /** A result entry from a TMDb list (search, trending or discover); absent fields are `None`. */
  datatype Item = Item(
    id: nat, title: Option<string>, name: Option<string>, overview: Option<string>,
    posterPath: Option<string>, backdropPath: Option<string>, voteAverage: Option<real>,
    releaseDate: Option<string>, firstAirDate: Option<string>, mediaType: Option<string>)

  /** An entry of a TMDb videos list. */
  datatype Video = Video(kind: Option<string>, site: Option<string>, key: string)

  /** A search result as the proxy returns it. */
  datatype MediaItem = MediaItem(
    id: nat, title: Option<string>, overview: Option<string>, posterPath: Option<string>,
    backdropPath: Option<string>, voteAverage: Option<real>, releaseDate: Option<string>,
    mediaType: Option<string>)

  /** A trending pick as the proxy returns it. */
  datatype Pick = Pick(
    id: nat, title: Option<string>, overview: Option<string>, posterPath: Option<string>,
    backdropPath: Option<string>, voteAverage: Option<real>, releaseDate: Option<string>,
    mediaType: string, trailerUrl: Option<string>)

  /** The details payload with the key of its trailer, if one was found. */
  datatype DetailsReply<D> = DetailsReply(data: D, trailerKey: Option<string>)

  /**
   * A response body: JSON that would not parse, or an object with an optional
   * `status_message` and the content the handler reads from it (the `results`
   * array, or the whole object for details).
   */
  datatype Body<T> = Unparseable | Object(statusMessage: Option<string>, content: T)

  /** What `fetch` gives: a rejected promise, or a response with its status and body. */
  datatype Response<T> = NetworkError | Http(status: int, body: Body<T>)

  /** What a handler sends. */
  datatype Reply<T> = Success(value: T) | Failure(status: int, error: string)

  /** `response.ok`. */
  predicate IsOk(status: int) {
    200 <= status <= 299
  }

  /**
   * The message sent with a forwarded upstream error:
   * `status_message` when it is present and not empty, the handler's fallback
   * otherwise, and a fixed message when the error body would not parse.
   */
  function ErrorMessage<T>(body: Body<T>, fallback: string): (m: string)
    ensures body.Unparseable? ==> m == UnparsedUpstreamError
    ensures body.Object? && Truthy(body.statusMessage) ==> m == body.statusMessage.value
    ensures body.Object? && !Truthy(body.statusMessage) ==> m == fallback
    ensures fallback != [] ==> m != []
  {
    match body
    case Unparseable => UnparsedUpstreamError
    case Object(message, _) => OrDefault(message, fallback)
  }

  /** The decimal digits of a number, as a template literal writes it. */
  function DecimalString(n: nat): (s: string)
    ensures s != []
    ensures forall i :: 0 <= i < |s| ==> '0' <= s[i] <= '9'
  {
    if n < 10 then [('0' as int + n) as char]
    else DecimalString(n / 10) + [('0' as int + n % 10) as char]
  }

  // ---------------------------------------------------------------------
  // Result reshaping
  // ---------------------------------------------------------------------

  /** The fields a search result keeps, with `title || name` and `release_date || first_air_date`. */
  function Normalize(item: Item): MediaItem {
    MediaItem(item.id, JsOr(item.title, item.name), item.overview, item.posterPath,
      item.backdropPath, item.voteAverage, JsOr(item.releaseDate, item.firstAirDate), item.mediaType)
  }

  predicate IsPerson(item: Item) {
    item.mediaType == Some("person")
  }

  /** `results.filter(item => item.media_type !== 'person').map(normalize)`. */
  function ProcessSearchResults(items: seq<Item>): (r: seq<MediaItem>)
  {
    if items == [] then []
    else (if IsPerson(items[0]) then [] else [Normalize(items[0])]) + ProcessSearchResults(items[1..])
  }

  /** The positions of the results that are not people, in increasing order. */
  function KeptPositions(items: seq<Item>, from: nat): (ps: seq<nat>)
    requires from <= |items|
    ensures forall k :: 0 <= k < |ps| ==> from <= ps[k] < |items| && !IsPerson(items[ps[k]])
    ensures forall k, l :: 0 <= k < l < |ps| ==> ps[k] < ps[l]
    ensures forall i :: from <= i < |items| && !IsPerson(items[i]) ==> i in ps
    decreases |items| - from
  {
    if from == |items| then []
    else (if IsPerson(items[from]) then [] else [from]) + KeptPositions(items, from + 1)
  }

  /**
   * The search output is the non-person results, in their input order, each
   * with `title || name`, `release_date || first_air_date` and its other fields
   * as they came; so no output entry has media type "person".
   */
  lemma {:induction false} ProcessSearchResultsSpec(items: seq<Item>)
    ensures var r := ProcessSearchResults(items);
      var ps := KeptPositions(items, 0);
      && |r| == |ps|
      && (forall k :: 0 <= k < |r| ==>
            var item := items[ps[k]];
            && r[k].id == item.id
            && r[k].title == JsOr(item.title, item.name)
            && r[k].releaseDate == JsOr(item.releaseDate, item.firstAirDate)
            && r[k].mediaType == item.mediaType
            && r[k].overview == item.overview && r[k].posterPath == item.posterPath
            && r[k].backdropPath == item.backdropPath && r[k].voteAverage == item.voteAverage)
      && (forall k :: 0 <= k < |r| ==> r[k].mediaType != Some("person"))
  {
    ProcessShifted(items, 0);
  }

  lemma {:induction false} ProcessShifted(items: seq<Item>, from: nat)
    requires from <= |items|
    ensures var r := ProcessSearchResults(items[from..]);
      var ps := KeptPositions(items, from);
      |r| == |ps| && forall k :: 0 <= k < |r| ==> r[k] == Normalize(items[ps[k]])
    decreases |items| - from
  {
    if from < |items| {
      ProcessShifted(items, from + 1);
      assert items[from..][1..] == items[from + 1..];
    }
  }

  /** Whether a video is a YouTube trailer. */
  predicate IsYouTubeTrailer(v: Video) {
    v.kind == Some("Trailer") && v.site == Some("YouTube")
  }

  /** `videos.find(v => v.type === 'Trailer' && v.site === 'YouTube')`, as a position. */
  function FindTrailer(videos: seq<Video>): (r: Option<nat>)
    ensures r.Some? ==> r.value < |videos| && IsYouTubeTrailer(videos[r.value])
    ensures r.Some? ==> forall j :: 0 <= j < r.value ==> !IsYouTubeTrailer(videos[j])
    ensures r.None? <==> forall j :: 0 <= j < |videos| ==> !IsYouTubeTrailer(videos[j])
  {
    if videos == [] then None
    else if IsYouTubeTrailer(videos[0]) then Some(0)
    else match FindTrailer(videos[1..])
      case None => None
      case Some(i) => Some(i + 1)
  }

  /** The YouTube page of a video key. */
  function WatchUrl(key: string): string {
    WatchPrefix + key
  }

  // ---------------------------------------------------------------------
  // Upstream URLs
  // ---------------------------------------------------------------------

  function SearchUrl(query: string, apiKey: string): string {
    TmdbBase + "/search/multi?query=" + Uri.EncodeUriComponent(query) + "&api_key=" + apiKey
  }

  function DetailsUrl(mediaType: string, id: string, apiKey: string): string {
    TmdbBase + "/" + mediaType + "/" + id + "?api_key=" + apiKey
  }

  function VideosUrl(mediaType: string, id: string, apiKey: string): string {
    TmdbBase + "/" + mediaType + "/" + id + "/videos?api_key=" + apiKey
  }

  function RegionSuffix(region: Option<string>): string {
    if Truthy(region) then "&region=" + region.value else ""
  }

  /** The list the trending picks come from: discover by original language, or the week's trending. */
  function TrendingUrl(apiKey: string, mediaType: string, language: Option<string>,
                       region: Option<string>, originalLanguage: Option<string>): string
  {
    if Truthy(originalLanguage) then
      TmdbBase + "/discover/" + mediaType + "?api_key=" + apiKey
      + "&language=" + OrDefault(language, DefaultLanguage)
      + "&sort_by=popularity.desc" + "&with_original_language=" + originalLanguage.value
      + RegionSuffix(region)
    else
      TmdbBase + "/trending/" + mediaType + "/week?api_key=" + apiKey
      + "&language=" + OrDefault(language, DefaultLanguage)
      + RegionSuffix(region)
  }

  /** The part of a URL before its first `?`. */
  function PathOf(url: string): string {
    match IndexOf(url, "?")
    case None => url
    case Some(i) => url[..i]
  }

  /** The part of a URL after its first `?`. */
  function QueryOf(url: string): string {
    match IndexOf(url, "?")
    case None => []
    case Some(i) => url[i + 1..]
  }

  /** The value of the first `name=value` pair, as `URLSearchParams.get` reads it (without decoding). */
  function Param(pairs: seq<string>, name: string): Option<string> {
    if pairs == [] then None
    else if name + "=" <= pairs[0] then Some(pairs[0][|name| + 1..])
    else Param(pairs[1..], name)
  }

  function QueryParam(url: string, name: string): Option<string> {
    Param(Split(QueryOf(url), "&"), name)
  }

  predicate NoAmpersand(o: Option<string>) {
    o.Some? ==> '&' !in o.value
  }

  /** The endpoint part of the trending-picks list URL. */
  function TrendingPath(mediaType: string, originalLanguage: Option<string>): string {
    if Truthy(originalLanguage) then TmdbBase + "/discover/" + mediaType
    else TmdbBase + "/trending/" + mediaType + "/week"
  }

  /** The parameters the endpoint takes, in the template's order. */
  function EndpointParams(apiKey: string, language: Option<string>, originalLanguage: Option<string>): seq<string> {
    var common := ["api_key=" + apiKey, "language=" + OrDefault(language, DefaultLanguage)];
    if Truthy(originalLanguage)
    then common + ["sort_by=popularity.desc"] + ["with_original_language=" + originalLanguage.value]
    else common
  }

  /** `params`, followed by the region when one is given. */
  function WithRegion(params: seq<string>, region: Option<string>): seq<string> {
    if Truthy(region) then params + ["region=" + region.value] else params
  }

  /** The query parameters the trending-picks list URL carries, in order. */
  function TrendingParams(apiKey: string, language: Option<string>, region: Option<string>,
                          originalLanguage: Option<string>): seq<string>
  {
    WithRegion(EndpointParams(apiKey, language, originalLanguage), region)
  }

  // Writing the list URL as its path, a `?` and its parameters joined by `&`.

  lemma QueryLiterals()
    ensures "?api_key=" == "?" + "api_key="
    ensures "&language=" == "&" + "language="
    ensures "&region=" == "&" + "region="
  {
  }

  lemma DiscoverLiterals()
    ensures "&sort_by=popularity.desc" == "&" + "sort_by=popularity.desc"
    ensures "&with_original_language=" == "&" + "with_original_language="
  {
  }

  /** Each parameter name followed by `=`, as the template writes it. */
  lemma NameLiterals()
    ensures "api_key=" == "api_key" + "=" && "language=" == "language" + "="
    ensures "sort_by=" == "sort_by" + "=" && "region=" == "region" + "="
    ensures "with_original_language=" == "with_original_language" + "="
    ensures "sort_by=popularity.desc" == "sort_by=" + "popularity.desc"
  {
  }

  /** Appending `&pair` to a URL whose query joins `params` appends the pair to them. */
  lemma AppendPair(url: string, path: string, params: seq<string>, ampPair: string, pair: string)
    requires params != [] && url == path + "?" + Join(params, "&") && ampPair == "&" + pair
    ensures url + ampPair == path + "?" + Join(params + [pair], "&")
  {
    JoinSnoc(params, pair, "&");
  }

  /** Appending `&name=` and a value appends the pair `name=value`. */
  lemma AppendParam(url: string, path: string, params: seq<string>, ampName: string, name: string, v: string)
    requires params != [] && url == path + "?" + Join(params, "&") && ampName == "&" + name
    ensures url + ampName + v == path + "?" + Join(params + [name + v], "&")
  {
    AppendPair(url, path, params, ampName + v, name + v);
  }

  /** The URL up to the language, as the template writes it, joins the two common parameters. */
  lemma CommonAsJoin(path: string, apiKey: string, lang: string)
    ensures path + "?api_key=" + apiKey + "&language=" + lang
         == path + "?" + Join(["api_key=" + apiKey, "language=" + lang], "&")
  {
    QueryLiterals();
    var first := ["api_key=" + apiKey];
    assert path + "?api_key=" + apiKey == path + "?" + Join(first, "&");
    AppendParam(path + "?api_key=" + apiKey, path, first, "&language=", "language=", lang);
    assert first + ["language=" + lang] == ["api_key=" + apiKey, "language=" + lang];
  }

  /** The discover URL's endpoint part joins the endpoint parameters. */
  lemma DiscoverAsJoin(path: string, apiKey: string, lang: string, common: seq<string>, orig: string)
    requires common == ["api_key=" + apiKey, "language=" + lang]
    ensures path + "?api_key=" + apiKey + "&language=" + lang
            + "&sort_by=popularity.desc" + "&with_original_language=" + orig
         == path + "?" + Join(common + ["sort_by=popularity.desc"] + ["with_original_language=" + orig], "&")
  {
    CommonAsJoin(path, apiKey, lang);
    DiscoverLiterals();
    var url := path + "?api_key=" + apiKey + "&language=" + lang;
    AppendPair(url, path, common, "&sort_by=popularity.desc", "sort_by=popularity.desc");
    AppendParam(url + "&sort_by=popularity.desc", path, common + ["sort_by=popularity.desc"],
      "&with_original_language=", "with_original_language=", orig);
  }

  /** Appending the region suffix appends the region parameter, when there is one. */
  lemma RegionAsJoin(url: string, path: string, params: seq<string>, region: Option<string>)
    requires params != [] && url == path + "?" + Join(params, "&")
    ensures url + RegionSuffix(region) == path + "?" + Join(WithRegion(params, region), "&")
  {
    if Truthy(region) {
      QueryLiterals();
      AppendParam(url, path, params, "&region=", "region=", region.value);
    } else {
      assert url + RegionSuffix(region) == url;
    }
  }

  lemma DiscoverUrlAsJoin(apiKey: string, mediaType: string, language: Option<string>,
                          region: Option<string>, originalLanguage: Option<string>)
    requires Truthy(originalLanguage)
    ensures TrendingUrl(apiKey, mediaType, language, region, originalLanguage)
      == TrendingPath(mediaType, originalLanguage)
         + "?" + Join(TrendingParams(apiKey, language, region, originalLanguage), "&")
  {
    var path := TmdbBase + "/discover/" + mediaType;
    var lang := OrDefault(language, DefaultLanguage);
    var common := ["api_key=" + apiKey, "language=" + lang];
    var params := common + ["sort_by=popularity.desc"] + ["with_original_language=" + originalLanguage.value];
    var url := path + "?api_key=" + apiKey + "&language=" + lang
      + "&sort_by=popularity.desc" + "&with_original_language=" + originalLanguage.value;
    assert url == path + "?" + Join(params, "&") by {
      DiscoverAsJoin(path, apiKey, lang, common, originalLanguage.value);
    }
    RegionAsJoin(url, path, params, region);
  }

  lemma WeekUrlAsJoin(apiKey: string, mediaType: string, language: Option<string>,
                      region: Option<string>, originalLanguage: Option<string>)
    requires !Truthy(originalLanguage)
    ensures TrendingUrl(apiKey, mediaType, language, region, originalLanguage)
      == TrendingPath(mediaType, originalLanguage)
         + "?" + Join(TrendingParams(apiKey, language, region, originalLanguage), "&")
  {
    var path := TmdbBase + "/trending/" + mediaType + "/week";
    var lang := OrDefault(language, DefaultLanguage);
    var params := ["api_key=" + apiKey, "language=" + lang];
    var url := path + "?api_key=" + apiKey + "&language=" + lang;
    assert TrendingPath(mediaType, originalLanguage) == path;
    assert TrendingUrl(apiKey, mediaType, language, region, originalLanguage) == url + RegionSuffix(region);
    assert TrendingParams(apiKey, language, region, originalLanguage) == WithRegion(params, region);
    assert url == path + "?" + Join(params, "&") by {
      CommonAsJoin(path, apiKey, lang);
    }
    RegionAsJoin(url, path, params, region);
  }

  lemma TrendingPathHasNoQuery(mediaType: string, originalLanguage: Option<string>)
    requires '?' !in mediaType
    ensures '?' !in TrendingPath(mediaType, originalLanguage)
  {
    assert '?' !in TmdbBase;
  }

  /** A URL whose path holds no `?` splits back into that path and that query. */
  lemma PathAndQuery(path: string, query: string)
    requires '?' !in path
    ensures PathOf(path + "?" + query) == path && QueryOf(path + "?" + query) == query
  {
    IndexOfAfter(path, "?", query);
    var url := path + "?" + query;
    assert url[..|path|] == path;
    assert url[|path| + 1..] == query;
  }

  // Reading the parameters back.

  /** Looking up a name in a list with one more pair: an earlier pair wins. */
  lemma {:induction false} ParamSnoc(pairs: seq<string>, pair: string, name: string)
    ensures Param(pairs + [pair], name)
      == if Param(pairs, name).Some? then Param(pairs, name)
         else if name + "=" <= pair then Some(pair[|name| + 1..]) else None
    decreases |pairs|
  {
    if pairs == [] {
      assert [] + [pair] == [pair];
    } else {
      assert (pairs + [pair])[1..] == pairs[1..] + [pair];
      ParamSnoc(pairs[1..], pair, name);
    }
  }

  /** A pair that starts with another character than the name is not that name's pair. */
  lemma OtherInitial(name: string, pair: string)
    requires name != [] && pair != [] && name[0] != pair[0]
    ensures !(name + "=" <= pair)
  {
    assert (name + "=")[0] == name[0];
  }

  /** `name=` followed by a value is that name's pair, and holds that value. */
  lemma NamedPair(name: string, prefix: string, v: string)
    requires prefix == name + "="
    ensures name + "=" <= prefix + v && (prefix + v)[|name| + 1..] == v
  {
    assert (prefix + v)[..|prefix|] == prefix;
  }

  /** A pair added after the first pair for `name` changes nothing for it. */
  lemma ParamAfter(pairs: seq<string>, pair: string, name: string)
    requires Param(pairs, name).Some?
    ensures Param(pairs + [pair], name) == Param(pairs, name)
  {
    ParamSnoc(pairs, pair, name);
  }

  /** A pair starting with another character than `name` changes nothing for it. */
  lemma ParamSkip(pairs: seq<string>, pair: string, name: string)
    requires name != [] && pair != [] && name[0] != pair[0]
    ensures Param(pairs + [pair], name) == Param(pairs, name)
  {
    ParamSnoc(pairs, pair, name);
    OtherInitial(name, pair);
  }

  /** The first `name=value` pair for a name not seen before gives that value. */
  lemma ParamFound(pairs: seq<string>, name: string, prefix: string, v: string)
    requires Param(pairs, name).None? && prefix == name + "="
    ensures Param(pairs + [prefix + v], name) == Some(v)
  {
    ParamSnoc(pairs, prefix + v, name);
    NamedPair(name, prefix, v);
  }

  /** The region parameter leaves a name other than `region` as it was. */
  lemma RegionSkip(params: seq<string>, region: Option<string>, name: string)
    requires name != [] && name[0] != 'r'
    ensures Param(WithRegion(params, region), name) == Param(params, name)
  {
    if Truthy(region) {
      ParamSkip(params, "region=" + region.value, name);
    }
  }

  lemma CommonLookup(apiKey: string, lang: string)
    ensures var common := ["api_key=" + apiKey, "language=" + lang];
      && Param(common, "api_key") == Some(apiKey)
      && Param(common, "language") == Some(lang)
      && Param(common, "sort_by") == None
      && Param(common, "with_original_language") == None
      && Param(common, "region") == None
  {
    NameLiterals();
    var a := "api_key=" + apiKey;
    var l := "language=" + lang;
    var first := [] + [a];
    assert first + [l] == ["api_key=" + apiKey, "language=" + lang];
    ParamFound([], "api_key", "api_key=", apiKey);
    ParamAfter(first, l, "api_key");
    ParamSkip([], a, "language");
    ParamFound(first, "language", "language=", lang);
    ParamSkip([], a, "sort_by");
    ParamSkip(first, l, "sort_by");
    ParamSkip([], a, "with_original_language");
    ParamSkip(first, l, "with_original_language");
    ParamSkip([], a, "region");
    ParamSkip(first, l, "region");
  }

  lemma DiscoverLookup(common: seq<string>, apiKey: string, lang: string, orig: string)
    requires common == ["api_key=" + apiKey, "language=" + lang]
    ensures var params := common + ["sort_by=popularity.desc"] + ["with_original_language=" + orig];
      && Param(params, "api_key") == Some(apiKey)
      && Param(params, "language") == Some(lang)
      && Param(params, "sort_by") == Some("popularity.desc")
      && Param(params, "with_original_language") == Some(orig)
      && Param(params, "region") == None
  {
    CommonLookup(apiKey, lang);
    NameLiterals();
    var sort := "sort_by=popularity.desc";
    var withSort := common + [sort];
    var w := "with_original_language=" + orig;
    ParamAfter(common, sort, "api_key");
    ParamAfter(withSort, w, "api_key");
    ParamAfter(common, sort, "language");
    ParamAfter(withSort, w, "language");
    ParamFound(common, "sort_by", "sort_by=", "popularity.desc");
    ParamAfter(withSort, w, "sort_by");
    ParamSkip(common, sort, "with_original_language");
    ParamFound(withSort, "with_original_language", "with_original_language=", orig);
    ParamSkip(common, sort, "region");
    ParamSkip(withSort, w, "region");
  }

  lemma EndpointLookup(apiKey: string, language: Option<string>, originalLanguage: Option<string>)
    ensures var params := EndpointParams(apiKey, language, originalLanguage);
      && Param(params, "api_key") == Some(apiKey)
      && Param(params, "language") == Some(OrDefault(language, DefaultLanguage))
      && Param(params, "sort_by") == (if Truthy(originalLanguage) then Some("popularity.desc") else None)
      && Param(params, "with_original_language") == (if Truthy(originalLanguage) then originalLanguage else None)
      && Param(params, "region") == None
  {
    var lang := OrDefault(language, DefaultLanguage);
    if Truthy(originalLanguage) {
      DiscoverLookup(["api_key=" + apiKey, "language=" + lang], apiKey, lang, originalLanguage.value);
    } else {
      CommonLookup(apiKey, lang);
    }
  }

  lemma TrendingParamsLookup(apiKey: string, language: Option<string>,
                             region: Option<string>, originalLanguage: Option<string>)
    ensures var params := TrendingParams(apiKey, language, region, originalLanguage);
      && Param(params, "api_key") == Some(apiKey)
      && Param(params, "language") == Some(OrDefault(language, DefaultLanguage))
      && Param(params, "sort_by") == (if Truthy(originalLanguage) then Some("popularity.desc") else None)
      && Param(params, "with_original_language") == (if Truthy(originalLanguage) then originalLanguage else None)
      && Param(params, "region") == (if Truthy(region) then region else None)
  {
    var params := EndpointParams(apiKey, language, originalLanguage);
    EndpointLookup(apiKey, language, originalLanguage);
    RegionSkip(params, region, "api_key");
    RegionSkip(params, region, "language");
    RegionSkip(params, region, "sort_by");
    RegionSkip(params, region, "with_original_language");
    if Truthy(region) {
      NameLiterals();
      ParamFound(params, "region", "region=", region.value);
    }
  }

  lemma TrendingParamsNoAmpersand(apiKey: string, language: Option<string>,
                                  region: Option<string>, originalLanguage: Option<string>)
    requires '&' !in apiKey
    requires NoAmpersand(language) && NoAmpersand(region) && NoAmpersand(originalLanguage)
    ensures var params := TrendingParams(apiKey, language, region, originalLanguage);
      params != [] && forall i :: 0 <= i < |params| ==> '&' !in params[i]
  {
    var lang := OrDefault(language, DefaultLanguage);
    assert '&' !in lang by {
      assert '&' !in DefaultLanguage;
    }
    var common := ["api_key=" + apiKey, "language=" + lang];
    assert NoneHasAmpersand(common) by {
      NoAmpersandJoined("api_key=", apiKey);
      NoAmpersandJoined("language=", lang);
    }
    var params := EndpointParams(apiKey, language, originalLanguage);
    assert NoneHasAmpersand(params) by {
      if Truthy(originalLanguage) {
        assert '&' !in "sort_by=popularity.desc";
        NoAmpersandJoined("with_original_language=", originalLanguage.value);
      }
    }
    if Truthy(region) {
      NoAmpersandJoined("region=", region.value);
    }
  }

  predicate NoneHasAmpersand(params: seq<string>) {
    forall i :: 0 <= i < |params| ==> '&' !in params[i]
  }

  lemma NoAmpersandJoined(a: string, b: string)
    requires '&' !in a && '&' !in b
    ensures '&' !in a + b
  {
  }

  /**
   * Read back as a URL, the trending-picks list URL names the discover
   * endpoint exactly when an original language is given (the week's trending
   * list otherwise), carries the API key, the language with `en-US` as its
   * default, the popularity sort and original language only for discover, and
   * a region only when one is given; this holds when no value contains `&`
   * and the media type contains no `?`.
   */
  lemma TrendingUrlQuery(apiKey: string, mediaType: string, language: Option<string>,
                         region: Option<string>, originalLanguage: Option<string>)
    requires '?' !in mediaType && '&' !in apiKey
    requires NoAmpersand(language) && NoAmpersand(region) && NoAmpersand(originalLanguage)
    ensures var url := TrendingUrl(apiKey, mediaType, language, region, originalLanguage);
      && PathOf(url) == (if Truthy(originalLanguage) then TmdbBase + "/discover/" + mediaType
                         else TmdbBase + "/trending/" + mediaType + "/week")
      && QueryParam(url, "api_key") == Some(apiKey)
      && QueryParam(url, "language") == Some(OrDefault(language, DefaultLanguage))
      && QueryParam(url, "sort_by") == (if Truthy(originalLanguage) then Some("popularity.desc") else None)
      && QueryParam(url, "with_original_language") == (if Truthy(originalLanguage) then originalLanguage else None)
      && QueryParam(url, "region") == (if Truthy(region) then region else None)
  {
    var path := TrendingPath(mediaType, originalLanguage);
    var params := TrendingParams(apiKey, language, region, originalLanguage);
    if Truthy(originalLanguage) {
      DiscoverUrlAsJoin(apiKey, mediaType, language, region, originalLanguage);
    } else {
      WeekUrlAsJoin(apiKey, mediaType, language, region, originalLanguage);
    }
    TrendingPathHasNoQuery(mediaType, originalLanguage);
    PathAndQuery(path, Join(params, "&"));
    TrendingParamsNoAmpersand(apiKey, language, region, originalLanguage);
    SplitJoin(params, '&');
    TrendingParamsLookup(apiKey, language, region, originalLanguage);
  }

  // ---------------------------------------------------------------------
  // parseInt
  // ---------------------------------------------------------------------

  /** The value of a digit character in bases up to 36. */
  function DigitValue(c: char): Option<nat> {
    if '0' <= c <= '9' then Some(c as int - '0' as int)
    else if 'a' <= c <= 'z' then Some(c as int - 'a' as int + 10)
    else if 'A' <= c <= 'Z' then Some(c as int - 'A' as int + 10)
    else None
  }

  predicate IsDigitIn(c: char, radix: nat) {
    DigitValue(c).Some? && DigitValue(c).value < radix
  }

  /** The longest prefix of `s` made of digits of `radix`. */
  function DigitPrefix(s: string, radix: nat): (ds: string)
    ensures ds <= s
    ensures forall i :: 0 <= i < |ds| ==> IsDigitIn(ds[i], radix)
    ensures |ds| < |s| ==> !IsDigitIn(s[|ds|], radix)
  {
    if s != [] && IsDigitIn(s[0], radix) then [s[0]] + DigitPrefix(s[1..], radix) else []
  }

  /** The number written by digits of `radix`, most significant first. */
  function DigitsValue(ds: string, radix: nat): nat {
    if ds == [] then 0
    else DigitsValue(ds[..|ds| - 1], radix) * radix + DigitValue(ds[|ds| - 1]).GetOr(0)
  }

  /** Digits after any sign: hexadecimal after `0x` or `0X`, decimal otherwise. */
  function ParseUnsigned(u: string): Option<nat> {
    var hex := |u| >= 2 && u[0] == '0' && (u[1] == 'x' || u[1] == 'X');
    var radix := if hex then 16 else 10;
    var ds := DigitPrefix(if hex then u[2..] else u, radix);
    if ds == [] then None else Some(DigitsValue(ds, radix))
  }

  function Negate(o: Option<nat>): Option<int> {
    match o
    case None => None
    case Some(v) => var w: int := v; Some(-w)
  }

  function AsInt(o: Option<nat>): Option<int> {
    match o
    case None => None
    case Some(v) => Some(v)
  }

  /**
   * `parseInt(s)` with no radix: leading white space, an optional sign, `0x`
   * for hexadecimal, then as many digits as there are; `None` stands for NaN.
   */
  function ParseInt(s: string): Option<int> {
    var t := TrimStart(s);
    if t != [] && t[0] == '-' then Negate(ParseUnsigned(t[1..]))
    else if t != [] && t[0] == '+' then AsInt(ParseUnsigned(t[1..]))
    else AsInt(ParseUnsigned(t))
  }

  lemma {:induction false} DecimalDigitsValue(n: nat)
    ensures forall i :: 0 <= i < |DecimalString(n)| ==> IsDigitIn(DecimalString(n)[i], 10)
    ensures DigitsValue(DecimalString(n), 10) == n
  {
    var s := DecimalString(n);
    if n >= 10 {
      DecimalDigitsValue(n / 10);
      assert s[..|s| - 1] == DecimalString(n / 10);
    }
  }

  lemma {:induction false} NoLeadingZero(n: nat)
    requires n >= 1
    ensures DecimalString(n)[0] != '0'
  {
    if n >= 10 {
      NoLeadingZero(n / 10);
    }
  }

  lemma {:induction false} DigitPrefixStops(ds: string, rest: string, radix: nat)
    requires forall i :: 0 <= i < |ds| ==> IsDigitIn(ds[i], radix)
    requires rest == [] || !IsDigitIn(rest[0], radix)
    ensures DigitPrefix(ds + rest, radix) == ds
    decreases |ds|
  {
    if ds == [] {
      assert ds + rest == rest;
    } else {
      assert (ds + rest)[1..] == ds[1..] + rest;
      DigitPrefixStops(ds[1..], rest, radix);
    }
  }

  /** The digits of a number, then something that is not a digit, read as that number. */
  lemma ParseUnsignedDecimalThen(n: nat, rest: string)
    requires rest == [] || !IsDigitIn(rest[0], 10)
    requires n == 0 && rest != [] ==> rest[0] != 'x' && rest[0] != 'X'
    ensures ParseUnsigned(DecimalString(n) + rest) == Some(n)
  {
    var ds := DecimalString(n);
    var u := ds + rest;
    if n >= 1 {
      NoLeadingZero(n);
    } else {
      assert ds == "0";
    }
    assert !(|u| >= 2 && u[0] == '0' && (u[1] == 'x' || u[1] == 'X'));
    DecimalDigitsValue(n);
    DigitPrefixStops(ds, rest, 10);
  }

  lemma DigitIsNotSign(c: char)
    requires '0' <= c <= '9'
    ensures !IsSpace(c) && c != '-' && c != '+'
  {
  }

  lemma SignIsNotSpace(sign: char)
    requires sign == '-' || sign == '+'
    ensures !IsSpace(sign)
  {
  }

  /** White space before a sign or a digit does not change what `parseInt` reads. */
  lemma ParseIntAfterSpace(ws: string, u: string)
    requires AllSpace(ws) && (u == [] || !IsSpace(u[0]))
    ensures ParseInt(ws + u) == ParseInt(u)
  {
    TrimStartAfterSpace(ws, u);
    TrimStartNonSpace(u);
  }

  /** With no sign, `parseInt` reads the digits that follow the white space. */
  lemma ParseIntUnsigned(ws: string, v: string)
    requires AllSpace(ws)
    requires v == [] || (!IsSpace(v[0]) && v[0] != '-' && v[0] != '+')
    ensures ParseInt(ws + v) == AsInt(ParseUnsigned(v))
  {
    TrimStartNonSpace(v);
    ParseIntAfterSpace(ws, v);
  }

  lemma ParseIntSignFirst(sign: char, v: string)
    requires sign == '-' || sign == '+'
    requires v == [] || (!IsSpace(v[0]) && v[0] != '-' && v[0] != '+')
    ensures ParseInt([sign] + v) == if sign == '-' then Negate(ParseUnsigned(v)) else AsInt(ParseUnsigned(v))
  {
    var u := [sign] + v;
    assert u[0] == sign && u[1..] == v;
    TrimStartNonSpace(u);
  }

  /** A `-` after the white space negates the digits that follow it, a `+` keeps them. */
  lemma ParseIntSigned(ws: string, sign: char, v: string)
    requires AllSpace(ws)
    requires sign == '-' || sign == '+'
    requires v == [] || (!IsSpace(v[0]) && v[0] != '-' && v[0] != '+')
    ensures ParseInt(ws + ([sign] + v)) == if sign == '-' then Negate(ParseUnsigned(v)) else AsInt(ParseUnsigned(v))
  {
    ParseIntSignFirst(sign, v);
    SignIsNotSpace(sign);
    assert ([sign] + v)[0] == sign;
    ParseIntAfterSpace(ws, [sign] + v);
  }

  lemma SignApplied(x: Option<int>, sign: char, o: Option<nat>, n: nat)
    requires o == Some(n)
    requires x == if sign == '-' then Negate(o) else AsInt(o)
    ensures x == Some(if sign == '-' then -(n as int) else n as int)
  {
  }

  /**
   * `parseInt` skips leading white space and reads the decimal digits up to
   * the first character that is not one, ignoring the rest; `0` followed by
   * `x` starts a hexadecimal number instead and is excluded here.
   */
  lemma ParseIntLeadingNumber(ws: string, n: nat, rest: string)
    requires AllSpace(ws)
    requires rest == [] || !IsDigitIn(rest[0], 10)
    requires n == 0 && rest != [] ==> rest[0] != 'x' && rest[0] != 'X'
    ensures ParseInt(ws + DecimalString(n) + rest) == Some(n)
  {
    var ds := DecimalString(n);
    var v := ds + rest;
    assert ParseInt(ws + v) == Some(n) by {
      assert v[0] == ds[0];
      DigitIsNotSign(v[0]);
      ParseIntUnsigned(ws, v);
      ParseUnsignedDecimalThen(n, rest);
    }
    Regroup3(ws, ds, rest);
  }

  /** The same with a sign before the digits: `-` negates the number, `+` keeps it. */
  lemma ParseIntSignedNumber(ws: string, sign: char, n: nat, rest: string)
    requires AllSpace(ws)
    requires sign == '-' || sign == '+'
    requires rest == [] || !IsDigitIn(rest[0], 10)
    requires n == 0 && rest != [] ==> rest[0] != 'x' && rest[0] != 'X'
    ensures ParseInt(ws + [sign] + DecimalString(n) + rest) == Some(if sign == '-' then -(n as int) else n as int)
  {
    var ds := DecimalString(n);
    var v := ds + rest;
    assert ParseInt(ws + ([sign] + v)) == Some(if sign == '-' then -(n as int) else n as int) by {
      assert v[0] == ds[0];
      DigitIsNotSign(v[0]);
      ParseUnsignedDecimalThen(n, rest);
      ParseIntSigned(ws, sign, v);
      SignApplied(ParseInt(ws + ([sign] + v)), sign, ParseUnsigned(v), n);
    }
    Regroup(ws, [sign], ds, rest);
  }

  /** With no digit after the white space, `parseInt` gives NaN. */
  lemma ParseIntNoDigits(ws: string, rest: string)
    requires AllSpace(ws)
    requires rest == [] || (!IsDigitIn(rest[0], 10) && !IsSpace(rest[0]) && rest[0] != '-' && rest[0] != '+')
    ensures ParseInt(ws + rest) == None
  {
    ParseIntUnsigned(ws, rest);
    assert rest != [] ==> rest[0] != '0';
  }

  /** With no digit after the sign, `parseInt` gives NaN. */
  lemma ParseIntSignNoDigits(ws: string, sign: char, rest: string)
    requires AllSpace(ws)
    requires sign == '-' || sign == '+'
    requires rest == [] || (!IsDigitIn(rest[0], 10) && !IsSpace(rest[0]) && rest[0] != '-' && rest[0] != '+')
    ensures ParseInt(ws + [sign] + rest) == None
  {
    assert ParseInt(ws + ([sign] + rest)) == None by {
      ParseIntSigned(ws, sign, rest);
      assert rest != [] ==> rest[0] != '0';
    }
    assert ws + [sign] + rest == ws + ([sign] + rest);
  }

  /** `parseInt` reads back the decimal form of every number, as a client sends `limit`. */
  lemma ParseIntDecimal(n: nat)
    ensures ParseInt(DecimalString(n)) == Some(n)
  {
    ParseIntLeadingNumber([], n, []);
    assert [] + DecimalString(n) + [] == DecimalString(n);
  }

  /** The `limit` the trending picks are cut to: 6 when absent, else `parseInt` of it. */
  function LimitOf(limit: Option<string>): Option<int> {
    match limit
    case None => Some(DefaultLimit)
    case Some(text) => ParseInt(text)
  }

  /** `results.slice(0, parseInt(limit))`, where NaN counts as 0. */
  function TopPicks(results: seq<Item>, limit: Option<string>): (picks: seq<Item>)
    ensures picks <= results
    ensures limit.None? ==> |picks| == if |results| < DefaultLimit then |results| else DefaultLimit
    ensures LimitOf(limit).None? ==> picks == []
    ensures LimitOf(limit).Some? && LimitOf(limit).value >= 0 ==>
      |picks| == if LimitOf(limit).value < |results| then LimitOf(limit).value else |results|
    ensures LimitOf(limit).Some? && LimitOf(limit).value < 0 ==>
      |picks| == if |results| + LimitOf(limit).value < 0 then 0 else |results| + LimitOf(limit).value
  {
    SliceTo(results, LimitOf(limit).GetOr(0))
  }

  /** A `limit` sent as the decimal form of a count keeps the first that many results. */
  lemma TopPicksOfCount(results: seq<Item>, n: nat)
    ensures TopPicks(results, Some(DecimalString(n))) == results[..if n < |results| then n else |results|]
  {
    ParseIntDecimal(n);
  }

  // ---------------------------------------------------------------------
  // Trailer enrichment of one pick
  // ---------------------------------------------------------------------

  /**
   * The `trailerUrl` of a pick from its videos response: the watch URL of the
   * first YouTube trailer, and null whenever the fetch fails, the response is
   * not OK, its body will not parse or has no `results`, or there is no trailer.
   */
  function TrailerUrlOf(videos: Response<Option<seq<Video>>>): (url: Option<string>)
    ensures url.Some? <==>
      videos.Http? && IsOk(videos.status) && videos.body.Object? && videos.body.content.Some?
      && FindTrailer(videos.body.content.value).Some?
    ensures url.Some? ==>
      var vs := videos.body.content.value;
      url.value == WatchUrl(vs[FindTrailer(vs).value].key)
  {
    match videos
    case NetworkError => None
    case Http(status, body) =>
      if !IsOk(status) then None
      else match body
        case Unparseable => None
        case Object(_, None) => None
        case Object(_, Some(vs)) =>
          match FindTrailer(vs)
          case None => None
          case Some(i) => Some(WatchUrl(vs[i].key))
  }

  function PickOf(item: Item, mediaType: string, trailerUrl: Option<string>): Pick {
    Pick(item.id, JsOr(item.title, item.name), item.overview, item.posterPath, item.backdropPath,
      item.voteAverage, JsOr(item.releaseDate, item.firstAirDate), mediaType, trailerUrl)
  }

  function PickVideosUrl(item: Item, mediaType: string, apiKey: string): string {
    VideosUrl(mediaType, DecimalString(item.id), apiKey)
  }

  // ---------------------------------------------------------------------
  // Handlers
  // ---------------------------------------------------------------------

  /** `GET /api/search?query=…`. */
  method Search(apiKey: Option<string>, query: Option<string>,
                fetch: string -> Response<Option<seq<Item>>>)
    returns (reply: Reply<seq<MediaItem>>, calls: seq<string>)
    ensures !Truthy(apiKey) ==> reply == Failure(500, KeyMissing) && calls == []
    ensures Truthy(apiKey) && !Truthy(query) ==> reply == Failure(400, QueryRequired) && calls == []
    ensures Truthy(apiKey) && Truthy(query) ==>
      var url := SearchUrl(query.value, apiKey.value);
      var response := fetch(url);
      && calls == [url]
      && (response.NetworkError? ==> reply == Failure(500, SearchInternal))
      && (response.Http? && !IsOk(response.status) ==>
            reply == Failure(response.status, ErrorMessage(response.body, SearchFallback)))
      && (response.Http? && IsOk(response.status) ==>
            if response.body.Object? && response.body.content.Some?
            then reply == Success(ProcessSearchResults(response.body.content.value))
            else reply == Failure(500, SearchInternal))
  {
    calls := [];
    if !Truthy(apiKey) {
      return Failure(500, KeyMissing), calls;
    }
    if !Truthy(query) {
      return Failure(400, QueryRequired), calls;
    }
    var url := SearchUrl(query.value, apiKey.value);
    calls := calls + [url];
    var searchRes := fetch(url);
    if searchRes.NetworkError? {
      return Failure(500, SearchInternal), calls;
    }
    if !IsOk(searchRes.status) {
      return Failure(searchRes.status, ErrorMessage(searchRes.body, SearchFallback)), calls;
    }
    match searchRes.body {
      case Object(_, Some(results)) =>
        reply := Success(ProcessSearchResults(results));
      case _ =>
        reply := Failure(500, SearchInternal);
    }
  }

  /** `GET /api/details/:mediaType/:id`: the details with the key of the first YouTube trailer. */
  method Details<D>(apiKey: Option<string>, mediaType: string, id: string,
                    fetchDetails: string -> Response<D>,
                    fetchVideos: string -> Response<Option<seq<Video>>>)
    returns (reply: Reply<DetailsReply<D>>, calls: seq<string>)
    ensures !Truthy(apiKey) ==> reply == Failure(500, KeyMissing) && calls == []
    ensures Truthy(apiKey) && (id == [] || mediaType !in {"movie", "tv"}) ==>
      reply == Failure(400, InvalidDetailsRequest) && calls == []
    ensures reply.Success? ==>
      var detailsUrl := DetailsUrl(mediaType, id, apiKey.value);
      var videosUrl := VideosUrl(mediaType, id, apiKey.value);
      var videos := fetchVideos(videosUrl);
      && Truthy(apiKey) && mediaType in {"movie", "tv"} && id != []
      && calls == [detailsUrl, videosUrl]
      && fetchDetails(detailsUrl).Http? && IsOk(fetchDetails(detailsUrl).status)
      && fetchDetails(detailsUrl).body.Object? && fetchDetails(detailsUrl).body.content == reply.value.data
      && videos.Http?
      && (IsOk(videos.status) ==> videos.body.Object? && videos.body.content.Some?)
      && (reply.value.trailerKey.Some? <==>
            IsOk(videos.status) && FindTrailer(videos.body.content.value).Some?)
      && (reply.value.trailerKey.Some? ==>
            var vs := videos.body.content.value;
            reply.value.trailerKey.value == vs[FindTrailer(vs).value].key)
    ensures Truthy(apiKey) && mediaType in {"movie", "tv"} && id != [] ==>
      var detailsUrl := DetailsUrl(mediaType, id, apiKey.value);
      var response := fetchDetails(detailsUrl);
      && |calls| >= 1 && calls[0] == detailsUrl
      && (response.NetworkError? ==> reply == Failure(500, DetailsInternal))
      && (response.Http? && !IsOk(response.status) ==>
            reply == Failure(response.status, ErrorMessage(response.body, DetailsFallback))
            && calls == [detailsUrl])
      && (response.Http? && IsOk(response.status) && response.body.Object? ==>
            var videos := fetchVideos(VideosUrl(mediaType, id, apiKey.value));
            videos.Http? && !IsOk(videos.status) ==>
              reply == Success(DetailsReply(response.body.content, None)))
    ensures Truthy(apiKey) && mediaType in {"movie", "tv"} && id != [] ==>
      var detailsUrl := DetailsUrl(mediaType, id, apiKey.value);
      var videosUrl := VideosUrl(mediaType, id, apiKey.value);
      var response := fetchDetails(detailsUrl);
      var videos := fetchVideos(videosUrl);
      && (response.NetworkError? ==> calls == [detailsUrl])
      && (response.Http? && IsOk(response.status) && response.body.Unparseable? ==>
            reply == Failure(500, DetailsInternal) && calls == [detailsUrl])
      && (response.Http? && IsOk(response.status) && response.body.Object? ==>
            && calls == [detailsUrl, videosUrl]
            && (videos.NetworkError? ==> reply == Failure(500, DetailsInternal))
            && (videos.Http? && IsOk(videos.status) && !(videos.body.Object? && videos.body.content.Some?) ==>
                  reply == Failure(500, DetailsInternal))
            && (videos.Http? && IsOk(videos.status) && videos.body.Object? && videos.body.content.Some? ==>
                  var vs := videos.body.content.value;
                  reply == Success(DetailsReply(response.body.content,
                    if FindTrailer(vs).Some? then Some(vs[FindTrailer(vs).value].key) else None))))
  {
    calls := [];
    if !Truthy(apiKey) {
      return Failure(500, KeyMissing), calls;
    }
    if id == [] || mediaType == [] || mediaType !in {"movie", "tv"} {
      return Failure(400, InvalidDetailsRequest), calls;
    }
    var detailsUrl := DetailsUrl(mediaType, id, apiKey.value);
    calls := calls + [detailsUrl];
    var detailsRes := fetchDetails(detailsUrl);
    if detailsRes.NetworkError? {
      return Failure(500, DetailsInternal), calls;
    }
    if !IsOk(detailsRes.status) {
      return Failure(detailsRes.status, ErrorMessage(detailsRes.body, DetailsFallback)), calls;
    }
    if detailsRes.body.Unparseable? {
      return Failure(500, DetailsInternal), calls;
    }
    var data := detailsRes.body.content;
    var videosUrl := VideosUrl(mediaType, id, apiKey.value);
    calls := calls + [videosUrl];
    var videosRes := fetchVideos(videosUrl);
    if videosRes.NetworkError? {
      return Failure(500, DetailsInternal), calls;
    }
    var trailerKey: Option<string> := None;
    if IsOk(videosRes.status) {
      match videosRes.body {
        case Object(_, Some(results)) =>
          var trailer := FindTrailer(results);
          if trailer.Some? {
            trailerKey := Some(results[trailer.value].key);
          }
        case _ =>
          return Failure(500, DetailsInternal), calls;
      }
    }
    reply := Success(DetailsReply(data, trailerKey));
  }

  /**
   * Each pick tagged with the media type and given the trailer URL of its own
   * videos response, with the videos URLs fetched, one per pick and in order.
   */
  method WithTrailers(topPicks: seq<Item>, mediaType: string, apiKey: string,
                      fetchVideos: string -> Response<Option<seq<Video>>>)
    returns (picks: seq<Pick>, calls: seq<string>)
    ensures |picks| == |topPicks| && |calls| == |topPicks|
    ensures forall k :: 0 <= k < |topPicks| ==>
      && calls[k] == PickVideosUrl(topPicks[k], mediaType, apiKey)
      && picks[k] == PickOf(topPicks[k], mediaType, TrailerUrlOf(fetchVideos(calls[k])))
  {
    picks, calls := [], [];
    var i := 0;
    while i < |topPicks|
      invariant 0 <= i <= |topPicks|
      invariant |picks| == i && |calls| == i
      invariant forall k :: 0 <= k < i ==>
        && calls[k] == PickVideosUrl(topPicks[k], mediaType, apiKey)
        && picks[k] == PickOf(topPicks[k], mediaType, TrailerUrlOf(fetchVideos(calls[k])))
    {
      var movie := topPicks[i];
      var videosUrl := PickVideosUrl(movie, mediaType, apiKey);
      calls := calls + [videosUrl];
      var trailerUrl := TrailerUrlOf(fetchVideos(videosUrl));
      picks := picks + [PickOf(movie, mediaType, trailerUrl)];
      i := i + 1;
    }
  }

  /**
   * `GET /api/trending-picks`: the first `limit` entries of the chosen list,
   * each tagged with the requested media type and given the watch URL of its
   * trailer; a failed video lookup gives that one pick a null `trailerUrl`.
   */
  method TrendingPicks(apiKey: Option<string>, language: Option<string>, region: Option<string>,
                       originalLanguage: Option<string>, mediaTypeParam: Option<string>,
                       limit: Option<string>,
                       fetchList: string -> Response<Option<seq<Item>>>,
                       fetchVideos: string -> Response<Option<seq<Video>>>)
    returns (reply: Reply<seq<Pick>>, calls: seq<string>)
    ensures !Truthy(apiKey) ==> reply == Failure(500, KeyMissing) && calls == []
    ensures Truthy(apiKey) ==>
      var mediaType := mediaTypeParam.GetOr(DefaultMediaType);
      var listUrl := TrendingUrl(apiKey.value, mediaType, language, region, originalLanguage);
      var response := fetchList(listUrl);
      && |calls| >= 1 && calls[0] == listUrl
      && (response.NetworkError? ==> reply == Failure(500, TrendingInternal))
      && (response.Http? && !IsOk(response.status) ==>
            reply == Failure(response.status, ErrorMessage(response.body, TrendingFallback)))
      && (response.Http? && IsOk(response.status) && !(response.body.Object? && response.body.content.Some?) ==>
            reply == Failure(500, TrendingInternal))
    ensures Truthy(apiKey) ==>
      var mediaType := mediaTypeParam.GetOr(DefaultMediaType);
      var listUrl := TrendingUrl(apiKey.value, mediaType, language, region, originalLanguage);
      var response := fetchList(listUrl);
      response.Http? && IsOk(response.status) && response.body.Object? && response.body.content.Some? ==>
        var picks := TopPicks(response.body.content.value, limit);
        && reply.Success?
        && |reply.value| == |picks|
        && |calls| == 1 + |picks|
        && forall k :: 0 <= k < |picks| ==>
             && calls[k + 1] == PickVideosUrl(picks[k], mediaType, apiKey.value)
             && reply.value[k] == PickOf(picks[k], mediaType, TrailerUrlOf(fetchVideos(calls[k + 1])))
  {
    calls := [];
    if !Truthy(apiKey) {
      return Failure(500, KeyMissing), calls;
    }
    var mediaType := mediaTypeParam.GetOr(DefaultMediaType);
    var tmdbUrl := TrendingUrl(apiKey.value, mediaType, language, region, originalLanguage);
    calls := calls + [tmdbUrl];
    var trendingRes := fetchList(tmdbUrl);
    if trendingRes.NetworkError? {
      return Failure(500, TrendingInternal), calls;
    }
    if !IsOk(trendingRes.status) {
      return Failure(trendingRes.status, ErrorMessage(trendingRes.body, TrendingFallback)), calls;
    }
    if !(trendingRes.body.Object? && trendingRes.body.content.Some?) {
      return Failure(500, TrendingInternal), calls;
    }
    var topPicks := TopPicks(trendingRes.body.content.value, limit);
    var moviesWithTrailers, videoCalls := WithTrailers(topPicks, mediaType, apiKey.value, fetchVideos);
    calls := calls + videoCalls;
    assert forall k :: 0 <= k < |videoCalls| ==> calls[k + 1] == videoCalls[k];
    reply := Success(moviesWithTrailers);
  }
}
