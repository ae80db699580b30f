/**
 * The browse endpoints of the client (`SpotifyBrowse`): each method builds one
 * request `_get(path, **params)` from its arguments and picks fields out of the
 * decoded response. `recommendations` also encodes its seed lists and filters
 * its free-form keyword arguments against two allow-sets before sending.
 *
 * Arguments that Python types as `str = None` are `Option<string>` here and
 * are passed on as `Null`, never dropped; parameter defaults are the source's.
 */
module Browse {
  import opened Wrappers
  import opened Strings
  import opened Http
  import Model

  // ---------------------------------------------------------------------------
  // featured_playlists
  // ---------------------------------------------------------------------------

  /** The request of `featured_playlists`: a fixed path and exactly its five arguments. */
  function FeaturedPlaylistsRequest(
    country: Option<string> := None, locale: Option<string> := None,
    timestamp: Option<string> := None, limit: int := 20, offset: int := 0): (r: Request)
    ensures r.path == "browse/featured-playlists"
    ensures r.params.Keys == {"locale", "country", "timestamp", "limit", "offset"}
    ensures r.params["country"] == OptStr(country) && r.params["locale"] == OptStr(locale)
    ensures r.params["timestamp"] == OptStr(timestamp)
    ensures r.params["limit"] == Int(limit) && r.params["offset"] == Int(offset)
  {
    Request("browse/featured-playlists",
      map["locale" := OptStr(locale), "country" := OptStr(country), "timestamp" := OptStr(timestamp),
          "limit" := Int(limit), "offset" := Int(offset)])
  }

  /** `featured_playlists`: one request; the result pairs field `message` with the page built from field `playlists`. */
  function FeaturedPlaylists(
    get: Transport, country: Option<string> := None, locale: Option<string> := None,
    timestamp: Option<string> := None, limit: int := 20, offset: int := 0)
    : (c: Call<(Json, Model.SimplePlaylistPaging)>)
    ensures c.sent == [FeaturedPlaylistsRequest(country, locale, timestamp, limit, offset)]
    ensures var response := get(c.sent[0]);
      && (response.Failure? ==> c.result == Failure(response.error))
      && (response.Success? ==>
            var json := response.value;
            && (c.result.Success? <==> json.JObject? && "message" in json.fields && HasObjectField(json, "playlists"))
            && (c.result.Success? ==>
                  c.result.value == (json.fields["message"], Model.SimplePlaylistPaging(json.fields["playlists"].fields)))
            && (json.JObject? && "message" !in json.fields ==> c.result == Failure(KeyError("message")))
            && (json.JObject? && "message" in json.fields && "playlists" !in json.fields ==>
                  c.result == Failure(KeyError("playlists")))
            && (!json.JObject? ==> c.result == Failure(TypeError))
            && (json.JObject? && "message" in json.fields && "playlists" in json.fields && !json.fields["playlists"].JObject? ==>
                  c.result == Failure(TypeError)))
  {
    var request := FeaturedPlaylistsRequest(country, locale, timestamp, limit, offset);
    Call([request],
      var json :- get(request);
      var message :- Subscript(json, "message");
      var playlists :- Subscript(json, "playlists");
      var page :- Kwargs(playlists);
      Success((message, Model.SimplePlaylistPaging(page))))
  }

  // ---------------------------------------------------------------------------
  // new_releases
  // ---------------------------------------------------------------------------

  /** The request of `new_releases`: a fixed path and exactly its three arguments. */
  function NewReleasesRequest(country: Option<string> := None, limit: int := 20, offset: int := 0): (r: Request)
    ensures r.path == "browse/new-releases"
    ensures r.params.Keys == {"country", "limit", "offset"}
    ensures r.params["country"] == OptStr(country)
    ensures r.params["limit"] == Int(limit) && r.params["offset"] == Int(offset)
  {
    Request("browse/new-releases", map["country" := OptStr(country), "limit" := Int(limit), "offset" := Int(offset)])
  }

  /** `new_releases`: one request; the result pairs field `message` with the page built from field `albums`. */
  function NewReleases(get: Transport, country: Option<string> := None, limit: int := 20, offset: int := 0)
    : (c: Call<(Json, Model.SimpleAlbumPaging)>)
    ensures c.sent == [NewReleasesRequest(country, limit, offset)]
    ensures var response := get(c.sent[0]);
      && (response.Failure? ==> c.result == Failure(response.error))
      && (response.Success? ==>
            var json := response.value;
            && (c.result.Success? <==> json.JObject? && "message" in json.fields && HasObjectField(json, "albums"))
            && (c.result.Success? ==>
                  c.result.value == (json.fields["message"], Model.SimpleAlbumPaging(json.fields["albums"].fields)))
            && (json.JObject? && "message" !in json.fields ==> c.result == Failure(KeyError("message")))
            && (json.JObject? && "message" in json.fields && "albums" !in json.fields ==>
                  c.result == Failure(KeyError("albums")))
            && (!json.JObject? ==> c.result == Failure(TypeError))
            && (json.JObject? && "message" in json.fields && "albums" in json.fields && !json.fields["albums"].JObject? ==>
                  c.result == Failure(TypeError)))
  {
    var request := NewReleasesRequest(country, limit, offset);
    Call([request],
      var json :- get(request);
      var message :- Subscript(json, "message");
      var albums :- Subscript(json, "albums");
      var page :- Kwargs(albums);
      Success((message, Model.SimpleAlbumPaging(page))))
  }

  // ---------------------------------------------------------------------------
  // categories
  // ---------------------------------------------------------------------------

  /** The request of `categories`: a fixed path and exactly its four arguments. */
  function CategoriesRequest(
    country: Option<string> := None, locale: Option<string> := None, limit: int := 20, offset: int := 0): (r: Request)
    ensures r.path == "browse/categories"
    ensures r.params.Keys == {"country", "locale", "limit", "offset"}
    ensures r.params["country"] == OptStr(country) && r.params["locale"] == OptStr(locale)
    ensures r.params["limit"] == Int(limit) && r.params["offset"] == Int(offset)
  {
    Request("browse/categories",
      map["country" := OptStr(country), "locale" := OptStr(locale), "limit" := Int(limit), "offset" := Int(offset)])
  }

  /** `categories`: one request; the result is the page built from field `categories`. */
  function Categories(
    get: Transport, country: Option<string> := None, locale: Option<string> := None, limit: int := 20, offset: int := 0)
    : (c: Call<Model.CategoryPaging>)
    ensures c.sent == [CategoriesRequest(country, locale, limit, offset)]
    ensures var response := get(c.sent[0]);
      && (response.Failure? ==> c.result == Failure(response.error))
      && (response.Success? ==>
            var json := response.value;
            && (c.result.Success? <==> HasObjectField(json, "categories"))
            && (c.result.Success? ==> c.result.value == Model.CategoryPaging(json.fields["categories"].fields))
            && (json.JObject? && "categories" !in json.fields ==> c.result == Failure(KeyError("categories")))
            && (!json.JObject? ==> c.result == Failure(TypeError))
            && (json.JObject? && "categories" in json.fields && !json.fields["categories"].JObject? ==>
                  c.result == Failure(TypeError)))
  {
    var request := CategoriesRequest(country, locale, limit, offset);
    Call([request],
      var json :- get(request);
      var categories :- Subscript(json, "categories");
      var page :- Kwargs(categories);
      Success(Model.CategoryPaging(page)))
  }

  // ---------------------------------------------------------------------------
  // category
  // ---------------------------------------------------------------------------

  /** The request of `category`: the id appended to the categories path, and only `country` and `locale`. */
  function CategoryRequest(categoryId: string, country: Option<string> := None, locale: Option<string> := None)
    : (r: Request)
    ensures |r.path| == |"browse/categories/"| + |categoryId|
    ensures r.path[..|"browse/categories/"|] == "browse/categories/"
    ensures r.path[|"browse/categories/"|..] == categoryId
    ensures r.params.Keys == {"country", "locale"}
    ensures r.params["country"] == OptStr(country) && r.params["locale"] == OptStr(locale)
  {
    Request("browse/categories/" + categoryId, map["country" := OptStr(country), "locale" := OptStr(locale)])
  }

  /** `category`: one request; the whole response body becomes the category. */
  function Category(get: Transport, categoryId: string, country: Option<string> := None, locale: Option<string> := None)
    : (c: Call<Model.Category>)
    ensures c.sent == [CategoryRequest(categoryId, country, locale)]
    ensures var response := get(c.sent[0]);
      && (response.Failure? ==> c.result == Failure(response.error))
      && (response.Success? ==>
            && (c.result.Success? <==> response.value.JObject?)
            && (c.result.Success? ==> c.result.value == Model.Category(response.value.fields))
            && (!response.value.JObject? ==> c.result == Failure(TypeError)))
  {
    var request := CategoryRequest(categoryId, country, locale);
    Call([request],
      var json :- get(request);
      var fields :- Kwargs(json);
      Success(Model.Category(fields)))
  }

  // ---------------------------------------------------------------------------
  // category_playlists
  // ---------------------------------------------------------------------------

  /** How an f-string renders a `str` or `None` value. */
  function Interpolate(s: Option<string>): (r: string)
    ensures s.Some? ==> r == s.value
    ensures r == "None" <==> s == None || s == Some("None")
  {
    match s
    case None => "None"
    case Some(t) => t
  }

  /** The request of `category_playlists`: the path embeds the id (`None` renders as the text `None`). */
  function CategoryPlaylistsRequest(
    categoryId: Option<string> := None, country: Option<string> := None, limit: int := 20, offset: int := 0)
    : (r: Request)
    ensures r.path == "browse/categories/" + Interpolate(categoryId) + "/playlists"
    ensures categoryId.None? ==> r.path == "browse/categories/None/playlists"
    ensures r.params.Keys == {"country", "limit", "offset"}
    ensures r.params["country"] == OptStr(country)
    ensures r.params["limit"] == Int(limit) && r.params["offset"] == Int(offset)
  {
    Request("browse/categories/" + Interpolate(categoryId) + "/playlists",
      map["country" := OptStr(country), "limit" := Int(limit), "offset" := Int(offset)])
  }

  /** `category_playlists`: one request; the result is the page built from field `playlists`. */
  function CategoryPlaylists(
    get: Transport, categoryId: Option<string> := None, country: Option<string> := None,
    limit: int := 20, offset: int := 0)
    : (c: Call<Model.SimplePlaylistPaging>)
    ensures c.sent == [CategoryPlaylistsRequest(categoryId, country, limit, offset)]
    ensures var response := get(c.sent[0]);
      && (response.Failure? ==> c.result == Failure(response.error))
      && (response.Success? ==>
            var json := response.value;
            && (c.result.Success? <==> HasObjectField(json, "playlists"))
            && (c.result.Success? ==> c.result.value == Model.SimplePlaylistPaging(json.fields["playlists"].fields))
            && (json.JObject? && "playlists" !in json.fields ==> c.result == Failure(KeyError("playlists")))
            && (!json.JObject? ==> c.result == Failure(TypeError))
            && (json.JObject? && "playlists" in json.fields && !json.fields["playlists"].JObject? ==>
                  c.result == Failure(TypeError)))
  {
    var request := CategoryPlaylistsRequest(categoryId, country, limit, offset);
    Call([request],
      var json :- get(request);
      var playlists :- Subscript(json, "playlists");
      var page :- Kwargs(playlists);
      Success(Model.SimplePlaylistPaging(page)))
  }

  /** With every argument left at its default, the fixed-path requests carry `None`, 20 and 0. */
  lemma DefaultRequests()
    ensures FeaturedPlaylistsRequest().params
         == map["locale" := Null, "country" := Null, "timestamp" := Null, "limit" := Int(20), "offset" := Int(0)]
    ensures NewReleasesRequest().params == map["country" := Null, "limit" := Int(20), "offset" := Int(0)]
    ensures CategoriesRequest().params
         == map["country" := Null, "locale" := Null, "limit" := Int(20), "offset" := Int(0)]
    ensures CategoryPlaylistsRequest()
         == Request("browse/categories/None/playlists", map["country" := Null, "limit" := Int(20), "offset" := Int(0)])
  {
  }

  // ---------------------------------------------------------------------------
  // recommendation_genre_seeds
  // ---------------------------------------------------------------------------

  /** `recommendation_genre_seeds`: one request without parameters; the result is field `genres`, unchanged. */
  function RecommendationGenreSeeds(get: Transport): (c: Call<Json>)
    ensures c.sent == [Request("recommendations/available-genre-seeds", map[])]
    ensures var response := get(c.sent[0]);
      && (response.Failure? ==> c.result == Failure(response.error))
      && (response.Success? ==>
            var json := response.value;
            && (c.result.Success? <==> json.JObject? && "genres" in json.fields)
            && (c.result.Success? ==> c.result.value == json.fields["genres"])
            && (json.JObject? && "genres" !in json.fields ==> c.result == Failure(KeyError("genres")))
            && (!json.JObject? ==> c.result == Failure(TypeError)))
  {
    var request := Request("recommendations/available-genre-seeds", map[]);
    Call([request],
      var json :- get(request);
      Subscript(json, "genres"))
  }

  // ---------------------------------------------------------------------------
  // recommendations
  // ---------------------------------------------------------------------------

  /** The allowed prefixes of a keyword filter (`recommendation_prefixes`). */
  const RecommendationPrefixes: set<string> := {"min", "max", "target"}

  /** The tunable track attributes a keyword filter may name (`recommendation_attributes`). */
  const RecommendationAttributes: set<string> := {
    "acousticness", "danceability", "duration_ms", "energy", "instrumentalness", "key", "liveness",
    "loudness", "mode", "popularity", "speechiness", "tempo", "time_signature", "valence"
  }

  /** The keywords `recommendations` passes as named parameters, which Python never puts in `**attributes`. */
  const RecommendationKeys: set<string> := {"limit", "seed_artists", "seed_genres", "seed_tracks", "market"}

  /** `p, a = name.split('_')` raises: the name does not split into exactly two pieces. */
  predicate Malformed(name: string) {
    |Split(name, '_')| != 2
  }

  /** A keyword filter that is sent: it splits into an allowed prefix and an allowed attribute. */
  predicate Accepted(name: string) {
    var parts := Split(name, '_');
    |parts| == 2 && parts[0] in RecommendationPrefixes && parts[1] in RecommendationAttributes
  }

  /** No keyword filter makes the unpacking raise. */
  predicate WellFormedNames(attributes: seq<(string, Value)>) {
    forall i :: 0 <= i < |attributes| ==> !Malformed(attributes[i].0)
  }

  /** The names of the keyword filters that are sent. */
  function AcceptedNames(attributes: seq<(string, Value)>): set<string> {
    set i | 0 <= i < |attributes| && Accepted(attributes[i].0) :: attributes[i].0
  }

  /** Keyword arguments of one Python call name each parameter once. */
  predicate DistinctNames(attributes: seq<(string, Value)>) {
    forall i, j :: 0 <= i < j < |attributes| ==> attributes[i].0 != attributes[j].0
  }

  /** How the two predicates above decompose on the first keyword. */
  lemma FirstKeyword(attributes: seq<(string, Value)>)
    requires attributes != []
    ensures WellFormedNames(attributes) <==> !Malformed(attributes[0].0) && WellFormedNames(attributes[1..])
    ensures AcceptedNames(attributes)
         == (if Accepted(attributes[0].0) then {attributes[0].0} else {}) + AcceptedNames(attributes[1..])
  {
  }

  /** The entries made before the keyword loop: `limit`, each seed list given, and `market` unless it is `None`. */
  function SeedAndMarketParams(
    artistIds: Option<seq<string>>, genres: Option<seq<string>>, trackIds: Option<seq<string>>,
    limit: int, market: Option<string>): (r: map<string, Value>)
    ensures r.Keys <= RecommendationKeys
    ensures "limit" in r && r["limit"] == Int(limit)
    ensures "market" in r <==> market.Some?
    ensures market.Some? ==> r["market"] == Str(market.value)
    ensures ("seed_artists" in r <==> artistIds.Some?) && ("seed_genres" in r <==> genres.Some?)
    ensures "seed_tracks" in r <==> trackIds.Some?
    ensures artistIds.Some? ==> r["seed_artists"] == Str(Join(artistIds.value, ','))
    ensures genres.Some? ==> r["seed_genres"] == Str(Join(genres.value, ','))
    ensures trackIds.Some? ==> r["seed_tracks"] == Str(Join(trackIds.value, ','))
  {
    var params := map["limit" := Int(limit)];
    var params := if artistIds.Some? then params["seed_artists" := Str(Join(artistIds.value, ','))] else params;
    var params := if genres.Some? then params["seed_genres" := Str(Join(genres.value, ','))] else params;
    var params := if trackIds.Some? then params["seed_tracks" := Str(Join(trackIds.value, ','))] else params;
    if market.Some? then params["market" := Str(market.value)] else params
  }

  /**
   * The keyword loop, from the first keyword on: the first name that does not
   * split in two raises, an accepted name is entered with its value, and any
   * other name is skipped.
   */
  function ApplyAttributes(params: map<string, Value>, attributes: seq<(string, Value)>)
    : (r: Result<map<string, Value>, Error>)
    ensures r.Success? <==> WellFormedNames(attributes)
    ensures r.Success? ==> r.value.Keys == params.Keys + AcceptedNames(attributes)
    decreases |attributes|
  {
    if attributes == [] then Success(params)
    else
      FirstKeyword(attributes);
      var name := attributes[0].0;
      var parts := Split(name, '_');
      if |parts| != 2 then Failure(UnpackError(name, |parts|))
      else if parts[0] in RecommendationPrefixes && parts[1] in RecommendationAttributes
      then ApplyAttributes(params[name := attributes[0].1], attributes[1..])
      else ApplyAttributes(params, attributes[1..])
  }

  /** The parameters `recommendations` sends, or the error it raises before sending anything. */
  function RecommendationParams(
    artistIds: Option<seq<string>>, genres: Option<seq<string>>, trackIds: Option<seq<string>>,
    limit: int, market: Option<string>, attributes: seq<(string, Value)>): (r: Result<map<string, Value>, Error>)
    ensures r.Success? <==> WellFormedNames(attributes)
    ensures r.Success? ==> r.value.Keys == SeedAndMarketParams(artistIds, genres, trackIds, limit, market).Keys
                                          + AcceptedNames(attributes)
  {
    ApplyAttributes(SeedAndMarketParams(artistIds, genres, trackIds, limit, market), attributes)
  }

  /**
   * `recommendations`: builds the parameters step by step; a malformed keyword
   * raises before any request, otherwise exactly one request is sent and the
   * whole response body becomes the recommendations.
   */
  method Recommendations(
    get: Transport, artistIds: Option<seq<string>> := None, genres: Option<seq<string>> := None,
    trackIds: Option<seq<string>> := None, limit: int := 20, market: Option<string> := Some("from_token"),
    attributes: seq<(string, Value)> := [])
    returns (c: Call<Model.Recommendations>)
    ensures var params := RecommendationParams(artistIds, genres, trackIds, limit, market, attributes);
      && (params.Failure? ==> c.sent == [] && c.result == Failure(params.error))
      && (params.Success? ==>
            && c.sent == [Request("recommendations", params.value)]
            && var response := get(c.sent[0]);
            && (response.Failure? ==> c.result == Failure(response.error))
            && (response.Success? ==>
                  && (c.result.Success? <==> response.value.JObject?)
                  && (c.result.Success? ==> c.result.value == Model.Recommendations(response.value.fields))
                  && (!response.value.JObject? ==> c.result == Failure(TypeError))))
  {
    var params := map["limit" := Int(limit)];
    if artistIds.Some? {
      params := params["seed_artists" := Str(Join(artistIds.value, ','))];
    }
    if genres.Some? {
      params := params["seed_genres" := Str(Join(genres.value, ','))];
    }
    if trackIds.Some? {
      params := params["seed_tracks" := Str(Join(trackIds.value, ','))];
    }
    if market.Some? {
      params := params["market" := Str(market.value)];
    }

    var i := 0;
    while i < |attributes|
      invariant 0 <= i <= |attributes|
      invariant ApplyAttributes(params, attributes[i..])
             == RecommendationParams(artistIds, genres, trackIds, limit, market, attributes)
    {
      var name, value := attributes[i].0, attributes[i].1;
      var parts := Split(name, '_');
      if |parts| != 2 {
        return Call([], Failure(UnpackError(name, |parts|)));
      }
      if parts[0] in RecommendationPrefixes && parts[1] in RecommendationAttributes {
        params := params[name := value];
      }
      assert attributes[i..][1..] == attributes[i + 1..];
      i := i + 1;
    }

    var request := Request("recommendations", params);
    c := Call([request],
      var json :- get(request);
      var fields :- Kwargs(json);
      Success(Model.Recommendations(fields)));
  }

  // ---------------------------------------------------------------------------
  // Properties of the keyword loop
  // ---------------------------------------------------------------------------

  /** An entry made before the loop keeps its value unless an accepted keyword names it. */
  lemma {:induction false} ApplyAttributesKeepsOthers(params: map<string, Value>, attributes: seq<(string, Value)>)
    requires ApplyAttributes(params, attributes).Success?
    ensures forall k :: k in params && k !in AcceptedNames(attributes) ==>
              ApplyAttributes(params, attributes).value[k] == params[k]
    decreases |attributes|
  {
    if attributes != [] {
      FirstKeyword(attributes);
      var name := attributes[0].0;
      var next := if Accepted(name) then params[name := attributes[0].1] else params;
      ApplyAttributesKeepsOthers(next, attributes[1..]);
    }
  }

  /** With distinct names, every accepted keyword is sent with exactly the value it was given. */
  lemma {:induction false} ApplyAttributesEntersAccepted(params: map<string, Value>, attributes: seq<(string, Value)>)
    requires DistinctNames(attributes)
    requires ApplyAttributes(params, attributes).Success?
    ensures forall i :: 0 <= i < |attributes| && Accepted(attributes[i].0) ==>
              attributes[i].0 in ApplyAttributes(params, attributes).value
              && ApplyAttributes(params, attributes).value[attributes[i].0] == attributes[i].1
    decreases |attributes|
  {
    if attributes != [] {
      FirstKeyword(attributes);
      var name, rest := attributes[0].0, attributes[1..];
      var next := if Accepted(name) then params[name := attributes[0].1] else params;
      var result := ApplyAttributes(params, attributes);
      assert result == ApplyAttributes(next, rest);
      ApplyAttributesEntersAccepted(next, rest);
      if Accepted(name) {
        assert name !in AcceptedNames(rest);
        ApplyAttributesKeepsOthers(next, rest);
      }
      forall i | 0 < i < |attributes| && Accepted(attributes[i].0)
        ensures attributes[i].0 in result.value && result.value[attributes[i].0] == attributes[i].1
      {
        assert attributes[i] == rest[i - 1];
      }
    }
  }

  /** The error raised is the one for the first keyword that does not split in two. */
  lemma {:induction false} ApplyAttributesFirstMalformed(
    params: map<string, Value>, attributes: seq<(string, Value)>, k: nat)
    requires k < |attributes| && Malformed(attributes[k].0)
    requires forall j :: 0 <= j < k ==> !Malformed(attributes[j].0)
    ensures ApplyAttributes(params, attributes) == Failure(UnpackError(attributes[k].0, |Split(attributes[k].0, '_')|))
    decreases k
  {
    if k > 0 {
      var name := attributes[0].0;
      assert !Malformed(name);
      var next := if Accepted(name) then params[name := attributes[0].1] else params;
      var rest := attributes[1..];
      assert forall j :: 0 <= j < k - 1 ==> rest[j] == attributes[j + 1];
      ApplyAttributesFirstMalformed(next, rest, k - 1);
    }
  }

  /** A name whose first piece is separator-free and not an allowed prefix is never accepted. */
  lemma PieceNotAccepted(piece: string, rest: string)
    requires '_' !in piece && piece !in RecommendationPrefixes
    ensures !Accepted(piece + "_" + rest)
  {
    SplitAfterPiece(piece, rest, '_');
  }

  /** The names `recommendations` sets itself can never pass the keyword filter. */
  lemma RecommendationKeyNotAccepted(k: string)
    requires k in RecommendationKeys
    ensures !Accepted(k)
  {
    if k == "limit" || k == "market" {
      assert '_' !in k;
      SplitWithoutSeparator(k, '_');
    } else {
      assert '_' !in "seed" && "seed" !in RecommendationPrefixes;
      PieceNotAccepted("seed", k[5..]);
      assert k == "seed" + "_" + k[5..];
    }
  }

  /** A prefix, an underscore and an attribute pass the filter exactly when the attribute has no underscore of its own. */
  lemma AcceptedForm(prefix: string, attribute: string)
    requires prefix in RecommendationPrefixes
    ensures Accepted(prefix + "_" + attribute)
        <==> attribute in RecommendationAttributes && '_' !in attribute
  {
    assert '_' !in prefix;
    SplitAfterPiece(prefix, attribute, '_');
    if '_' in attribute {
      assert '_' in multiset(attribute);
      SplitPieces(attribute, '_');
    } else {
      SplitWithoutSeparator(attribute, '_');
    }
  }

  /** The name begins with one of the allowed prefixes and its underscore. */
  predicate HasFilterPrefix(name: string) {
    || (|name| >= 4 && (name[..4] == "min_" || name[..4] == "max_"))
    || (|name| >= 7 && name[..7] == "target_")
  }

  /** Every accepted keyword starts with `min_`, `max_` or `target_`. */
  lemma AcceptedHasFilterPrefix(name: string)
    requires Accepted(name)
    ensures HasFilterPrefix(name)
  {
    var parts := Split(name, '_');
    JoinSplit(name, '_');
    assert Join(parts, '_') == parts[0] + "_" + parts[1];
    assert name == parts[0] + "_" + parts[1];
  }

  // ---------------------------------------------------------------------------
  // Properties of recommendations
  // ---------------------------------------------------------------------------

  /**
   * When some keyword is malformed the call raises, and what it raises is the
   * error for the first malformed keyword, whatever follows it.
   */
  lemma RecommendationsRaise(
    artistIds: Option<seq<string>>, genres: Option<seq<string>>, trackIds: Option<seq<string>>,
    limit: int, market: Option<string>, attributes: seq<(string, Value)>, k: nat)
    requires k < |attributes| && Malformed(attributes[k].0)
    requires forall j :: 0 <= j < k ==> !Malformed(attributes[j].0)
    ensures RecommendationParams(artistIds, genres, trackIds, limit, market, attributes)
         == Failure(UnpackError(attributes[k].0, |Split(attributes[k].0, '_')|))
  {
    ApplyAttributesFirstMalformed(SeedAndMarketParams(artistIds, genres, trackIds, limit, market), attributes, k);
  }

  /**
   * `limit` is always sent unchanged; `market` is sent, verbatim, exactly when it
   * is not `None`; each seed list is sent, comma-joined, exactly when it is given.
   */
  lemma RecommendationsFixedEntries(
    artistIds: Option<seq<string>>, genres: Option<seq<string>>, trackIds: Option<seq<string>>,
    limit: int, market: Option<string>, attributes: seq<(string, Value)>)
    requires WellFormedNames(attributes)
    ensures var params := RecommendationParams(artistIds, genres, trackIds, limit, market, attributes).value;
      && "limit" in params && params["limit"] == Int(limit)
      && ("market" in params <==> market.Some?)
      && (market.Some? ==> params["market"] == Str(market.value))
      && ("seed_artists" in params <==> artistIds.Some?)
      && (artistIds.Some? ==> params["seed_artists"] == Str(Join(artistIds.value, ',')))
      && ("seed_genres" in params <==> genres.Some?)
      && (genres.Some? ==> params["seed_genres"] == Str(Join(genres.value, ',')))
      && ("seed_tracks" in params <==> trackIds.Some?)
      && (trackIds.Some? ==> params["seed_tracks"] == Str(Join(trackIds.value, ',')))
  {
    var base := SeedAndMarketParams(artistIds, genres, trackIds, limit, market);
    forall k | k in RecommendationKeys ensures k !in AcceptedNames(attributes) {
      RecommendationKeyNotAccepted(k);
    }
    ApplyAttributesKeepsOthers(base, attributes);
  }

  /**
   * The keyword filters: a well-formed name is sent with its value unchanged
   * exactly when it is accepted; every other key sent is one of the method's own,
   * and every accepted key starts with `min_`, `max_` or `target_`.
   */
  lemma RecommendationsFilters(
    artistIds: Option<seq<string>>, genres: Option<seq<string>>, trackIds: Option<seq<string>>,
    limit: int, market: Option<string>, attributes: seq<(string, Value)>)
    requires DistinctNames(attributes)
    requires WellFormedNames(attributes)
    ensures var params := RecommendationParams(artistIds, genres, trackIds, limit, market, attributes).value;
      && (forall i :: 0 <= i < |attributes| && Accepted(attributes[i].0) ==>
            attributes[i].0 in params && params[attributes[i].0] == attributes[i].1)
      && (forall i :: 0 <= i < |attributes| && !Accepted(attributes[i].0) && attributes[i].0 !in RecommendationKeys ==>
            attributes[i].0 !in params)
      && (forall k :: k in params ==> k in RecommendationKeys || (Accepted(k) && HasFilterPrefix(k)))
  {
    var base := SeedAndMarketParams(artistIds, genres, trackIds, limit, market);
    ApplyAttributesEntersAccepted(base, attributes);
    var params := ApplyAttributes(base, attributes).value;
    forall k | k in params ensures k in RecommendationKeys || (Accepted(k) && HasFilterPrefix(k)) {
      if k !in base {
        var j :| 0 <= j < |attributes| && Accepted(attributes[j].0) && attributes[j].0 == k;
        AcceptedHasFilterPrefix(k);
      }
    }
  }

  /** A seed list that comma-joining does not make ambiguous: non-empty, and no id contains a comma. */
  predicate SplittableSeeds(ids: seq<string>) {
    ids != [] && forall i :: 0 <= i < |ids| ==> ',' !in ids[i]
  }

  /** A non-empty seed list whose ids contain no comma is recovered by splitting the sent value on commas. */
  lemma RecommendationsSeedsRoundTrip(
    artistIds: Option<seq<string>>, genres: Option<seq<string>>, trackIds: Option<seq<string>>,
    limit: int, market: Option<string>, attributes: seq<(string, Value)>)
    requires WellFormedNames(attributes)
    ensures var params := RecommendationParams(artistIds, genres, trackIds, limit, market, attributes).value;
      && (artistIds.Some? && SplittableSeeds(artistIds.value) ==>
            "seed_artists" in params && params["seed_artists"].Str?
            && Split(params["seed_artists"].s, ',') == artistIds.value)
      && (genres.Some? && SplittableSeeds(genres.value) ==>
            "seed_genres" in params && params["seed_genres"].Str?
            && Split(params["seed_genres"].s, ',') == genres.value)
      && (trackIds.Some? && SplittableSeeds(trackIds.value) ==>
            "seed_tracks" in params && params["seed_tracks"].Str?
            && Split(params["seed_tracks"].s, ',') == trackIds.value)
  {
    RecommendationsFixedEntries(artistIds, genres, trackIds, limit, market, attributes);
    if artistIds.Some? && SplittableSeeds(artistIds.value) {
      SplitJoin(artistIds.value, ',');
    }
    if genres.Some? && SplittableSeeds(genres.value) {
      SplitJoin(genres.value, ',');
    }
    if trackIds.Some? && SplittableSeeds(trackIds.value) {
      SplitJoin(trackIds.value, ',');
    }
  }

  /** An empty seed list is sent as the empty string. */
  lemma RecommendationsEmptySeeds(
    genres: Option<seq<string>>, trackIds: Option<seq<string>>,
    limit: int, market: Option<string>, attributes: seq<(string, Value)>)
    requires WellFormedNames(attributes)
    ensures RecommendationParams(Some([]), genres, trackIds, limit, market, attributes).value["seed_artists"] == Str("")
  {
    RecommendationsFixedEntries(Some([]), genres, trackIds, limit, market, attributes);
  }

  // ---------------------------------------------------------------------------
  // The unreachable attributes
  // ---------------------------------------------------------------------------

  /**
   * A filter on an allowed attribute that itself contains an underscore
   * (`duration_ms`, `time_signature`) splits into three or more pieces, so it
   * always raises instead of being sent.
   */
  lemma UnderscoredAttributeRaises(prefix: string, attribute: string)
    requires prefix in RecommendationPrefixes && attribute in RecommendationAttributes && '_' in attribute
    ensures Malformed(prefix + "_" + attribute)
    ensures |Split(prefix + "_" + attribute, '_')| >= 3
  {
    UnderscoredNameSplitsInThree(prefix, attribute);
  }

  /** The separator-level fact behind `UnderscoredAttributeRaises`. */
  lemma UnderscoredNameSplitsInThree(prefix: string, attribute: string)
    requires prefix in RecommendationPrefixes && '_' in attribute
    ensures |Split(prefix + "_" + attribute, '_')| >= 3
  {
    assert '_' !in prefix;
    SplitAfterPiece(prefix, attribute, '_');
    assert '_' in multiset(attribute);
    SplitPieces(attribute, '_');
  }

  /** `recommendations(min_duration_ms=30000)` raises, with every other argument at its default. */
  lemma DurationFilterRaises()
    ensures RecommendationParams(None, None, None, 20, Some("from_token"), [("min_duration_ms", Int(30000))])
         == Failure(UnpackError("min_duration_ms", 3))
  {
    var name := "min_duration_ms";
    assert '_' !in "min" && '_' !in "duration" && '_' !in "ms";
    assert name == "min" + "_" + "duration" + "_" + "ms";
    SplitThreePieces("min", "duration", "ms", '_');
    var attributes := [(name, Int(30000))];
    ApplyAttributesFirstMalformed(SeedAndMarketParams(None, None, None, 20, Some("from_token")), attributes, 0);
  }
}
