# Browse endpoints of the spotipy client, modelled in Dafny

This project models `SpotifyBrowse` (`spotipy/client/browse.py`). That class is the part of the
Spotify Web API client that serves the browse and discovery endpoints:

- featured playlists
- new releases
- categories, one category, and the playlists of a category
- recommendations, and the genres that recommendations accept as seeds

Each method makes exactly one call `self._get(path, **params)` and then picks fields out of the
decoded JSON. `recommendations` does more before it sends anything:

- it comma-joins the three seed lists;
- it sends `market` only when it is not `None`;
- it filters its free-form keyword arguments (`min_tempo=120`, …) against two allow-sets;
- it raises on a keyword name that does not split into exactly two `_`-separated pieces.

Files:

- `wrappers.dfy`: `Option` and a `Result` that works with `:-`.
- `strings.dfy`: Python's `str.split(sep)`, `str.split(sep, 1)` and `sep.join(...)` for a
  one-character separator. It proves their round trips.
- `http.dfy`: what the browse class sees of its base class. This covers:
  - a request (path plus a parameter map whose values are a string, an integer or `None`);
  - the decoded JSON;
  - the exceptions;
  - `_get` as a function parameter `Transport`;
  - `json[key]` and `**json`.

  Every operation returns a `Call`: the requests it sent, in order, plus its value or the
  exception it raised.
- `model.dfy`: the response classes of `spotipy.model`. Each keeps the keyword arguments it was
  built from.
- `browse.dfy`: the seven methods and the two allow-sets.
  - The six one-line methods are functions.
  - `recommendations` is a method. It builds the parameter map step by step and runs a `while`
    loop over the keyword arguments. It is proved against the function `RecommendationParams`.
- `browse_fixed.dfy`: the keyword filter with the correction described under Findings.

Arguments that Python types as `str = None` are `Option<string>`. Such an argument always goes
into the parameter map, as `Null` when it is `None`, except `category_playlists`' `category_id`,
which is rendered into the path (`None` as the text `None`). The default values are the source's, written
as Dafny default parameters (`limit := 20`, `offset := 0`, `market := Some("from_token")`). The
keyword arguments of `recommendations` are a sequence of (name, value) pairs in call order. This
is the order Python's `**attributes` dictionary keeps.

## Model

| member | source | states |
|---|---|---|
| `Strings.SplitPieces` | spotipy/client/browse.py:253 | `name.split('_')` gives one piece more than there are underscores, and no piece contains one. |
| `Strings.JoinSplit` | spotipy/client/browse.py:253 | Joining the pieces of a split with the separator gives back the original name. |
| `Strings.SplitJoin` | spotipy/client/browse.py:243-248 | Splitting a comma-joined list on commas gives back the list. This holds when the list is non-empty and no element contains a comma. |
| `Strings.SplitAfterPiece` | spotipy/client/browse.py:253 | A separator after a separator-free piece closes the first piece of the split. |
| `Strings.SplitOnceAgreesWithSplit` | spotipy/client/browse.py:253 | On a name with at most one underscore, `split('_', 1)` and `split('_')` give the same pieces. |
| `Strings.SplitOnce` | spotipy/client/browse.py:253 | `split(sep, 1)` gives two pieces exactly when the separator occurs. The first piece is separator-free, and the two pieces rejoined give the input. |
| `Strings.Split` | spotipy/client/browse.py:253 | `name.split('_')` always gives at least one piece. `SplitPieces` pins the piece count to the separator count plus one with no separator in any piece, and `JoinSplit` shows the pieces rejoin to the name. |
| `Strings.Join` | spotipy/client/browse.py:243-248 | `','.join(ids)` is as long as all ids together plus one comma between each two. `SplitJoin` shows splitting on commas gives the list back. |
| `Http.OptStr` | spotipy/client/browse.py:65-72 | A `str`-or-`None` argument is passed on unchanged: `Null` exactly when it is `None`, and it can be read back. |
| `Http.Subscript` | spotipy/client/browse.py:73 | `json[key]` returns the field when the object has it. It raises `KeyError(key)` on an object without it and `TypeError` on a non-object. |
| `Http.Kwargs` | spotipy/client/browse.py:73 | `**json` succeeds exactly on an object and gives its fields; on anything else it raises `TypeError`. |
| `Browse.FeaturedPlaylistsRequest` | spotipy/client/browse.py:32-72 | Path `browse/featured-playlists`. The parameter keys are exactly {locale, country, timestamp, limit, offset}, and each carries its own argument: a string argument as `Str`, `None` as `Null`. |
| `Browse.FeaturedPlaylists` | spotipy/client/browse.py:65-73 | Sends exactly that one request. A transport error propagates unchanged. It succeeds exactly when the body has `message` and an object `playlists`, and returns `message` unchanged with the page built from `playlists`. A missing `message` raises `KeyError("message")` before `playlists` is looked at. A body that is not an object, or a `playlists` field that is not one, raises `TypeError`. |
| `Browse.NewReleasesRequest` | spotipy/client/browse.py:75-104 | Path `browse/new-releases`. The keys are exactly {country, limit, offset}, each carrying its argument; `country` is `Null` exactly when it is `None`. |
| `Browse.NewReleases` | spotipy/client/browse.py:99-105 | One request. Returns `message` paired with the page built from `albums`; a missing field raises `KeyError`; a body or `albums` field that is not an object raises `TypeError`; a transport error propagates. |
| `Browse.CategoriesRequest` | spotipy/client/browse.py:107-140 | Path `browse/categories`. The keys are exactly {country, locale, limit, offset}, each carrying its argument; a string argument is `Null` exactly when it is `None`. |
| `Browse.Categories` | spotipy/client/browse.py:134-141 | One request. Returns the page built from field `categories`; a missing field raises `KeyError("categories")`, and a body or `categories` field that is not an object raises `TypeError`. |
| `Browse.CategoryRequest` | spotipy/client/browse.py:143-171 | The path is `browse/categories/` followed by the id, and the id can be read back from it. The keys are exactly {country, locale}, each `Null` exactly when its argument is `None` and the string otherwise. |
| `Browse.Category` | spotipy/client/browse.py:167-172 | One request. The whole body becomes the category, which succeeds exactly when the body is an object; otherwise `TypeError` is raised. |
| `Browse.Interpolate` | spotipy/client/browse.py:201 | The f-string renders a given id unchanged and `None` as the text `None`; the path therefore cannot tell a `None` id from the id `"None"`. |
| `Browse.CategoryPlaylistsRequest` | spotipy/client/browse.py:174-205 | The path is `browse/categories/<id>/playlists`. With the default id `None` it is `browse/categories/None/playlists`. The keys are exactly {country, limit, offset}, each carrying its argument; `country` is `Null` exactly when it is `None`. |
| `Browse.CategoryPlaylists` | spotipy/client/browse.py:200-206 | One request. Returns the page built from field `playlists`; a missing field raises `KeyError("playlists")`, and a body or `playlists` field that is not an object raises `TypeError`. |
| `Browse.DefaultRequests` | spotipy/client/browse.py:32-205 | With all arguments at their defaults, the fixed-path requests send `None` for every string argument, `limit` 20 and `offset` 0. |
| `Browse.RecommendationGenreSeeds` | spotipy/client/browse.py:260-269 | One request to `recommendations/available-genre-seeds` with no parameters. Returns field `genres` unchanged; a missing field raises `KeyError("genres")`, and a body that is not an object raises `TypeError`. |
| `Browse.SeedAndMarketParams` | spotipy/client/browse.py:242-250 | The entries made before the keyword loop: `limit` always, each `seed_*` exactly when its list is given as the comma-join of that list, `market` exactly when it is not `None`, and no other key. `RecommendationsFixedEntries` shows the loop keeps them. |
| `Browse.RecommendationParams` | spotipy/client/browse.py:242-255 | What `recommendations` sends: it fails exactly when some keyword name does not split in two, and otherwise the keys are the fixed entries plus exactly the accepted filter names. The method `Recommendations` is proved to compute it. |
| `Browse.ApplyAttributes` | spotipy/client/browse.py:252-255 | The keyword loop succeeds exactly when every name splits into two pieces. On success, the keys are the earlier keys plus exactly the accepted names. |
| `Browse.Recommendations` | spotipy/client/browse.py:208-258 | The imperative method. When the parameters fail, it sends nothing and raises that error. Otherwise it sends exactly one request `recommendations` with the parameters of `RecommendationParams`. A transport error propagates; an object body becomes the recommendations, and any other body raises `TypeError`. |
| `Browse.ApplyAttributesKeepsOthers` | spotipy/client/browse.py:252-255 | An entry made before the loop keeps its value unless an accepted keyword has its name. |
| `Browse.ApplyAttributesEntersAccepted` | spotipy/client/browse.py:252-255 | With distinct names, every accepted keyword is entered with exactly the value it was given. |
| `Browse.ApplyAttributesFirstMalformed` | spotipy/client/browse.py:252-253 | The exception raised is the unpacking error of the first keyword that does not split in two. |
| `Browse.RecommendationKeyNotAccepted` | spotipy/client/browse.py:242-255 | None of `limit`, `market`, `seed_artists`, `seed_genres` and `seed_tracks` can pass the filter. So the loop never overwrites them. |
| `Browse.AcceptedForm` | spotipy/client/browse.py:253-254 | For an allowed prefix, `<prefix>_<attr>` is accepted exactly when `attr` is an allowed attribute AND contains no underscore. |
| `Browse.AcceptedHasFilterPrefix` | spotipy/client/browse.py:252-255 | Every accepted name starts with `min_`, `max_` or `target_`. |
| `Browse.RecommendationsRaise` | spotipy/client/browse.py:252-257 | If some keyword is malformed, `recommendations` raises the error for the first one, whatever the other arguments. |
| `Browse.RecommendationsFixedEntries` | spotipy/client/browse.py:242-250 | `limit` is always sent with its value unchanged. `market` is sent verbatim exactly when it is not `None`. Each `seed_*` is sent exactly when its list is given, as the comma-join of that list. |
| `Browse.RecommendationsFilters` | spotipy/client/browse.py:242-255 | Every accepted keyword is sent with its value. Every other keyword is not sent, unless it is one of the method's own keys. Every key sent is one of the method's own keys or an accepted name starting with `min_`, `max_` or `target_`. |
| `Browse.RecommendationsSeedsRoundTrip` | spotipy/client/browse.py:243-248 | Splitting a sent seed value on commas gives back the list. This holds when the list is non-empty and its ids contain no comma. |
| `Browse.RecommendationsEmptySeeds` | spotipy/client/browse.py:243-244 | An empty seed list is sent as the empty string. |
| `Browse.UnderscoredAttributeRaises` | spotipy/client/browse.py:16-26 | A filter on an allowed attribute that contains an underscore (`duration_ms`, `time_signature`) splits into three or more pieces, so it always raises. |
| `Browse.DurationFilterRaises` | spotipy/client/browse.py:253 | `recommendations(min_duration_ms=30000)` raises an unpacking error with three pieces. |
| `BrowseFixed.FixedApplyAttributes` | spotipy/client/browse.py:252-255 | The corrected loop (split at the first underscore) raises exactly when some name has no underscore. |
| `BrowseFixed.FixedAcceptsEveryFilter` | spotipy/client/browse.py:12-28 | Under the correction, every allowed prefix joined to every allowed attribute, `duration_ms` and `time_signature` included, splits back into that prefix and attribute and is accepted. |
| `BrowseFixed.FixedSendsFilter` | spotipy/client/browse.py:252-255 | Under the correction, a single allowed filter is entered with its value. |
| `BrowseFixed.FixedAgreesWithSource` | spotipy/client/browse.py:253 | On names with at most one underscore, the corrected loop and the loop as written give the same result. |
| `BrowseFixed.FixedDurationFilterSent` | spotipy/client/browse.py:253 | Under the correction, `min_duration_ms=30000` is sent beside `limit` and `market`. |

## Left out

- `_get` and the HTTP transport are not part of this model. That covers authentication, the
  network, retries and error surfacing. `_get` is the parameter `get: Transport`, and what it
  raises is passed through unchanged.
- `browse.py` passes `None` arguments through unchanged, and the model records them as `Null`.
  Whether `SpotifyBase._get` drops them is outside this model.
- The constructors of `spotipy.model` (`SimplePlaylistPaging`, `SimpleAlbumPaging`,
  `CategoryPaging`, `Category`, `Recommendations`) are not part of this model. Each is an opaque
  wrapper of the keyword arguments it receives. Their own validation, such as unexpected keys or
  the paging invariant `offset + len(items) <= total`, is not modelled.
- JSON numbers are integers, and a keyword value is a string, an integer or `None`. Floating-point
  values such as `target_energy=0.8` are not modelled.
- The limit ranges (1..50, 1..100) and the ISO country, locale and timestamp formats in the
  docstrings are never checked by the code. They are plain pass-through values, not
  preconditions.
- Arguments are typed: a seed list is a list of strings, and `limit` and `offset` are integers.
  The `TypeError` that Python raises for other types (for example `','.join` on non-strings) is
  not modelled.
- Python never puts a keyword that names one of the method's own parameters (`limit`, `market`,
  `artist_ids`, …) into `**attributes`. Nothing in the model excludes such a name. The lemmas
  about values assume distinct keyword names, as a Python call guarantees.
- tests/util.py tests token handling and configuration helpers, which are not part of this model.
- The operations in `browse.dfy` model the keyword filter as written. The corrected filter in
  `browse_fixed.dfy` is a separate definition that the operations do not call.

## Findings

| source | as written | input that shows it | evidently intended | confidence | as-written member | corrected member |
|---|---|---|---|---|---|---|
| spotipy/client/browse.py:253 | `p, a = name.split('_')` needs exactly one underscore. So `duration_ms` (line 16) and `time_signature` (line 26), although allowed, can never be filtered on: the whole call raises before any request. | `recommendations(min_duration_ms=30000)` | Split at the first underscore only (`name.split('_', 1)`), so that every allowed prefix with every allowed attribute is sent. | high; not executed | `Browse.DurationFilterRaises` | `BrowseFixed.FixedSendsFilter` |
