/**
 * The keyword filter of `recommendations` as its allow-set evidently intends
 * it: splitting a name at its first underscore only (`name.split('_', 1)`), so
 * that `duration_ms` and `time_signature` can be filtered on too. The
 * operations in module Browse keep the filter as written; this module states
 * what the correction changes and what it keeps.
 */
module BrowseFixed {
  import opened Wrappers
  import opened Strings
  import opened Http
  import opened Browse

  /** A keyword filter the corrected loop sends. */
  predicate FixedAccepted(name: string) {
    var parts := SplitOnce(name, '_');
    |parts| == 2 && parts[0] in RecommendationPrefixes && parts[1] in RecommendationAttributes
  }

  /** The keyword loop with the name split at its first underscore only. */
  function FixedApplyAttributes(params: map<string, Value>, attributes: seq<(string, Value)>)
    : (r: Result<map<string, Value>, Error>)
    ensures r.Success? <==> forall i :: 0 <= i < |attributes| ==> '_' in attributes[i].0
    decreases |attributes|
  {
    if attributes == [] then Success(params)
    else
      var name := attributes[0].0;
      var parts := SplitOnce(name, '_');
      assert forall i :: 1 <= i < |attributes| ==> attributes[i] == attributes[1..][i - 1];
      if |parts| != 2 then Failure(UnpackError(name, |parts|))
      else if parts[0] in RecommendationPrefixes && parts[1] in RecommendationAttributes
      then FixedApplyAttributes(params[name := attributes[0].1], attributes[1..])
      else FixedApplyAttributes(params, attributes[1..])
  }

  /** The parameters the corrected `recommendations` sends. */
  function FixedRecommendationParams(
    artistIds: Option<seq<string>>, genres: Option<seq<string>>, trackIds: Option<seq<string>>,
    limit: int, market: Option<string>, attributes: seq<(string, Value)>): Result<map<string, Value>, Error>
  {
    FixedApplyAttributes(SeedAndMarketParams(artistIds, genres, trackIds, limit, market), attributes)
  }

  /** Every allowed prefix with every allowed attribute, `duration_ms` and `time_signature` included, is sent. */
  lemma FixedAcceptsEveryFilter(prefix: string, attribute: string)
    requires prefix in RecommendationPrefixes && attribute in RecommendationAttributes
    ensures SplitOnce(prefix + "_" + attribute, '_') == [prefix, attribute]
    ensures FixedAccepted(prefix + "_" + attribute)
  {
    assert '_' !in prefix;
    SplitOnceAfterPiece(prefix, attribute, '_');
  }

  /** A single allowed filter is entered with its value, whatever the attribute. */
  lemma FixedSendsFilter(params: map<string, Value>, prefix: string, attribute: string, value: Value)
    requires prefix in RecommendationPrefixes && attribute in RecommendationAttributes
    ensures FixedApplyAttributes(params, [(prefix + "_" + attribute, value)])
         == Success(params[prefix + "_" + attribute := value])
  {
    FixedAcceptsEveryFilter(prefix, attribute);
    var attributes := [(prefix + "_" + attribute, value)];
    assert attributes[1..] == [];
  }

  /** On names with at most one underscore the correction changes nothing. */
  lemma {:induction false} FixedAgreesWithSource(params: map<string, Value>, attributes: seq<(string, Value)>)
    requires forall i :: 0 <= i < |attributes| ==> Occurrences(attributes[i].0, '_') <= 1
    ensures FixedApplyAttributes(params, attributes) == ApplyAttributes(params, attributes)
    decreases |attributes|
  {
    if attributes != [] {
      var name := attributes[0].0;
      SplitOnceAgreesWithSplit(name, '_');
      var rest := attributes[1..];
      assert forall i :: 0 <= i < |rest| ==> rest[i] == attributes[i + 1];
      var next := if Accepted(name) then params[name := attributes[0].1] else params;
      FixedAgreesWithSource(next, rest);
    }
  }

  /** `recommendations(min_duration_ms=30000)`, corrected, sends the filter beside `limit` and `market`. */
  lemma FixedDurationFilterSent()
    ensures FixedRecommendationParams(None, None, None, 20, Some("from_token"), [("min_duration_ms", Int(30000))])
         == Success(map["limit" := Int(20), "market" := Str("from_token"), "min_duration_ms" := Int(30000)])
  {
    assert "duration_ms" in RecommendationAttributes;
    FixedSendsFilter(map["limit" := Int(20), "market" := Str("from_token")], "min", "duration_ms", Int(30000));
    assert "min" + "_" + "duration_ms" == "min_duration_ms";
  }
}
