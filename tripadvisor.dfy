/** The configuration of the TripAdvisor reviews actor, its validation and
    the request body built for it by hand (`actors/tripadvisor.rs`). */
module TripAdvisorActor {
  import opened Wrappers
  import opened Json
  import opened Text
  import opened Dto

  datatype TripAdvisorConfig = TripAdvisorConfig(
    url: string,
    reviewRatings: seq<string>,
    reviewsLanguages: seq<string>,
    maxReviews: uint32,
    includeReviewerInfo: bool)

  /** The rating and language filters when the request leaves them out. */
  const DefaultReviewRatings: seq<string> := ["ALL_REVIEW_RATINGS"]
  const DefaultReviewsLanguages: seq<string> := ["ALL_REVIEW_LANGUAGES"]

  /** `TripAdvisorConfig::metadata`; the actor is known by its id. */
  const Metadata := ActorMetadata("tripadvisor", "Hvp4YfFGyLM635Q2F")

  /** `validate`: the URL must be non-empty, and then contain
      "tripadvisor", case-sensitively. */
  function Validate(c: TripAdvisorConfig): (r: Result<(), string>)
    ensures r.Success? <==> |c.url| > 0 && Contains(c.url, "tripadvisor")
    ensures |c.url| == 0 ==> r == Failure("url cannot be empty")
    ensures |c.url| > 0 && !Contains(c.url, "tripadvisor") ==>
              r == Failure("URL does not appear to be a TripAdvisor URL: " + c.url)
  {
    if |c.url| == 0 then Failure("url cannot be empty")
    else if !Contains(c.url, "tripadvisor") then Failure("URL does not appear to be a TripAdvisor URL: " + c.url)
    else Success(())
  }

  /** The single start-URL entry `{"url": url, "method": "GET"}`. */
  function StartUrlEntry(url: string): Json {
    JObject(map["url" := JString(url), "method" := JString("GET")])
  }

  /** The body `to_apify_body` builds: the URL as a one-element `startUrls`
      list, both filters, `maxReviews` only when positive and
      `includeReviewerInfo` only when set, and no other key. */
  function ApifyBody(c: TripAdvisorConfig): (body: map<string, Json>)
    ensures body.Keys <= {"startUrls", "reviewRatings", "reviewsLanguages", "maxReviews", "includeReviewerInfo"}
    ensures "startUrls" in body && body["startUrls"] == JArray([StartUrlEntry(c.url)])
    ensures "reviewRatings" in body && body["reviewRatings"] == StringArray(c.reviewRatings)
    ensures "reviewsLanguages" in body && body["reviewsLanguages"] == StringArray(c.reviewsLanguages)
    ensures "maxReviews" in body <==> c.maxReviews > 0
    ensures "maxReviews" in body ==> body["maxReviews"] == JNumber(c.maxReviews)
    ensures "includeReviewerInfo" in body <==> c.includeReviewerInfo
    ensures "includeReviewerInfo" in body ==> body["includeReviewerInfo"] == JBool(true)
  {
    var base := map["startUrls" := JArray([StartUrlEntry(c.url)]),
                    "reviewRatings" := StringArray(c.reviewRatings),
                    "reviewsLanguages" := StringArray(c.reviewsLanguages)];
    var limited := if c.maxReviews > 0 then base["maxReviews" := JNumber(c.maxReviews)] else base;
    if c.includeReviewerInfo then limited["includeReviewerInfo" := JBool(true)] else limited
  }

  /** `to_apify_body`: the body built by successive inserts. */
  method ToApifyBody(c: TripAdvisorConfig) returns (body: map<string, Json>)
    ensures body == ApifyBody(c)
  {
    body := map[];
    body := body["startUrls" := JArray([StartUrlEntry(c.url)])];
    body := body["reviewRatings" := StringArray(c.reviewRatings)];
    body := body["reviewsLanguages" := StringArray(c.reviewsLanguages)];
    if c.maxReviews > 0 {
      body := body["maxReviews" := JNumber(c.maxReviews)];
    }
    if c.includeReviewerInfo {
      body := body["includeReviewerInfo" := JBool(true)];
    }
  }

  /** A TripAdvisor page with the default filters is accepted, and its body
      holds exactly the start URL and the two default filters. */
  lemma DefaultsBody(url: string)
    requires Contains(url, "tripadvisor")
    ensures var c := TripAdvisorConfig(url, DefaultReviewRatings, DefaultReviewsLanguages, 0, false);
            && Validate(c) == Success(())
            && ApifyBody(c).Keys == {"startUrls", "reviewRatings", "reviewsLanguages"}
            && ApifyBody(c)["reviewRatings"] == JArray([JString("ALL_REVIEW_RATINGS")])
            && ApifyBody(c)["reviewsLanguages"] == JArray([JString("ALL_REVIEW_LANGUAGES")])
  {
    var c := TripAdvisorConfig(url, DefaultReviewRatings, DefaultReviewsLanguages, 0, false);
    var occurs: nat :| occurs <= |url| && OccursAt(url, "tripadvisor", occurs);
    assert |url| > 0;
    assert StringArray(DefaultReviewRatings).items == [JString("ALL_REVIEW_RATINGS")];
    assert StringArray(DefaultReviewsLanguages).items == [JString("ALL_REVIEW_LANGUAGES")];
  }

  /** The match is case-sensitive: a URL that spells the site "TripAdvisor"
      and nowhere "tripadvisor" is rejected. */
  lemma CaseSensitiveHost()
    ensures Validate(TripAdvisorConfig("TripAdvisor", [], [], 0, false))
              == Failure("URL does not appear to be a TripAdvisor URL: TripAdvisor")
  {
    var url := "TripAdvisor";
    forall i: nat | i <= |url| ensures !OccursAt(url, "tripadvisor", i) {
      if i + 11 <= |url| {
        assert i == 0;
        assert url[0] != "tripadvisor"[0];
        assert url[i..i + 11][0] == url[0];
      }
    }
    assert "URL does not appear to be a TripAdvisor URL: " + url == "URL does not appear to be a TripAdvisor URL: TripAdvisor";
  }
}
