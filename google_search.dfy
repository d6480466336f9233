/** The configuration of the `apify/google-search-scraper` actor and its
    validation (`actors/google_search.rs`). */
module GoogleSearchActor {
  import opened Wrappers
  import opened Json
  import opened Text
  import opened Filtering
  import opened Dto

  datatype GoogleSearchConfig = GoogleSearchConfig(
    queries: seq<string>,
    maxResults: uint32,
    language: string,
    countryCode: Option<string>)

  /** The values of `max_results` and `language` when the request leaves
      them out. */
  const DefaultMaxResults: uint32 := 10
  const DefaultLanguage := "en"

  /** `GoogleSearchConfig::metadata`. */
  const Metadata := ActorMetadata("google_search", "apify/google-search-scraper")

  /** A present country code must be two bytes long in UTF-8. */
  predicate CountryCodeOk(code: Option<string>) {
    code.None? || Utf8Len(code.value) == 2
  }

  /** There are queries and none is blank. */
  predicate QueriesOk(queries: seq<string>) {
    |queries| > 0 && forall i :: 0 <= i < |queries| ==> !IsBlank(queries[i])
  }

  /** `validate`: the checks in source order, the first failing one
      deciding the message. */
  function Validate(c: GoogleSearchConfig): (r: Result<(), string>)
    ensures r.Success? <==> QueriesOk(c.queries) && 1 <= c.maxResults <= 100 && CountryCodeOk(c.countryCode)
    ensures |c.queries| == 0 ==> r == Failure("queries cannot be empty")
    ensures |c.queries| > 0 && !QueriesOk(c.queries) ==> r == Failure("query cannot be empty")
    ensures QueriesOk(c.queries) && !(1 <= c.maxResults <= 100) ==>
              r == Failure("max_results must be between 1 and 100")
    ensures QueriesOk(c.queries) && 1 <= c.maxResults <= 100 && !CountryCodeOk(c.countryCode) ==>
              r == Failure("country_code must be 2 characters")
  {
    if |c.queries| == 0 then Failure("queries cannot be empty")
    else if FirstFailing(c.queries, IsBlank).Some? then Failure("query cannot be empty")
    else if c.maxResults == 0 || c.maxResults > 100 then Failure("max_results must be between 1 and 100")
    else if !CountryCodeOk(c.countryCode) then Failure("country_code must be 2 characters")
    else Success(())
  }

  /** The configuration as `serde` writes it: camelCase keys, and `null`
      for an absent country code. */
  function ToJson(c: GoogleSearchConfig): (v: Json)
    ensures v.JObject? && v.fields.Keys == {"queries", "maxResults", "language", "countryCode"}
    ensures v.fields["queries"] == StringArray(c.queries)
    ensures v.fields["maxResults"] == JNumber(c.maxResults)
    ensures v.fields["language"] == JString(c.language)
    ensures v.fields["countryCode"] == OptionalString(c.countryCode)
  {
    JObject(map["queries" := StringArray(c.queries),
                "maxResults" := JNumber(c.maxResults),
                "language" := JString(c.language),
                "countryCode" := OptionalString(c.countryCode)])
  }

  /** The defaults pass validation for any list of non-blank queries. */
  lemma DefaultIsValid(queries: seq<string>)
    requires QueriesOk(queries)
    ensures Validate(GoogleSearchConfig(queries, DefaultMaxResults, DefaultLanguage, None)) == Success(())
  {
  }

  /** A country code is measured in bytes: "us" passes, while "é" (one
      character, two bytes) passes too and "usa" fails. */
  lemma CountryCodeBytes()
    ensures CountryCodeOk(Some("us"))
    ensures CountryCodeOk(Some("é"))
    ensures !CountryCodeOk(Some("usa"))
  {
    assert Utf8Len("us") == 2 by {
      assert "us"[1..][1..] == [];
    }
    assert Utf8Len("é") == 2 by {
      assert "é"[1..] == [];
    }
    assert Utf8Len("usa") == 3 by {
      assert "usa"[1..][1..][1..] == [];
    }
  }
}
