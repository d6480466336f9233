/** The actor registry of `actors/mod.rs`: the four typed configurations,
    how a request's actor type and JSON configuration become one of them,
    and what each variant delegates to. Decoding a configuration with
    `serde` is not modelled: it is the `ConfigDecoder` parameter, one
    decoder per actor, each giving the decoded configuration or `serde`'s
    error message. */
module Actors {
  import opened Wrappers
  import opened Json
  import opened Dto
  import Text
  import WebScraperActor
  import GoogleSearchActor
  import InstagramActor
  import TripAdvisorActor

  datatype ActorConfig =
    | WebScraper(webScraper: WebScraperActor.WebScraperConfig)
    | GoogleSearch(googleSearch: GoogleSearchActor.GoogleSearchConfig)
    | Instagram(instagram: InstagramActor.InstagramConfig)
    | TripAdvisor(tripAdvisor: TripAdvisorActor.TripAdvisorConfig)

  /** `serde_json::from_value` for each configuration type. */
  datatype ConfigDecoder = ConfigDecoder(
    webScraper: Json -> Result<WebScraperActor.WebScraperConfig, string>,
    googleSearch: Json -> Result<GoogleSearchActor.GoogleSearchConfig, string>,
    instagram: Json -> Result<InstagramActor.InstagramConfig, string>,
    tripAdvisor: Json -> Result<TripAdvisorActor.TripAdvisorConfig, string>)

  /** The actor types the service knows, in the order it lists them. */
  const ActorTypes: seq<string> := ["web_scraper", "google_search", "instagram", "tripadvisor"]

  /** `actor_type`: always one of the known types. */
  function ActorType(a: ActorConfig): (r: string)
    ensures r in ActorTypes
  {
    match a
    case WebScraper(_) => "web_scraper"
    case GoogleSearch(_) => "google_search"
    case Instagram(_) => "instagram"
    case TripAdvisor(_) => "tripadvisor"
  }

  /** `actor_name`: the Apify actor that runs the configuration, which is
      the actor the metadata of its type names. */
  function ActorName(a: ActorConfig): (r: string)
    ensures GetActorMetadata(ActorType(a)) == Some(ActorMetadata(ActorType(a), r))
  {
    match a
    case WebScraper(_) => "apify/web-scraper"
    case GoogleSearch(_) => "apify/google-search-scraper"
    case Instagram(_) => "apify/instagram-scraper"
    case TripAdvisor(_) => "Hvp4YfFGyLM635Q2F"
  }

  /** Wraps a decoder's outcome, prefixing its error message. */
  function Decoded<C>(r: Result<C, string>, wrap: C -> ActorConfig, prefix: string): Result<ActorConfig, string> {
    match r
    case Success(c) => Success(wrap(c))
    case Failure(e) => Failure(prefix + e)
  }

  /** `from_type_and_config`: the actor type picks the decoder; an unknown
      type is refused by name. */
  function FromTypeAndConfig(actorType: string, config: Json, decode: ConfigDecoder): (r: Result<ActorConfig, string>)
    ensures r.Success? ==> ActorType(r.value) == actorType
    ensures actorType !in ActorTypes ==> r == Failure("Unknown actor type: " + actorType)
    ensures actorType == "web_scraper" ==>
              r == match decode.webScraper(config)
                   case Success(c) => Success(WebScraper(c))
                   case Failure(e) => Failure("Invalid web_scraper config: " + e)
    ensures actorType == "google_search" ==>
              r == match decode.googleSearch(config)
                   case Success(c) => Success(GoogleSearch(c))
                   case Failure(e) => Failure("Invalid google_search config: " + e)
    ensures actorType == "instagram" ==>
              r == match decode.instagram(config)
                   case Success(c) => Success(Instagram(c))
                   case Failure(e) => Failure("Invalid instagram config: " + e)
    ensures actorType == "tripadvisor" ==>
              r == match decode.tripAdvisor(config)
                   case Success(c) => Success(TripAdvisor(c))
                   case Failure(e) => Failure("Invalid tripadvisor config: " + e)
  {
    if actorType == "web_scraper" then
      Decoded(decode.webScraper(config), c => WebScraper(c), "Invalid web_scraper config: ")
    else if actorType == "google_search" then
      Decoded(decode.googleSearch(config), c => GoogleSearch(c), "Invalid google_search config: ")
    else if actorType == "instagram" then
      Decoded(decode.instagram(config), c => Instagram(c), "Invalid instagram config: ")
    else if actorType == "tripadvisor" then
      Decoded(decode.tripAdvisor(config), c => TripAdvisor(c), "Invalid tripadvisor config: ")
    else Failure("Unknown actor type: " + actorType)
  }

  /** `validate`: the wrapped configuration's own validator, whose error
      message comes back unchanged; so, for instance, a web scraper
      configuration passes iff it has http(s) start URLs and a positive page
      limit. */
  function Validate(a: ActorConfig): (r: Result<(), string>)
    ensures a.WebScraper? ==>
              (r.Success? <==> WebScraperActor.StartUrlsOk(a.webScraper.startUrls) && a.webScraper.maxPages > 0)
    ensures a.GoogleSearch? ==>
              (r.Success? <==>
                 GoogleSearchActor.QueriesOk(a.googleSearch.queries) && 1 <= a.googleSearch.maxResults <= 100
                 && GoogleSearchActor.CountryCodeOk(a.googleSearch.countryCode))
    ensures a.Instagram? ==>
              (r.Success? <==> InstagramActor.UsernamesOk(a.instagram.usernames) && a.instagram.maxPosts > 0)
    ensures a.TripAdvisor? ==>
              (r.Success? <==> |a.tripAdvisor.url| > 0 && Text.Contains(a.tripAdvisor.url, "tripadvisor"))
    ensures a.WebScraper? ==> r == WebScraperActor.Validate(a.webScraper)
    ensures a.GoogleSearch? ==> r == GoogleSearchActor.Validate(a.googleSearch)
    ensures a.Instagram? ==> r == InstagramActor.Validate(a.instagram)
    ensures a.TripAdvisor? ==> r == TripAdvisorActor.Validate(a.tripAdvisor)
  {
    match a
    case WebScraper(c) => WebScraperActor.Validate(c)
    case GoogleSearch(c) => GoogleSearchActor.Validate(c)
    case Instagram(c) => InstagramActor.Validate(c)
    case TripAdvisor(c) => TripAdvisorActor.Validate(c)
  }

  /** A JSON object's entries, or nothing for any other value. */
  function ObjectEntries(v: Json): map<string, Json> {
    if v.JObject? then v.fields else map[]
  }

  /** `to_body`: TripAdvisor builds its own body; the others send the
      entries of their serialised configuration, exactly their camelCase
      keys with the configuration's values. */
  function ToBody(a: ActorConfig): (r: map<string, Json>)
    ensures a.WebScraper? ==> r.Keys == {"startUrls", "maxPages", "contentSelector", "useApifyProxy"}
    ensures a.GoogleSearch? ==> r.Keys == {"queries", "maxResults", "language", "countryCode"}
    ensures a.Instagram? ==> r.Keys == {"usernames", "maxPosts", "includeProfileInfo", "includeComments"}
    ensures a.TripAdvisor? ==>
              && "startUrls" in r
              && r.Keys <= {"startUrls", "reviewRatings", "reviewsLanguages", "maxReviews", "includeReviewerInfo"}
    ensures a.TripAdvisor? ==> r == TripAdvisorActor.ApifyBody(a.tripAdvisor)
    ensures a.WebScraper? ==> r == WebScraperActor.ToJson(a.webScraper).fields
    ensures a.GoogleSearch? ==> r == GoogleSearchActor.ToJson(a.googleSearch).fields
    ensures a.Instagram? ==> r == InstagramActor.ToJson(a.instagram).fields
  {
    match a
    case TripAdvisor(c) => TripAdvisorActor.ApifyBody(c)
    case WebScraper(c) => ObjectEntries(WebScraperActor.ToJson(c))
    case GoogleSearch(c) => ObjectEntries(GoogleSearchActor.ToJson(c))
    case Instagram(c) => ObjectEntries(InstagramActor.ToJson(c))
  }

  /** `list_available_actors`: the four actors, in the order of
      `ActorTypes`. */
  function ListAvailableActors(): (r: seq<ActorMetadata>)
    ensures |r| == 4
    ensures forall i :: 0 <= i < 4 ==> r[i].actorType == ActorTypes[i]
  {
    [WebScraperActor.Metadata, GoogleSearchActor.Metadata, InstagramActor.Metadata, TripAdvisorActor.Metadata]
  }

  /** `get_actor_metadata`: some iff the type is known, and then the
      listed entry of that type. */
  function GetActorMetadata(actorType: string): (r: Option<ActorMetadata>)
    ensures r.Some? <==> actorType in ActorTypes
    ensures r.Some? ==> r.value in ListAvailableActors() && r.value.actorType == actorType
  {
    if actorType == "web_scraper" then Some(WebScraperActor.Metadata)
    else if actorType == "google_search" then Some(GoogleSearchActor.Metadata)
    else if actorType == "instagram" then Some(InstagramActor.Metadata)
    else if actorType == "tripadvisor" then Some(TripAdvisorActor.Metadata)
    else None
  }
}
