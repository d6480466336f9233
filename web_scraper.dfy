/** The configuration of the `apify/web-scraper` actor and its validation
    (`actors/web_scraper.rs`). */
module WebScraperActor {
  import opened Wrappers
  import opened Json
  import opened Text
  import opened Filtering
  import opened Dto

  datatype WebScraperConfig = WebScraperConfig(
    startUrls: seq<string>,
    maxPages: uint32,
    contentSelector: Option<string>,
    useApifyProxy: bool)

  /** The value of `max_pages` when the request leaves it out. */
  const DefaultMaxPages: uint32 := 100

  /** A start URL must use the `http` or `https` scheme. */
  predicate IsHttpUrl(url: string) {
    StartsWith(url, "http://") || StartsWith(url, "https://")
  }

  /** `WebScraperConfig::metadata`. */
  const Metadata := ActorMetadata("web_scraper", "apify/web-scraper")

  /** There are start URLs and all are http(s). */
  predicate StartUrlsOk(urls: seq<string>) {
    |urls| > 0 && forall i :: 0 <= i < |urls| ==> IsHttpUrl(urls[i])
  }

  /** `validate`: the checks in source order, the first failing one
      deciding the message. */
  function Validate(c: WebScraperConfig): (r: Result<(), string>)
    ensures r.Success? <==> StartUrlsOk(c.startUrls) && c.maxPages > 0
    ensures |c.startUrls| == 0 ==> r == Failure("start_urls cannot be empty")
    ensures forall i :: 0 <= i < |c.startUrls| && !IsHttpUrl(c.startUrls[i])
                        && (forall j :: 0 <= j < i ==> IsHttpUrl(c.startUrls[j])) ==>
                          r == Failure("Invalid URL: " + c.startUrls[i])
    ensures StartUrlsOk(c.startUrls) && c.maxPages == 0 ==> r == Failure("max_pages must be greater than 0")
  {
    if |c.startUrls| == 0 then Failure("start_urls cannot be empty")
    else
      match FirstFailing(c.startUrls, url => !IsHttpUrl(url))
      case Some(i) => Failure("Invalid URL: " + c.startUrls[i])
      case None =>
        if c.maxPages == 0 then Failure("max_pages must be greater than 0")
        else Success(())
  }

  /** The configuration as `serde` writes it: camelCase keys, and `null`
      for an absent content selector. */
  function ToJson(c: WebScraperConfig): (v: Json)
    ensures v.JObject? && v.fields.Keys == {"startUrls", "maxPages", "contentSelector", "useApifyProxy"}
    ensures v.fields["startUrls"] == StringArray(c.startUrls)
    ensures v.fields["maxPages"] == JNumber(c.maxPages)
    ensures v.fields["contentSelector"] == OptionalString(c.contentSelector)
    ensures v.fields["useApifyProxy"] == JBool(c.useApifyProxy)
  {
    JObject(map["startUrls" := StringArray(c.startUrls),
                "maxPages" := JNumber(c.maxPages),
                "contentSelector" := OptionalString(c.contentSelector),
                "useApifyProxy" := JBool(c.useApifyProxy)])
  }

  /** With the default page limit, a list of http(s) URLs is accepted. */
  lemma DefaultIsValid(urls: seq<string>, selector: Option<string>, proxy: bool)
    requires StartUrlsOk(urls)
    ensures Validate(WebScraperConfig(urls, DefaultMaxPages, selector, proxy)) == Success(())
  {
  }

  /** A URL with another scheme is reported even when later ones are fine. */
  lemma FtpUrlRejected()
    ensures Validate(WebScraperConfig(["ftp://x", "https://y"], 5, None, false)) == Failure("Invalid URL: ftp://x")
  {
    var c := WebScraperConfig(["ftp://x", "https://y"], 5, None, false);
    assert !StartsWith("ftp://x", "http://") by {
      assert "ftp://x"[0] != "http://"[0];
    }
    assert !StartsWith("ftp://x", "https://") by {
      assert "ftp://x"[0] != "https://"[0];
    }
    assert !IsHttpUrl(c.startUrls[0]);
    assert "Invalid URL: " + "ftp://x" == "Invalid URL: ftp://x";
  }
}
