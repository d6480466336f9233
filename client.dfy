/** The Apify REST client of `client.rs`. The classification of a run's
    status string is modelled exactly; so are the three request URLs. The
    HTTP requests themselves are not: the remote service is the `Platform`
    object, whose replies are fixed in advance and which records every
    request made to it. */
module Client {
  import opened Wrappers
  import opened Json
  import opened Text
  import opened Dto

  /** `client::State`. */
  datatype RunState = Running | Succeeded | Failed

  /** The `match` in `check_completion`: only the two exact upper-case
      strings are recognised, and everything else means failure. */
  function Classify(status: string): (s: RunState)
    ensures s == Succeeded <==> status == "SUCCEEDED"
    ensures s == Running <==> status == "RUNNING"
    ensures s == Failed <==> status != "SUCCEEDED" && status != "RUNNING"
  {
    if status == "SUCCEEDED" then Succeeded
    else if status == "RUNNING" then Running
    else Failed
  }

  /** A run that is still queued, or a status in lower case, counts as a
      failed run. */
  lemma UnknownStatusesFail()
    ensures Classify("READY") == Failed
    ensures Classify("succeeded") == Failed
    ensures Classify("running") == Failed
  {
    assert "succeeded"[0] != "SUCCEEDED"[0];
    assert "running"[0] != "RUNNING"[0];
  }

  /** A request URL: a fixed prefix, an id, a fixed middle ending in
      `token=`, and the API token. */
  datatype UrlTemplate = UrlTemplate(prefix: string, middle: string)

  /** POST, to start a run of an actor. */
  const StartRunUrl := UrlTemplate("https://api.apify.com/v2/acts/", "/runs?token=")
  /** GET, for the items of a dataset. */
  const DatasetItemsUrl := UrlTemplate("https://api.apify.com/v2/datasets/", "/items?token=")
  /** GET, for the state of a run. */
  const RunStatusUrl := UrlTemplate("https://api.apify.com/v2/actor-runs/", "?token=")

  /** The `format!` of a template. */
  function Fill(t: UrlTemplate, id: string, token: string): string {
    t.prefix + id + t.middle + token
  }

  /** The three request URLs as the client writes them. */
  lemma RequestUrls(id: string, token: string)
    ensures Fill(StartRunUrl, id, token) == "https://api.apify.com/v2/acts/" + id + "/runs?token=" + token
    ensures Fill(DatasetItemsUrl, id, token) == "https://api.apify.com/v2/datasets/" + id + "/items?token=" + token
    ensures Fill(RunStatusUrl, id, token) == "https://api.apify.com/v2/actor-runs/" + id + "?token=" + token
  {
  }

  /** The position of the last `c` in `s`. */
  function LastIndexOf(s: string, c: char): (r: Option<nat>)
    ensures r.None? <==> c !in s
    ensures r.Some? ==> r.value < |s| && s[r.value] == c && c !in s[r.value + 1..]
  {
    if |s| == 0 then None
    else if s[|s| - 1] == c then Some(|s| - 1)
    else
      var r := LastIndexOf(s[..|s| - 1], c);
      assert r.Some? ==> s[r.value + 1..] == s[..|s| - 1][r.value + 1..] + [s[|s| - 1]];
      assert r.None? ==> s == s[..|s| - 1] + [s[|s| - 1]];
      r
  }

  /** Reads the id and the token back out of a URL: the token is what
      follows the last `=`. */
  function Parse(t: UrlTemplate, url: string): Option<(string, string)> {
    match LastIndexOf(url, '=')
    case None => None
    case Some(p) =>
      var head := url[..p + 1];
      if |t.prefix| + |t.middle| <= |head| && StartsWith(head, t.prefix)
         && head[|head| - |t.middle|..] == t.middle
      then Some((head[|t.prefix|..|head| - |t.middle|], url[p + 1..]))
      else None
  }

  /** A filled template gives back its id and token, provided the token has
      no `=`; the id may hold any character, `/` and `=` included. */
  lemma ParseFill(t: UrlTemplate, id: string, token: string)
    requires |t.middle| > 0 && t.middle[|t.middle| - 1] == '='
    requires '=' !in token
    ensures Parse(t, Fill(t, id, token)) == Some((id, token))
  {
    var url := Fill(t, id, token);
    var head := t.prefix + id + t.middle;
    assert url == head + token;
    var p := |head| - 1;
    assert url[p] == '=';
    assert url[p + 1..] == token;
    assert '=' !in url[p + 1..];
    assert LastIndexOf(url, '=') == Some(p);
    assert url[..p + 1] == head;
    assert head[|t.prefix|..|head| - |t.middle|] == id;
    assert head[|head| - |t.middle|..] == t.middle;
    assert head[..|t.prefix|] == t.prefix;
  }

  /** Whatever parses is the filling of what it parses to. */
  lemma FillParse(t: UrlTemplate, url: string)
    requires Parse(t, url).Some?
    ensures Fill(t, Parse(t, url).value.0, Parse(t, url).value.1) == url
  {
    var p := LastIndexOf(url, '=').value;
    var head := url[..p + 1];
    assert head == t.prefix + head[|t.prefix|..|head| - |t.middle|] + t.middle;
    assert url == head + url[p + 1..];
  }

  /** The three templates end in `token=`, so their URLs round-trip. */
  lemma TemplatesEndInToken()
    ensures StartRunUrl.middle[|StartRunUrl.middle| - 1] == '='
    ensures DatasetItemsUrl.middle[|DatasetItemsUrl.middle| - 1] == '='
    ensures RunStatusUrl.middle[|RunStatusUrl.middle| - 1] == '='
  {
  }

  /** What one status check can return: the run's status string, or an
      error from the request or from decoding its reply. */
  datatype StatusReply = Status(status: string) | Unreachable

  /** The state a reply reports, or None when the check itself failed. */
  function ReplyState(reply: StatusReply): Option<RunState> {
    match reply
    case Status(s) => Some(Classify(s))
    case Unreachable => None
  }

  /** What a start request gives back: the new run, or the service's error
      as a remote failure. */
  function StartReplyOutcome(reply: Result<RunData, string>): (r: Result<RunData, JobError>)
    ensures r.Success? <==> reply.Success?
    ensures r.Success? ==> r.value == reply.value
    ensures r.Failure? ==> r.error == Remote(reply.error)
  {
    match reply
    case Success(d) => Success(d)
    case Failure(e) => Failure(Remote(e))
  }

  /** The Apify service as this client sees it. Its replies are fixed in
      advance: `replyAt(n)` answers the n-th status check. It counts the
      requests made and keeps the URL of every one, in order. */
  class Platform {
    const replyAt: nat -> StatusReply
    const startReply: Result<RunData, string>
    const downloadReply: Result<seq<Json>, string>
    var statusChecks: nat
    var downloads: nat
    var started: seq<(string, map<string, Json>)>
    var requests: seq<string>

    constructor (replyAt: nat -> StatusReply, startReply: Result<RunData, string>,
                 downloadReply: Result<seq<Json>, string>)
      ensures this.replyAt == replyAt && this.startReply == startReply && this.downloadReply == downloadReply
      ensures statusChecks == 0 && downloads == 0 && started == [] && requests == []
    {
      this.replyAt := replyAt;
      this.startReply := startReply;
      this.downloadReply := downloadReply;
      statusChecks := 0;
      downloads := 0;
      started := [];
      requests := [];
    }
  }

  /** `ApiFyClient`: the token it sends with every request, and the
      service it talks to. */
  class ApifyClient {
    const token: string
    const platform: Platform

    /** `ApiFyClient::new`. */
    constructor (token: string, platform: Platform)
      ensures this.token == token && this.platform == platform
    {
      this.token := token;
      this.platform := platform;
    }

    /** `start_job`: one POST that starts `actor` with `body`. */
    method StartJob(actor: string, body: map<string, Json>) returns (r: Result<RunData, JobError>)
      modifies platform
      ensures r == StartReplyOutcome(platform.startReply)
      ensures platform.started == old(platform.started) + [(actor, body)]
      ensures platform.requests == old(platform.requests) + [Fill(StartRunUrl, actor, token)]
      ensures platform.statusChecks == old(platform.statusChecks) && platform.downloads == old(platform.downloads)
    {
      platform.started := platform.started + [(actor, body)];
      platform.requests := platform.requests + [Fill(StartRunUrl, actor, token)];
      r := StartReplyOutcome(platform.startReply);
    }

    /** `check_completion`: one GET of the run's status, classified. */
    method CheckCompletion(runId: string) returns (r: Result<RunState, JobError>)
      modifies platform
      ensures r == match platform.replyAt(old(platform.statusChecks))
                   case Status(s) => Success(Classify(s))
                   case Unreachable => Failure(Remote("status check failed"))
      ensures platform.statusChecks == old(platform.statusChecks) + 1
      ensures platform.requests == old(platform.requests) + [Fill(RunStatusUrl, runId, token)]
      ensures platform.started == old(platform.started) && platform.downloads == old(platform.downloads)
    {
      var reply := platform.replyAt(platform.statusChecks);
      platform.statusChecks := platform.statusChecks + 1;
      platform.requests := platform.requests + [Fill(RunStatusUrl, runId, token)];
      match reply
      case Status(s) => r := Success(Classify(s));
      case Unreachable => r := Failure(Remote("status check failed"));
    }

    /** `download_results`: one GET of the dataset's items. */
    method DownloadResults(datasetId: string) returns (r: Result<seq<Json>, JobError>)
      modifies platform
      ensures r == match platform.downloadReply
                   case Success(items) => Success(items)
                   case Failure(e) => Failure(Remote(e))
      ensures platform.downloads == old(platform.downloads) + 1
      ensures platform.requests == old(platform.requests) + [Fill(DatasetItemsUrl, datasetId, token)]
      ensures platform.started == old(platform.started) && platform.statusChecks == old(platform.statusChecks)
    {
      platform.downloads := platform.downloads + 1;
      platform.requests := platform.requests + [Fill(DatasetItemsUrl, datasetId, token)];
      match platform.downloadReply
      case Success(items) => r := Success(items);
      case Failure(e) => r := Failure(Remote(e));
    }
  }
}
