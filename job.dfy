/** Job orchestration (`job.rs`): merging the caller's state into a request
    body, starting a run, polling it to completion within a fixed number of
    attempts, and the two job runners that sequence these steps. The clock
    behind `Context::new()` is passed in, once for the validation of the
    state mapping and once for the final update. Waiting between polls is
    not modelled. */
module Job {
  import opened Wrappers
  import opened Json
  import opened Time
  import opened Writes
  import opened Dto
  import opened Extraction
  import opened MappingUtils
  import opened Client
  import Actors

  /** The poll bound: 300 attempts, one per second. */
  const MaxPollAttempts: nat := 300

  /** The foreign libraries a job uses: `serde` for the actor
      configuration and for JSON text, `chrono` for dates, and the script
      interpreter of the state mapper. */
  datatype Libraries = Libraries(decode: Actors.ConfigDecoder, parseJson: JsonParser,
                                 parseDate: DateParser, eval: Evaluator)

  // ---------------------------------------------------------------------
  // apply_state_mapping and the bodies it completes

  /** The writes `apply_state_mapping` performs: `body[to] := state[from]`
      for every rule whose `from` is in the state, in order. */
  function MergeWrites(state: map<string, Json>, rules: seq<StateMapping>): seq<(string, Json)> {
    if |rules| == 0 then []
    else
      var prev := MergeWrites(state, rules[..|rules| - 1]);
      var m := rules[|rules| - 1];
      if m.from in state then prev + [(m.to, state[m.from])] else prev
  }

  /** The merged body, or `StateNotAnObject` when the state does not parse
      as a JSON object. */
  function MergedBody(body: map<string, Json>, stateText: string, rules: Option<seq<StateMapping>>,
                      parse: JsonParser): Result<map<string, Json>, JobError>
  {
    match ParseObject(stateText, parse)
    case None => Failure(StateNotAnObject)
    case Some(state) => Success(ApplyWrites(body, MergeWrites(state, if rules.Some? then rules.value else [])))
  }

  /** `apply_state_mapping`: the Rust function updates `body` in place and
      returns early, leaving it untouched, when the state does not parse. */
  method ApplyStateMapping(body: map<string, Json>, stateText: string, stateMapping: Option<seq<StateMapping>>,
                           parse: JsonParser)
    returns (r: Result<map<string, Json>, JobError>)
    ensures r == MergedBody(body, stateText, stateMapping, parse)
  {
    var parsed := ParseObject(stateText, parse);
    if parsed.None? {
      return Failure(StateNotAnObject);
    }
    var state := parsed.value;
    var merged := body;
    if stateMapping.Some? {
      var mapping := stateMapping.value;
      for i := 0 to |mapping|
        invariant merged == ApplyWrites(body, MergeWrites(state, mapping[..i]))
      {
        var m := mapping[i];
        MergeStep(body, state, mapping, i);
        if m.from in state {
          merged := merged[m.to := state[m.from]];
        }
      }
      assert mapping[..|mapping|] == mapping;
    }
    return Success(merged);
  }

  /** One more rule performs one more write when its `from` is in the state. */
  lemma MergeStep(body: map<string, Json>, state: map<string, Json>, rules: seq<StateMapping>, i: nat)
    requires i < |rules|
    ensures ApplyWrites(body, MergeWrites(state, rules[..i + 1])) ==
            if rules[i].from in state then ApplyWrites(body, MergeWrites(state, rules[..i]))[rules[i].to := state[rules[i].from]]
            else ApplyWrites(body, MergeWrites(state, rules[..i]))
  {
    assert rules[..i + 1][..i] == rules[..i];
    var prev := MergeWrites(state, rules[..i]);
    if rules[i].from in state {
      var ws := prev + [(rules[i].to, state[rules[i].from])];
      assert ws[..|ws| - 1] == prev;
    }
  }

  /** The writes are those of the rules whose `from` is in the state. */
  lemma {:induction false} MergeWritesIff(state: map<string, Json>, rules: seq<StateMapping>, k: string)
    ensures (exists i :: 0 <= i < |MergeWrites(state, rules)| && MergeWrites(state, rules)[i].0 == k) <==>
              exists j :: 0 <= j < |rules| && rules[j].to == k && rules[j].from in state
  {
    if |rules| > 0 {
      var front := rules[..|rules| - 1];
      var prev := MergeWrites(state, front);
      var ws := MergeWrites(state, rules);
      MergeWritesIff(state, front, k);
      if exists i :: 0 <= i < |ws| && ws[i].0 == k {
        var i :| 0 <= i < |ws| && ws[i].0 == k;
        if i < |prev| {
          assert ws[i] == prev[i];
          var j :| 0 <= j < |front| && front[j].to == k && front[j].from in state;
          assert rules[j] == front[j];
        }
      }
      if exists j :: 0 <= j < |rules| && rules[j].to == k && rules[j].from in state {
        var j :| 0 <= j < |rules| && rules[j].to == k && rules[j].from in state;
        if j < |front| {
          assert front[j] == rules[j];
          var i :| 0 <= i < |prev| && prev[i].0 == k;
          assert ws[i] == prev[i];
        } else {
          assert ws[|ws| - 1].0 == k;
        }
      }
    }
  }

  /** The last write to `k` copies the state value of the last rule that
      targets `k` and whose `from` is in the state. */
  lemma {:induction false} MergeLastWrite(state: map<string, Json>, rules: seq<StateMapping>, k: string, j: nat)
    requires j < |rules| && rules[j].to == k && rules[j].from in state
    requires forall i :: j < i < |rules| ==> !(rules[i].to == k && rules[i].from in state)
    ensures LastWrite(MergeWrites(state, rules), k) == Some(state[rules[j].from])
  {
    var front := rules[..|rules| - 1];
    if j < |rules| - 1 {
      assert front[j] == rules[j];
      forall i | j < i < |front| ensures !(front[i].to == k && front[i].from in state) {
        assert front[i] == rules[i];
      }
      MergeLastWrite(state, front, k, j);
      assert !(rules[|rules| - 1].to == k && rules[|rules| - 1].from in state);
    }
  }

  /** After a merge, a body key is present iff it was already or some rule
      targets it from a key in the state; the last such rule gives its
      value, and every other key keeps its old value. */
  lemma MergedAt(body: map<string, Json>, state: map<string, Json>, rules: seq<StateMapping>, k: string)
    ensures var merged := ApplyWrites(body, MergeWrites(state, rules));
            && (k in merged <==> k in body || exists j :: 0 <= j < |rules| && rules[j].to == k && rules[j].from in state)
            && ((forall j :: 0 <= j < |rules| ==> !(rules[j].to == k && rules[j].from in state)) ==>
                  k in body ==> merged[k] == body[k])
            && (forall j :: (0 <= j < |rules| && rules[j].to == k && rules[j].from in state
                             && forall i :: j < i < |rules| ==> !(rules[i].to == k && rules[i].from in state))
                 ==> merged[k] == state[rules[j].from])
  {
    var ws := MergeWrites(state, rules);
    ApplyWritesAt(body, ws, k);
    MergeWritesIff(state, rules, k);
    forall j | 0 <= j < |rules| && rules[j].to == k && rules[j].from in state
               && forall i :: j < i < |rules| ==> !(rules[i].to == k && rules[i].from in state)
      ensures ApplyWrites(body, ws)[k] == state[rules[j].from]
    {
      MergeLastWrite(state, rules, k, j);
    }
  }

  /** A state that is not a JSON object fails the merge. */
  lemma MergeNeedsObject(body: map<string, Json>, stateText: string, rules: Option<seq<StateMapping>>,
                         parse: JsonParser)
    requires parse(stateText).None? || !parse(stateText).value.JObject?
    ensures MergedBody(body, stateText, rules, parse) == Failure(StateNotAnObject)
  {
  }

  /** `prepare_body`: the actor's own body with the state merged in. */
  method PrepareBody(config: Actors.ActorConfig, job: JobCreation, parse: JsonParser)
    returns (r: Result<map<string, Json>, JobError>)
    ensures r == MergedBody(Actors.ToBody(config), job.state, job.settings.stateMapping, parse)
  {
    var body := Actors.ToBody(config);
    r := ApplyStateMapping(body, job.state, job.settings.stateMapping, parse);
  }

  /** `prepare_arbitrary_body`: the entries of the actor input, or none if
      it is not an object, with the state merged in. */
  method PrepareArbitraryBody(job: ArbitraryActorJob, parse: JsonParser)
    returns (r: Result<map<string, Json>, JobError>)
    ensures r == MergedBody(Actors.ObjectEntries(job.settings.actorInput), job.state, job.settings.stateMapping, parse)
  {
    r := ApplyStateMapping(Actors.ObjectEntries(job.settings.actorInput), job.state, job.settings.stateMapping, parse);
  }

  /** The outcome of `start_job` before any request: the configuration must
      validate and the body must build. */
  function StartBody(config: Actors.ActorConfig, job: JobCreation, parse: JsonParser)
    : (r: Result<map<string, Json>, JobError>)
    ensures Actors.Validate(config).Failure? ==>
              r == Failure(InvalidConfiguration("Invalid actor configuration: " + Actors.Validate(config).error))
    ensures Actors.Validate(config).Success? ==>
              r == MergedBody(Actors.ToBody(config), job.state, job.settings.stateMapping, parse)
  {
    match Actors.Validate(config)
    case Failure(e) => Failure(InvalidConfiguration("Invalid actor configuration: " + e))
    case Success(_) => MergedBody(Actors.ToBody(config), job.state, job.settings.stateMapping, parse)
  }

  /** `start_job` up to its request: validate the configuration, then build
      the body. The start request itself is the first step of
      `StartAndPoll`. */
  method BuildStartBody(config: Actors.ActorConfig, job: JobCreation, parse: JsonParser)
    returns (r: Result<map<string, Json>, JobError>)
    ensures r == StartBody(config, job, parse)
  {
    var valid := Actors.Validate(config);
    if valid.Failure? {
      return Failure(InvalidConfiguration("Invalid actor configuration: " + valid.error));
    }
    r := PrepareBody(config, job, parse);
  }

  // ---------------------------------------------------------------------
  // poll_and_fetch_results

  /** How polling ends: the run succeeded or failed after `checks` status
      checks, or the attempts ran out. */
  datatype PollEnd = Completed(checks: nat) | RunFailed(checks: nat) | PollTimedOut

  /** The reply to attempt `i` of a poll that began after `base` checks. */
  function ReplyAt(replyAt: nat -> StatusReply, base: nat, i: nat): StatusReply {
    replyAt(base + i)
  }

  /** Polling from attempt `attempts` on, when the n-th status check of the
      service receives `replyAt(n)` and `base` checks were made before. A
      `Running` state and a failed check both use up an attempt. */
  function PollFrom(replyAt: nat -> StatusReply, base: nat, attempts: nat): (end: PollEnd)
    ensures end.Completed? || end.RunFailed? ==> attempts < end.checks <= MaxPollAttempts
    decreases MaxPollAttempts - attempts
  {
    if attempts >= MaxPollAttempts then PollTimedOut
    else match ReplyState(ReplyAt(replyAt, base, attempts))
      case Some(Succeeded) => Completed(attempts + 1)
      case Some(Failed) => RunFailed(attempts + 1)
      case _ => PollFrom(replyAt, base, attempts + 1)
  }

  /** The number of status checks a poll makes. */
  function PollChecks(end: PollEnd): nat {
    if end.PollTimedOut? then MaxPollAttempts else end.checks
  }

  /** A reply that ends the poll. */
  predicate Terminal(reply: StatusReply) {
    ReplyState(reply) == Some(Succeeded) || ReplyState(reply) == Some(Failed)
  }

  /** The outcome of downloading the dataset of a run that succeeded: a
      download failure is passed on, and the records become items. */
  function DownloadOutcome(download: Result<seq<Json>, string>, keyMapping: seq<KeyMapping>,
                           parse: DateParser): Result<seq<ExportItem>, JobError>
  {
    match download
    case Failure(e) => Failure(Remote(e))
    case Success(raw) => ExtractExportItems(raw, keyMapping, parse)
  }

  /** What `poll_and_fetch_results` returns for a given end of polling. */
  function FetchOutcome(end: PollEnd, download: Result<seq<Json>, string>, keyMapping: seq<KeyMapping>,
                        parse: DateParser): Result<seq<ExportItem>, JobError>
  {
    match end
    case PollTimedOut => Failure(TimedOut)
    case RunFailed(_) => Failure(ActorFailed)
    case Completed(_) => DownloadOutcome(download, keyMapping, parse)
  }

  /** The `Succeeded` arm of the poll loop: one download, then extraction. */
  method DownloadAndExtract(client: ApifyClient, keyMapping: seq<KeyMapping>, datasetId: string, parse: DateParser)
    returns (r: Result<seq<ExportItem>, JobError>)
    modifies client.platform
    ensures r == DownloadOutcome(client.platform.downloadReply, keyMapping, parse)
    ensures client.platform.downloads == old(client.platform.downloads) + 1
    ensures client.platform.requests == old(client.platform.requests) + [Fill(DatasetItemsUrl, datasetId, client.token)]
    ensures client.platform.started == old(client.platform.started)
    ensures client.platform.statusChecks == old(client.platform.statusChecks)
  {
    var raw := client.DownloadResults(datasetId);
    if raw.Failure? {
      return Failure(raw.error);
    }
    r := ExtractExportItems(raw.value, keyMapping, parse);
  }

  /** The status-check URL repeated `n` times. */
  function Repeat(url: string, n: nat): seq<string>
  {
    if n == 0 then [] else Repeat(url, n - 1) + [url]
  }

  /** The requests a poll makes: its status checks, then the download when
      the run succeeded. */
  function PollRequests(end: PollEnd, data: RunData, token: string): seq<string> {
    Repeat(Fill(RunStatusUrl, data.id, token), PollChecks(end))
    + if end.Completed? then [Fill(DatasetItemsUrl, data.defaultDatasetId, token)] else []
  }

  /** One more status check appends one more status URL to the log. */
  lemma LogGrows(requests0: seq<string>, url: string, n: nat, before: seq<string>)
    requires before == requests0 + Repeat(url, n)
    ensures before + [url] == requests0 + Repeat(url, n + 1)
  {
    assert Repeat(url, n + 1) == Repeat(url, n) + [url];
  }

  /** The polling loop of `poll_and_fetch_results`: check the run's status
      until it succeeds or fails, at most `MaxPollAttempts` times. A failed
      check and a `Running` state both use up an attempt. */
  method PollStatus(client: ApifyClient, data: RunData) returns (end: PollEnd)
    modifies client.platform
    ensures end == PollFrom(client.platform.replyAt, old(client.platform.statusChecks), 0)
    ensures client.platform.statusChecks == old(client.platform.statusChecks) + PollChecks(end)
    ensures client.platform.downloads == old(client.platform.downloads)
    ensures client.platform.started == old(client.platform.started)
    ensures client.platform.requests
              == old(client.platform.requests) + Repeat(Fill(RunStatusUrl, data.id, client.token), PollChecks(end))
  {
    var platform := client.platform;
    ghost var base := platform.statusChecks;
    ghost var downloads0, started0, requests0 := platform.downloads, platform.started, platform.requests;
    ghost var target := PollFrom(platform.replyAt, base, 0);
    ghost var checkUrl := Fill(RunStatusUrl, data.id, client.token);
    var pollCount: nat := 0;
    while pollCount < MaxPollAttempts
      invariant pollCount <= MaxPollAttempts
      invariant PollFrom(platform.replyAt, base, pollCount) == target
      invariant platform.statusChecks == base + pollCount
      invariant platform.downloads == downloads0 && platform.started == started0
      invariant platform.requests == requests0 + Repeat(checkUrl, pollCount)
      decreases MaxPollAttempts - pollCount
    {
      ghost var reply := ReplyAt(platform.replyAt, base, pollCount);
      ghost var before := platform.requests;
      var state := client.CheckCompletion(data.id);
      LogGrows(requests0, checkUrl, pollCount, before);
      assert ReplyState(reply) == if state.Success? then Some(state.value) else None;
      if state == Success(Succeeded) {
        assert target == Completed(pollCount + 1);
        return Completed(pollCount + 1);
      } else if state == Success(Failed) {
        assert target == RunFailed(pollCount + 1);
        return RunFailed(pollCount + 1);
      }
      assert !Terminal(reply);
      pollCount := pollCount + 1;
    }
    return PollTimedOut;
  }

  /** `poll_and_fetch_results`: poll, then download and extract when the
      run succeeded. It starts nothing, downloads at most once, and only
      after success. */
  method PollAndFetchResults(client: ApifyClient, keyMapping: seq<KeyMapping>, data: RunData, parse: DateParser)
    returns (r: Result<seq<ExportItem>, JobError>)
    modifies client.platform
    ensures r == FetchOutcome(PollFrom(client.platform.replyAt, old(client.platform.statusChecks), 0),
                              client.platform.downloadReply, keyMapping, parse)
    ensures client.platform.statusChecks
              == old(client.platform.statusChecks) + PollChecks(PollFrom(client.platform.replyAt, old(client.platform.statusChecks), 0))
    ensures client.platform.downloads
              == old(client.platform.downloads)
                 + (if PollFrom(client.platform.replyAt, old(client.platform.statusChecks), 0).Completed? then 1 else 0)
    ensures client.platform.started == old(client.platform.started)
    ensures client.platform.requests
              == old(client.platform.requests)
                 + PollRequests(PollFrom(client.platform.replyAt, old(client.platform.statusChecks), 0), data, client.token)
  {
    var end := PollStatus(client, data);
    match end {
      case Completed(_) =>
        r := DownloadAndExtract(client, keyMapping, data.defaultDatasetId, parse);
      case RunFailed(_) =>
        r := Failure(ActorFailed);
      case PollTimedOut =>
        r := Failure(TimedOut);
    }
  }

  /** After `k` replies that do not end the poll, a terminal reply ends it
      at check `k + 1`. */
  lemma {:induction false} PollEndsAtFirstTerminal(replyAt: nat -> StatusReply, base: nat, attempts: nat, k: nat)
    requires attempts <= k < MaxPollAttempts
    requires forall i :: attempts <= i < k ==> !Terminal(ReplyAt(replyAt, base, i))
    requires Terminal(ReplyAt(replyAt, base, k))
    ensures PollFrom(replyAt, base, attempts) ==
              if ReplyState(ReplyAt(replyAt, base, k)) == Some(Succeeded) then Completed(k + 1) else RunFailed(k + 1)
    decreases k - attempts
  {
    if attempts < k {
      assert !Terminal(ReplyAt(replyAt, base, attempts));
      PollEndsAtFirstTerminal(replyAt, base, attempts + 1, k);
    }
  }

  /** `k < 300` running or unreachable replies and then `SUCCEEDED`: exactly
      `k + 1` status checks and one download. */
  lemma SucceedsAfterRetries(replyAt: nat -> StatusReply, base: nat, k: nat)
    requires k < MaxPollAttempts
    requires forall i :: 0 <= i < k ==> !Terminal(ReplyAt(replyAt, base, i))
    requires ReplyAt(replyAt, base, k) == Status("SUCCEEDED")
    ensures PollFrom(replyAt, base, 0) == Completed(k + 1)
    ensures PollChecks(PollFrom(replyAt, base, 0)) == k + 1
  {
    PollEndsAtFirstTerminal(replyAt, base, 0, k);
  }

  /** A failed run ends polling at once, and nothing is downloaded. */
  lemma FailureStopsPolling(replyAt: nat -> StatusReply, base: nat, k: nat, download: Result<seq<Json>, string>,
                            keyMapping: seq<KeyMapping>, parse: DateParser)
    requires k < MaxPollAttempts
    requires forall i :: 0 <= i < k ==> !Terminal(ReplyAt(replyAt, base, i))
    requires ReplyState(ReplyAt(replyAt, base, k)) == Some(Failed)
    ensures PollFrom(replyAt, base, 0) == RunFailed(k + 1)
    ensures FetchOutcome(PollFrom(replyAt, base, 0), download, keyMapping, parse) == Failure(ActorFailed)
  {
    PollEndsAtFirstTerminal(replyAt, base, 0, k);
  }

  /** Without a terminal reply among the first 300, polling times out after
      exactly 300 checks. */
  lemma {:induction false} TimesOut(replyAt: nat -> StatusReply, base: nat, attempts: nat)
    requires attempts <= MaxPollAttempts
    requires forall i :: attempts <= i < MaxPollAttempts ==> !Terminal(ReplyAt(replyAt, base, i))
    ensures PollFrom(replyAt, base, attempts) == PollTimedOut
    decreases MaxPollAttempts - attempts
  {
    if attempts < MaxPollAttempts {
      assert !Terminal(ReplyAt(replyAt, base, attempts));
      TimesOut(replyAt, base, attempts + 1);
    }
  }

  /** Conversely, a completed poll saw `SUCCEEDED` at its last check and
      nothing terminal before it. */
  lemma {:induction false} CompletedMeans(replyAt: nat -> StatusReply, base: nat, attempts: nat)
    requires PollFrom(replyAt, base, attempts).Completed?
    ensures var c := PollFrom(replyAt, base, attempts).checks;
            && ReplyState(ReplyAt(replyAt, base, c - 1)) == Some(Succeeded)
            && forall i :: attempts <= i < c - 1 ==> !Terminal(ReplyAt(replyAt, base, i))
    decreases MaxPollAttempts - attempts
  {
    if ReplyState(ReplyAt(replyAt, base, attempts)) != Some(Succeeded) {
      CompletedMeans(replyAt, base, attempts + 1);
    }
  }

  /** Five `RUNNING` replies and then `SUCCEEDED`: six checks. */
  lemma FiveRunningThenSuccess(replyAt: nat -> StatusReply, base: nat)
    requires forall i :: 0 <= i < 5 ==> ReplyAt(replyAt, base, i) == Status("RUNNING")
    requires ReplyAt(replyAt, base, 5) == Status("SUCCEEDED")
    ensures PollFrom(replyAt, base, 0) == Completed(6)
  {
    SucceedsAfterRetries(replyAt, base, 5);
  }

  // ---------------------------------------------------------------------
  // validate_state_mapping and the job runners

  /** `validate_state_mapping`: a dry run of the state update, with no
      items; only its success matters. */
  method ValidateStateMapping(job: JobCreation, ctx: Context, libs: Libraries) returns (r: Result<(), JobError>)
    ensures var s := ComputeState(job.state, job.settings.stateMapping, ctx, libs.parseJson, libs.eval);
            (r.Success? <==> s.Success?) && (r.Failure? ==> r.error == s.error)
  {
    var s := UpdateState([], job, ctx, libs.parseJson, libs.eval);
    if s.Failure? {
      return Failure(s.error);
    }
    return Success(());
  }

  /** What a typed-actor job yields, step by step: decode the
      configuration, dry-run the state mapping, start (validate, build the
      body, send), poll and fetch, and update the state. The first failing
      step's error is the job's error. */
  function RunJobOutcome(actorType: string, job: JobCreation, libs: Libraries, platform: PlatformView,
                         validateCtx: Context, updateCtx: Context): Result<Response, JobError>
  {
    var config :- match Actors.FromTypeAndConfig(actorType, job.settings.actorConfig, libs.decode)
                  case Failure(e) => Failure(ActorConfigRejected(e))
                  case Success(c) => Success(c);
    var _ :- ComputeState(job.state, job.settings.stateMapping, validateCtx, libs.parseJson, libs.eval);
    var _ :- StartBody(config, job, libs.parseJson);
    var items :- RunItems(platform, job.settings.keyMapping, libs.parseDate);
    var state :- ComputeState(job.state, job.settings.stateMapping, updateCtx, libs.parseJson, libs.eval);
    Success(Response(state, items))
  }

  /** The items a job collects once its start request is sent: a start
      reply that is an error is the job's error; otherwise the poll and the
      fetch decide. */
  function RunItems(platform: PlatformView, keyMapping: seq<KeyMapping>, parse: DateParser)
    : Result<seq<ExportItem>, JobError>
  {
    var _ :- StartReplyOutcome(platform.startReply);
    FetchOutcome(PollFrom(platform.replyAt, platform.statusChecks, 0), platform.downloadReply, keyMapping, parse)
  }

  /** The part of the service's state a job's outcome depends on. */
  datatype PlatformView = PlatformView(replyAt: nat -> StatusReply, startReply: Result<RunData, string>,
                                       downloadReply: Result<seq<Json>, string>, statusChecks: nat)

  /** What a job sends from its start request on: the number of status
      checks, the number of downloads, and the URL of every request. */
  datatype Traffic = Traffic(checks: nat, downloads: nat, requests: seq<string>)

  /** The traffic of a job that sends its start request for `actor`: a
      start reply that is an error ends the job there; otherwise the poll's
      status checks follow and, when the run succeeded, the download. */
  function JobTraffic(actor: string, token: string, platform: PlatformView): Traffic {
    var start := Fill(StartRunUrl, actor, token);
    match platform.startReply
    case Failure(_) => Traffic(0, 0, [start])
    case Success(data) =>
      var end := PollFrom(platform.replyAt, platform.statusChecks, 0);
      Traffic(PollChecks(end), if end.Completed? then 1 else 0, [start] + PollRequests(end, data, token))
  }

  /** `n` copies of a URL. */
  lemma {:induction false} RepeatLength(url: string, n: nat)
    ensures |Repeat(url, n)| == n
    ensures forall i :: 0 <= i < n ==> Repeat(url, n)[i] == url
  {
    if n > 0 {
      RepeatLength(url, n - 1);
    }
  }

  /** The shape of a started job's traffic: one start request first, at
      most `MaxPollAttempts` status checks, at most one download, and only
      a run that succeeded is downloaded, as its last request. */
  lemma TrafficShape(actor: string, token: string, platform: PlatformView)
    ensures var t := JobTraffic(actor, token, platform);
            && |t.requests| == 1 + t.checks + t.downloads
            && t.requests[0] == Fill(StartRunUrl, actor, token)
            && t.checks <= MaxPollAttempts && t.downloads <= 1
            && (forall i :: 1 <= i <= t.checks ==> t.requests[i] == Fill(RunStatusUrl, platform.startReply.value.id, token))
            && (t.downloads == 1 <==>
                  platform.startReply.Success? && PollFrom(platform.replyAt, platform.statusChecks, 0).Completed?)
            && (t.downloads == 1 ==>
                  t.requests[|t.requests| - 1] == Fill(DatasetItemsUrl, platform.startReply.value.defaultDatasetId, token))
  {
    if platform.startReply.Success? {
      var end := PollFrom(platform.replyAt, platform.statusChecks, 0);
      RepeatLength(Fill(RunStatusUrl, platform.startReply.value.id, token), PollChecks(end));
    }
  }

  /** A start reply that is an error stops the job: no status check and no
      download follow the start request. */
  lemma RefusedStartStops(actor: string, token: string, platform: PlatformView)
    requires platform.startReply.Failure?
    ensures JobTraffic(actor, token, platform) == Traffic(0, 0, [Fill(StartRunUrl, actor, token)])
  {
  }

  /** Five `RUNNING` replies and then `SUCCEEDED`, after a successful start:
      six status checks and one download, eight requests in all. */
  lemma FiveRunningThenSuccessTraffic(actor: string, token: string, platform: PlatformView)
    requires platform.startReply.Success?
    requires forall i :: 0 <= i < 5 ==> ReplyAt(platform.replyAt, platform.statusChecks, i) == Status("RUNNING")
    requires ReplyAt(platform.replyAt, platform.statusChecks, 5) == Status("SUCCEEDED")
    ensures JobTraffic(actor, token, platform).checks == 6
    ensures JobTraffic(actor, token, platform).downloads == 1
    ensures |JobTraffic(actor, token, platform).requests| == 8
  {
    FiveRunningThenSuccess(platform.replyAt, platform.statusChecks);
    TrafficShape(actor, token, platform);
  }

  /** Everything before the start request succeeds: the configuration
      decodes, the state mapper runs, the configuration validates and the
      body builds. */
  predicate TypedJobStarts(actorType: string, job: JobCreation, libs: Libraries, validateCtx: Context) {
    var config := Actors.FromTypeAndConfig(actorType, job.settings.actorConfig, libs.decode);
    && config.Success?
    && ComputeState(job.state, job.settings.stateMapping, validateCtx, libs.parseJson, libs.eval).Success?
    && StartBody(config.value, job, libs.parseJson).Success?
  }

  /** `run_job`. One start request is sent exactly when the checks before
      it pass; polling and the download follow only a successful start. Its
      call of `start_job` is `BuildStartBody` followed by the start request
      that begins `StartAndPoll`, so nothing is sent when the configuration
      fails validation or the body fails to build. */
  method RunJob(actorType: string, job: JobCreation, libs: Libraries, platform: Platform,
                validateCtx: Context, updateCtx: Context)
    returns (r: Result<Response, JobError>)
    modifies platform
    ensures r == RunJobOutcome(actorType, job, libs,
                               PlatformView(platform.replyAt, platform.startReply, platform.downloadReply,
                                            old(platform.statusChecks)),
                               validateCtx, updateCtx)
    ensures |platform.started| == old(|platform.started|) + (if TypedJobStarts(actorType, job, libs, validateCtx) then 1 else 0)
    ensures !TypedJobStarts(actorType, job, libs, validateCtx) ==> unchanged(platform)
    ensures TypedJobStarts(actorType, job, libs, validateCtx) ==>
              var config := Actors.FromTypeAndConfig(actorType, job.settings.actorConfig, libs.decode).value;
              var t := JobTraffic(Actors.ActorName(config), job.settings.token,
                                  PlatformView(platform.replyAt, platform.startReply, platform.downloadReply,
                                               old(platform.statusChecks)));
              && platform.started
                   == old(platform.started) + [(Actors.ActorName(config), StartBody(config, job, libs.parseJson).value)]
              && platform.statusChecks == old(platform.statusChecks) + t.checks
              && platform.downloads == old(platform.downloads) + t.downloads
              && platform.requests == old(platform.requests) + t.requests
  {
    var decoded := Actors.FromTypeAndConfig(actorType, job.settings.actorConfig, libs.decode);
    if decoded.Failure? {
      return Failure(ActorConfigRejected(decoded.error));
    }
    var config := decoded.value;
    var valid := ValidateStateMapping(job, validateCtx, libs);
    if valid.Failure? {
      return Failure(valid.error);
    }
    var client := new ApifyClient(job.settings.token, platform);
    var body := BuildStartBody(config, job, libs.parseJson);
    if body.Failure? {
      return Failure(body.error);
    }
    var result := StartAndPoll(client, Actors.ActorName(config), body.value, job.settings.keyMapping, libs.parseDate);
    if result.Failure? {
      return Failure(result.error);
    }
    var state := UpdateState(result.value, job, updateCtx, libs.parseJson, libs.eval);
    if state.Failure? {
      return Failure(state.error);
    }
    return Success(Response(state.value, result.value));
  }

  /** The start request for `actor` with `body`, then
      `poll_and_fetch_results` for the run it started: the part of
      `run_job` and `run_arbitrary_actor` that talks to the service. */
  method StartAndPoll(client: ApifyClient, actor: string, body: map<string, Json>, keyMapping: seq<KeyMapping>,
                      parse: DateParser)
    returns (r: Result<seq<ExportItem>, JobError>)
    modifies client.platform
    ensures var view := PlatformView(client.platform.replyAt, client.platform.startReply,
                                     client.platform.downloadReply, old(client.platform.statusChecks));
            var t := JobTraffic(actor, client.token, view);
            && r == RunItems(view, keyMapping, parse)
            && client.platform.started == old(client.platform.started) + [(actor, body)]
            && client.platform.statusChecks == old(client.platform.statusChecks) + t.checks
            && client.platform.downloads == old(client.platform.downloads) + t.downloads
            && client.platform.requests == old(client.platform.requests) + t.requests
  {
    var platform := client.platform;
    ghost var view := PlatformView(platform.replyAt, platform.startReply, platform.downloadReply, platform.statusChecks);
    ghost var requests0 := platform.requests;
    var data := client.StartJob(actor, body);
    if data.Failure? {
      return Failure(data.error);
    }
    ghost var sent := platform.requests;
    r := PollAndFetchResults(client, keyMapping, data.value, parse);
    assert platform.requests == requests0 + JobTraffic(actor, client.token, view).requests by {
      assert sent == requests0 + [Fill(StartRunUrl, actor, client.token)];
    }
  }

  /** What an arbitrary-actor job yields: dry-run the state mapping, build
      the body from the raw input, start the named actor, poll and fetch,
      and update the state. */
  function RunArbitraryOutcome(job: ArbitraryActorJob, libs: Libraries, platform: PlatformView,
                               validateCtx: Context, updateCtx: Context): Result<Response, JobError>
  {
    var s := job.settings;
    var _ :- ComputeState(job.state, s.stateMapping, validateCtx, libs.parseJson, libs.eval);
    var _ :- MergedBody(Actors.ObjectEntries(s.actorInput), job.state, s.stateMapping, libs.parseJson);
    var items :- RunItems(platform, s.keyMapping, libs.parseDate);
    var state :- ComputeState(job.state, s.stateMapping, updateCtx, libs.parseJson, libs.eval);
    Success(Response(state, items))
  }

  /** Everything before the start request of an arbitrary-actor job
      succeeds. */
  predicate ArbitraryJobStarts(job: ArbitraryActorJob, libs: Libraries, validateCtx: Context) {
    && ComputeState(job.state, job.settings.stateMapping, validateCtx, libs.parseJson, libs.eval).Success?
    && MergedBody(Actors.ObjectEntries(job.settings.actorInput), job.state, job.settings.stateMapping,
                  libs.parseJson).Success?
  }

  /** `run_arbitrary_actor`: the start request goes to the actor id given by
      the caller, with the caller's input as the body. */
  method RunArbitraryActor(job: ArbitraryActorJob, libs: Libraries, platform: Platform,
                           validateCtx: Context, updateCtx: Context)
    returns (r: Result<Response, JobError>)
    modifies platform
    ensures r == RunArbitraryOutcome(job, libs,
                                     PlatformView(platform.replyAt, platform.startReply, platform.downloadReply,
                                                  old(platform.statusChecks)),
                                     validateCtx, updateCtx)
    ensures |platform.started| == old(|platform.started|) + (if ArbitraryJobStarts(job, libs, validateCtx) then 1 else 0)
    ensures ArbitraryJobStarts(job, libs, validateCtx) ==>
              platform.started[old(|platform.started|)].0 == job.settings.actorId
    ensures !ArbitraryJobStarts(job, libs, validateCtx) ==> unchanged(platform)
    ensures ArbitraryJobStarts(job, libs, validateCtx) ==>
              var t := JobTraffic(job.settings.actorId, job.settings.token,
                                  PlatformView(platform.replyAt, platform.startReply, platform.downloadReply,
                                               old(platform.statusChecks)));
              var body := MergedBody(Actors.ObjectEntries(job.settings.actorInput), job.state, job.settings.stateMapping,
                                     libs.parseJson).value;
              && platform.started == old(platform.started) + [(job.settings.actorId, body)]
              && platform.statusChecks == old(platform.statusChecks) + t.checks
              && platform.downloads == old(platform.downloads) + t.downloads
              && platform.requests == old(platform.requests) + t.requests
  {
    var actorId := job.settings.actorId;
    var valid := UpdateStateCore([], job.state, job.settings.stateMapping, validateCtx, libs.parseJson, libs.eval);
    if valid.Failure? {
      return Failure(valid.error);
    }
    var body := PrepareArbitraryBody(job, libs.parseJson);
    if body.Failure? {
      return Failure(body.error);
    }
    var client := new ApifyClient(job.settings.token, platform);
    var result := StartAndPoll(client, actorId, body.value, job.settings.keyMapping, libs.parseDate);
    if result.Failure? {
      return Failure(result.error);
    }
    var state := UpdateStateCore(result.value, job.state, job.settings.stateMapping, updateCtx,
                                 libs.parseJson, libs.eval);
    if state.Failure? {
      return Failure(state.error);
    }
    return Success(Response(state.value, result.value));
  }

  /** A state mapping that fails its dry run fails the job before anything
      is started, with the mapper's own error. */
  lemma InvalidMappingFailsEarly(actorType: string, job: JobCreation, libs: Libraries, platform: PlatformView,
                                 validateCtx: Context, updateCtx: Context)
    requires Actors.FromTypeAndConfig(actorType, job.settings.actorConfig, libs.decode).Success?
    requires ComputeState(job.state, job.settings.stateMapping, validateCtx, libs.parseJson, libs.eval).Failure?
    ensures !TypedJobStarts(actorType, job, libs, validateCtx)
    ensures RunJobOutcome(actorType, job, libs, platform, validateCtx, updateCtx)
              == Failure(ComputeState(job.state, job.settings.stateMapping, validateCtx, libs.parseJson, libs.eval).error)
  {
  }

  /** A job produces a response only when every step succeeded; in
      particular a failing final state update yields its error and no
      response, even though the items were fetched. */
  lemma ResponseNeedsEveryStep(actorType: string, job: JobCreation, libs: Libraries, platform: PlatformView,
                               validateCtx: Context, updateCtx: Context)
    requires RunJobOutcome(actorType, job, libs, platform, validateCtx, updateCtx).Success?
    ensures TypedJobStarts(actorType, job, libs, validateCtx)
    ensures platform.startReply.Success?
    ensures PollFrom(platform.replyAt, platform.statusChecks, 0).Completed?
    ensures platform.downloadReply.Success?
    ensures var s := ComputeState(job.state, job.settings.stateMapping, updateCtx, libs.parseJson, libs.eval);
            && s.Success?
            && RunJobOutcome(actorType, job, libs, platform, validateCtx, updateCtx).value.state == s.value
  {
  }

  /** An unknown actor type is refused by name, before anything else. */
  lemma UnknownActorRefused(actorType: string, job: JobCreation, libs: Libraries, platform: PlatformView,
                            validateCtx: Context, updateCtx: Context)
    requires actorType !in Actors.ActorTypes
    ensures RunJobOutcome(actorType, job, libs, platform, validateCtx, updateCtx)
              == Failure(ActorConfigRejected("Unknown actor type: " + actorType))
  {
  }
}
