# apify-connector, modelled in Dafny

apify-connector is a small service.

1. It takes a job request: an actor type and its configuration, or an arbitrary Apify actor id and raw input.
2. It starts that actor on the Apify platform.
3. It polls the run until the run finishes.
4. It downloads the run's dataset and turns its JSON records into normalised export items using key mappings.
5. It passes the caller's JSON state through a small rule language to compute the next state.

This project models the core of that pipeline and proves properties about it:

- **Extraction** (`extraction.dfy`). For one record, `ExtractSingle` is what the record yields. `ExtractSingleExportItem` is the two-loop Rust method, proved to compute it. `ExtractExportItems` is the `filter_map` that drops every record that fails. The lemmas state:
  - when a record yields an item;
  - that the last applying mapping decides `id` and `content`;
  - that the first unparsable date ends the record;
  - what the metadata holds;
  - that the output keeps the order of the input.
- **State mapping** (`mapping_utils.dfy`). `ComputeState` is what `update_state_core` computes. The in-place loop `UpdateStateCore` is proved to compute it. The lemmas state:
  - when the update fails, and with which error;
  - that each rule writes under its `from` key and the last such rule wins;
  - that `to` plays no part.
- **Client** (`client.dfy`):
  - the status classification;
  - the three URL templates. A parse/fill round trip, which the client itself never performs, checks that the templates are well formed: the id and the token can be read back out of every URL;
  - the remote service as a `Platform` object. Its replies are fixed in advance, and it records every request made to it.
- **Orchestration** (`job.dfy`):
  - merging the state into a request body, in place;
  - preparing bodies;
  - starting a run: `BuildStartBody`, then the start request in `StartAndPoll`;
  - the bounded poll loop, proved against the `PollFrom` specification. The loop is `PollStatus`; `PollAndFetchResults` then downloads when polling completed, which is the same order of effects as the Rust loop that downloads in its success arm;
  - the two job runners, each proved against an outcome function that lists the steps in order, and against `JobTraffic`, which lists the requests a started job sends.
- **Actors** (`actors.dfy` plus one file per actor). The registry of the four typed actors, their validators, their defaults, their request bodies and their metadata.

Supporting modules:
- `wrappers.dfy`: Option and Result.
- `json.dfy`: JSON values.
- `time.dfy`: dates.
- `text.dfy`: the `str` operations, with UTF-8 byte length and Unicode white space.
- `writes.dfy`: "last write wins" over a sequence of map inserts. It is shared by the three insert loops.
- `filtering.dfy`: `filter_map` and first-offender search.

Foreign code becomes parameters:
- JSON parsing: `JsonParser`.
- Date parsing: `DateParser`.
- The rhai script engine: `Evaluator`.
- `serde` decoding of actor configurations: `ConfigDecoder`.
- The clock behind `Context::new()`: two `Context` values, one for the dry run of the state mapping and one for the final update.
- HTTP: the `Platform` oracle.

A literal state rule (one whose `update` does not start with `$`) stores its own `from` text under its `from` key. It stores neither the `update` text nor anything under the `to` key: see `MappingUtils.LiteralStoresFrom`, `MappingUtils.TargetIgnored` and `MappingUtils.ExampleLiteralRule`.

## Model

| member | source | states |
|---|---|---|
| Extraction.ExtractSingleExportItem | src/extraction.rs:22-79 | the two loops over the mappings and the record compute exactly `ExtractSingle`: not an object, a failing date parse, missing content and missing date end the record in that order, otherwise the item |
| Extraction.CopyUnmapped | src/extraction.rs:64-71 | the second loop adds to the metadata every record field that no mapping consumed and whose value is a string, each under its own key, replacing an explicit entry of the same name |
| Extraction.PassThroughRelease | src/extraction.rs:65-70 | dropping one key from the pending set adds it to the pass-through map exactly when it is an unconsumed string field |
| Extraction.ConsumedIff | src/extraction.rs:37-38 | a key is consumed iff it is in the record and some mapping reads it, whatever that mapping's target or value type |
| Extraction.LastApplying | src/extraction.rs:36-42 | the index it returns is in range and names a mapping that applies to the target |
| Extraction.LastApplyingIsLast | src/extraction.rs:36-42 | it is none iff no mapping applies, and otherwise no later mapping applies |
| Extraction.LastFieldMappingWins | src/extraction.rs:41-42 | `id` and `content` take the value of the last applying mapping; a non-string value leaves them unset |
| Extraction.DateOfOutcome | src/extraction.rs:43-54 | the date fails iff some date attempt fails to parse, with the first failing attempt's value and format; it is none iff nothing attempts a date; otherwise it is the last attempt's date at midnight UTC |
| Extraction.DateFailurePersists | src/extraction.rs:47-50 | once a prefix of the mappings has failed the date, later mappings cannot undo it |
| Extraction.DateFailureIsFinal | src/extraction.rs:47-50 | a parse failure at mapping i, with none before, is the record's outcome |
| Extraction.MetadataWritesIff | src/extraction.rs:55-59 | explicit metadata writes are exactly the applying mappings to a non-dedicated key whose value is a string |
| Extraction.MetadataAt | src/extraction.rs:55-71 | a produced item's metadata holds a key iff it is an unconsumed string field (that value wins) or explicitly written (last write wins) |
| Extraction.ProducedIff | src/extraction.rs:22-79 | an item is produced iff the record is an object, the last content mapping finds a string, some mapping attempts a date and no date attempt fails; `id` plays no part |
| Extraction.ItemFields | src/extraction.rs:73-78 | a produced item carries the mapped id and content and a date at midnight UTC |
| Extraction.NonObjectDropped | src/extraction.rs:26-28 | a record that is not a JSON object yields no item and is dropped from the output |
| Extraction.ExtractExportItems | src/extraction.rs:10-19 | extraction of a list never fails and never yields more items than records |
| Extraction.ExtractedInOrder | src/extraction.rs:14-17 | the items are, in order, the results of exactly the records that extract |
| Extraction.ExampleDate | src/extraction.rs:43-54 | in the example record the date mapping yields the parsed day at midnight |
| Extraction.ExampleMetadata | src/extraction.rs:55-71 | in the example record only the unmapped "extra" field reaches the metadata |
| Extraction.ExampleRecord | src/extraction.rs:10-79 | the record {content "hi", date "2024-01-05", extra "x"} gives the one item (no id, "hi", that date, {extra: x}) |
| Filtering.KeptInOrder | src/extraction.rs:14-17 | a `filter_map` keeps the successful results at increasing positions, covering every success |
| Filtering.FirstFailing | src/actors/web_scraper.rs:40-44 | the early-return loop finds the first offending element, and none iff all pass |
| Writes.ApplyWritesAt | src/mapping_utils.rs:48 | after a sequence of `HashMap` inserts a key is present iff it was or is written, with its last written value |
| Writes.UntouchedByWrites | src/job.rs:27-29 | a key no insert touches keeps its presence and value |
| Text.Utf8Len | src/actors/google_search.rs:53 | `str::len` counts UTF-8 bytes: between the number of characters and four times it, and equal to it for ASCII |
| MappingUtils.UpdateStateCore | src/mapping_utils.rs:21-54 | the in-place loop over the rules computes `ComputeState`, stopping at the first failing script |
| MappingUtils.UpdateState | src/mapping_utils.rs:56-62 | the typed-job wrapper applies the job's state and rules |
| MappingUtils.StateWritesOutcome | src/mapping_utils.rs:37-49 | the rules fail iff one does (always `UpdateStateFailed`); otherwise there is one write per rule, in order, to its `from` key |
| MappingUtils.StateFailurePersists | src/mapping_utils.rs:41-43 | a failure in a prefix of the rules fails the whole list |
| MappingUtils.UpdateErrors | src/mapping_utils.rs:21-54 | `StateNotAnObject` iff the state is not a JSON object, `UpdateStateFailed` iff it is and some script fails, and no other error |
| MappingUtils.NoRulesKeepState | src/mapping_utils.rs:37 | without rules the state comes back as parsed |
| MappingUtils.StateAt | src/mapping_utils.rs:37-49 | after an update a key is present iff it was or some rule's `from` names it; the last such rule's value wins and other keys keep theirs |
| MappingUtils.LiteralStoresFrom | src/mapping_utils.rs:45-47 | a rule whose update does not start with `$` stores its own `from` text |
| MappingUtils.TargetIgnored | src/mapping_utils.rs:48 | changing the rules' `to` fields changes nothing |
| MappingUtils.ClockOnlyReachesScripts | src/mapping_utils.rs:10-30 | `Context::new()` reads the clock, but a context reaches the state only as a script's `start_date`: rules without a script write the same under any two contexts |
| MappingUtils.ExampleLiteralWrites | src/mapping_utils.rs:39-48 | the rule (a, b, "literal") writes "a" under "a" |
| MappingUtils.ExampleLiteralRule | src/mapping_utils.rs:21-54 | on the state {} that rule gives {"a": "a"} and leaves "b" absent |
| Client.Classify | src/client.rs:68-72 | "SUCCEEDED" iff Succeeded, "RUNNING" iff Running, every other string iff Failed |
| Client.UnknownStatusesFail | src/client.rs:71 | "READY" and the lower-case spellings classify as Failed |
| Client.RequestUrls | src/client.rs:32-65 | the start-run, dataset-items and run-status URLs are the three `format!` strings with the id and the token in place |
| Client.ParseFill | src/client.rs:32-65 | a filled URL template gives back its id and token when the token has no `=` |
| Client.FillParse | src/client.rs:32-65 | every URL that parses is the filling of what it parses to |
| Client.TemplatesEndInToken | src/client.rs:32-65 | each of the three templates ends its middle part in `token=` |
| Client.StartReplyOutcome | src/client.rs:32-46 | a start reply is the new run iff it is not an error; an error reply becomes `Remote` with its message |
| Client.ApifyClient.StartJob | src/client.rs:32-46 | one start request for the actor and body, to the start-run URL; the reply's error becomes `Remote` |
| Client.ApifyClient.CheckCompletion | src/client.rs:61-73 | one status request to the run URL, its status classified; the counter of status checks goes up by one |
| Client.ApifyClient.DownloadResults | src/client.rs:48-59 | one download request to the dataset URL |
| Client.ApifyClient.constructor | src/client.rs:25-30 | the client keeps its token |
| Job.ApplyStateMapping | src/job.rs:19-33 | the in-place merge computes `MergedBody`: `StateNotAnObject` for a state that is not a JSON object, otherwise `body[to] := state[from]` for each rule whose `from` is in the state |
| Job.MergedAt | src/job.rs:25-31 | a merged body key is present iff it was or some rule targets it from a state key; the last such rule wins and other keys are untouched |
| Job.MergeWritesIff | src/job.rs:26-30 | a key is written iff some rule targets it and its `from` is in the state |
| Job.MergeLastWrite | src/job.rs:26-30 | the last write to a key copies the state value of the last rule that targets it |
| Job.MergeNeedsObject | src/job.rs:24 | a state that is not a JSON object fails the merge |
| Job.PrepareBody | src/job.rs:37-47 | the actor's own body with the state merged in |
| Job.PrepareArbitraryBody | src/job.rs:51-59 | the actor input's entries, or none if it is not an object, with the state merged in |
| Job.StartBody | src/job.rs:68-73 | a configuration that fails validation gives "Invalid actor configuration: " and its message; otherwise the body is built |
| Job.BuildStartBody | src/job.rs:63-73 | `start_job` up to its request computes `StartBody`: the prefixed validation error, or the built body |
| Job.PollFrom | src/job.rs:80-122 | a poll that ends in success or failure does so within the 300-attempt bound, after more checks than the attempts already used |
| Job.PollStatus | src/job.rs:86-121 | the polling loop ends exactly as `PollFrom` says, after `PollChecks` status checks, each logged as one status URL; it downloads and starts nothing |
| Job.PollAndFetchResults | src/job.rs:80-122 | the loop yields `FetchOutcome` of `PollFrom`; it makes exactly the poll's status checks, downloads at most once and only after success, and starts nothing |
| Job.DownloadAndExtract | src/job.rs:103-109 | the success arm downloads once; a download error is passed on, and otherwise the records are extracted |
| Job.PollEndsAtFirstTerminal | src/job.rs:97-119 | after non-terminal replies (running or unreachable), the first terminal reply at attempt k ends the poll with k+1 checks |
| Job.SucceedsAfterRetries | src/job.rs:87-109 | k < 300 running or failed checks and then SUCCEEDED give exactly k+1 status checks and a completed poll |
| Job.FailureStopsPolling | src/job.rs:110-113 | a failed run ends polling at once with `ActorFailed` and no download |
| Job.TimesOut | src/job.rs:15-94 | with no terminal reply among `MaxPollAttempts` (300) checks the poll times out |
| Job.CompletedMeans | src/job.rs:103-109 | a completed poll saw SUCCEEDED at its last check and nothing terminal before |
| Job.FiveRunningThenSuccess | src/job.rs:87-109 | five RUNNING replies and then SUCCEEDED make six checks |
| Job.ValidateStateMapping | src/job.rs:126-130 | the dry run succeeds iff the state update would, with the same error |
| Job.StartAndPoll | src/job.rs:146-165 | one start request for the actor with the body; then the status checks, the download and the request URLs are exactly `JobTraffic`'s, and the items are `RunItems` |
| Job.TrafficShape | src/job.rs:80-122 | a job's traffic is one start request, then at most 300 status checks to the run's URL, then at most one download, which happens iff the start and the poll succeeded and is the last request |
| Job.RefusedStartStops | src/job.rs:146-157 | a start reply that is an error is followed by no status check and no download |
| Job.FiveRunningThenSuccessTraffic | src/job.rs:87-109 | after a successful start, five RUNNING replies and then SUCCEEDED make six status checks, one download and eight requests |
| Job.RunJob | src/job.rs:134-181 | the typed job yields `RunJobOutcome`; exactly one run, of the configuration's actor with its body, is started iff the checks before it pass, and then the status checks, downloads and requests are those of `JobTraffic`; otherwise the service is untouched |
| Job.RunArbitraryActor | src/job.rs:185-245 | the arbitrary job yields `RunArbitraryOutcome`; one run of the named actor with the merged input is started iff the dry run and the body succeed, and then the status checks, downloads and requests are those of `JobTraffic`; otherwise the service is untouched |
| Job.InvalidMappingFailsEarly | src/job.rs:143 | a state mapping that fails its dry run fails the job, with the mapper's error, before anything is started |
| Job.ResponseNeedsEveryStep | src/job.rs:146-180 | a response needs a successful start, a completed poll, a successful download and a successful final update, whose state it carries |
| Job.UnknownActorRefused | src/job.rs:135-136 | an unknown actor type fails the job with "Unknown actor type: " and the type |
| Actors.FromTypeAndConfig | src/actors/mod.rs:55-71 | each known type uses its decoder, and the decoder's error is prefixed; an unknown type is refused by name; a decoded configuration has the requested type |
| Actors.ListAvailableActors | src/actors/mod.rs:25-32 | four actors are listed, in the order of the known types |
| Actors.GetActorMetadata | src/actors/mod.rs:35-43 | a lookup is some iff the type is one of the four, and then it is the listed entry of that type |
| Actors.ActorType | src/actors/mod.rs:74-81 | every configuration has one of the four known types |
| Actors.ActorName | src/actors/mod.rs:84-91 | the actor that runs a configuration is the one the metadata of its type names |
| Actors.Validate | src/actors/mod.rs:94-101 | each variant's outcome, error message included, is its own validator's; so validity is that validator's criterion |
| Actors.ToBody | src/actors/mod.rs:104-120 | TripAdvisor sends exactly its own `ApifyBody`; the other three send exactly the fields of their serialised configuration, whose keys are their four camelCase names |
| WebScraperActor.Validate | src/actors/web_scraper.rs:36-49 | Ok iff there are start URLs, all http(s), and a positive page limit; otherwise the message of the first failing check, naming the first bad URL |
| WebScraperActor.ToJson | src/actors/web_scraper.rs:8-21 | the serialised configuration has the four camelCase keys and null for no selector |
| WebScraperActor.DefaultIsValid | src/actors/web_scraper.rs:23-25 | the default page limit of 100 passes |
| WebScraperActor.FtpUrlRejected | src/actors/web_scraper.rs:40-44 | an ftp URL is reported even when a later URL is fine |
| GoogleSearchActor.Validate | src/actors/google_search.rs:40-58 | Ok iff there are queries, none blank after trimming, 1 <= max_results <= 100 and any country code is 2 bytes; otherwise the first failing check's message |
| GoogleSearchActor.ToJson | src/actors/google_search.rs:8-21 | the serialised configuration has the four camelCase keys |
| GoogleSearchActor.DefaultIsValid | src/actors/google_search.rs:23-29 | the defaults 10 and "en" pass with non-blank queries |
| GoogleSearchActor.CountryCodeBytes | src/actors/google_search.rs:52-56 | the length is in bytes: "us" and the two-byte "é" pass, "usa" fails |
| InstagramActor.Validate | src/actors/instagram.rs:37-53 | Ok iff there are usernames, none blank, none with a space or over 30 bytes, and a positive post limit; the first failing username decides the message |
| InstagramActor.ToJson | src/actors/instagram.rs:8-22 | the serialised configuration has the four camelCase keys |
| InstagramActor.DefaultIsValid | src/actors/instagram.rs:24-26 | the default post limit of 50 passes |
| InstagramActor.SpacesOnlyIsEmpty | src/actors/instagram.rs:42-44 | a username of spaces only is reported as empty, not malformed |
| TripAdvisorActor.Validate | src/actors/tripadvisor.rs:47-58 | Ok iff the URL is non-empty and contains "tripadvisor"; otherwise the matching message |
| TripAdvisorActor.ApifyBody | src/actors/tripadvisor.rs:61-92 | the body has a one-element `startUrls` {url, GET}, both filters, `maxReviews` iff positive, `includeReviewerInfo` (true) iff set, and no other key |
| TripAdvisorActor.ToApifyBody | src/actors/tripadvisor.rs:61-92 | the successive inserts build exactly `ApifyBody` |
| TripAdvisorActor.DefaultsBody | src/actors/tripadvisor.rs:30-36 | with the default filters a TripAdvisor URL passes and the body holds only the start URL and the two default filters |
| TripAdvisorActor.CaseSensitiveHost | src/actors/tripadvisor.rs:51-56 | the match is case-sensitive: "TripAdvisor" is rejected |

## Left out

- HTTP, async and waiting between polls. Requests go to the `Platform` object. Its replies are fixed in advance:
  - the n-th status check gets `replyAt(n)`;
  - the start and download replies are constants.
  JSON decoding of the service's replies is part of those replies.
  `tokio::time::sleep` does nothing observable.
- Serialising the new state back to a JSON string, and parsing JSON text. The state result is a map, because `HashMap` order is unspecified. Parsing is the parameter `JsonParser`.
- The rhai interpreter. It is the parameter `Evaluator`: a script and `start_date` map to the script's value, or to None on an error.
  - The registered `format_date` and `sub_days` functions live inside it.
  - The scope shared across rules is not modelled. A script cannot see variables set by an earlier script.
- `chrono` date parsing. It is the parameter `DateParser`. Results are dates at midnight UTC.
- `serde` decoding of actor configurations. It is the parameter `ConfigDecoder`. This includes the field defaults it applies; the modelled defaults are the constants and lemmas above.
- `to_body`'s serialisation error path. Serialising these records cannot fail, so the body is a plain map.
- JSON schemas in actor metadata (`schemars`). Metadata keeps only the type and the actor name.
- Metrics, `Timer` and tracing. They are logging only.
- `main.rs`, the HTTP handlers and `web_utils.rs`. They are outside the core.
- Numbers in JSON are integers. The core builds only `u32` values. The numbers it does not build (state values merged into a body, `actor_input` entries, which may be floats) are copied unchanged, so their representation does not affect any modelled result.
- Client.ParseFill: needs the token to contain no `=`, because the token is read back as what follows the last `=`; ids such as "apify/web-scraper" may contain any character.
