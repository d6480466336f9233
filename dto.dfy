/** The records that cross the core's boundary. Only the fields the core
    reads are kept. */
module Dto {
  import opened Wrappers
  import opened Json
  import opened Time

  /** How a mapped value is read: as a date in the given `chrono` format, or
      as a plain string. */
  datatype DataKind = Date(format: string) | StringKind

  /** One field mapping: read record key `from` into target `to`. */
  datatype KeyMapping = KeyMapping(from: string, to: string, kind: DataKind)

  /** One state-mapping rule. */
  datatype StateMapping = StateMapping(from: string, to: string, update: string)

  /** A normalised record: `content` and `date` are always present. */
  datatype ExportItem = ExportItem(id: Option<string>, content: string, date: DateTime,
                                   metadata: map<string, string>)

  /** `JobCreation.settings` for a typed actor. */
  datatype JobSettings = JobSettings(actorConfig: Json, token: string,
                                     keyMapping: seq<KeyMapping>,
                                     stateMapping: Option<seq<StateMapping>>)

  /** A typed-actor job request: settings plus the caller's JSON state. */
  datatype JobCreation = JobCreation(settings: JobSettings, state: string)

  /** `ArbitraryActorJob.settings`: an actor id and its raw input. */
  datatype ArbitrarySettings = ArbitrarySettings(actorId: string, actorInput: Json, token: string,
                                                 keyMapping: seq<KeyMapping>,
                                                 stateMapping: Option<seq<StateMapping>>)

  datatype ArbitraryActorJob = ArbitraryActorJob(settings: ArbitrarySettings, state: string)

  /** What the service lists about an actor (its JSON schema is not
      modelled). */
  datatype ActorMetadata = ActorMetadata(actorType: string, actorName: string)

  /** What a started run returns: its id and the id of its dataset. */
  datatype RunData = RunData(id: string, defaultDatasetId: string)

  /** A finished job: the new state (as a JSON object) and the items. */
  datatype Response = Response(state: map<string, Json>, result: seq<ExportItem>)

  /** The errors that end a job. Where the Rust code formats its own message,
      the variant carries what the message is built from. */
  datatype JobError =
    | StateNotAnObject          // `serde_json::from_str` of the state failed
    | UpdateStateFailed         // "failed to execute update state mapping"
    | ActorConfigRejected(message: string)   // from `from_type_and_config`
    | InvalidConfiguration(message: string)  // "Invalid actor configuration: {}"
    | Remote(message: string)   // an HTTP request, or decoding its reply, failed
    | TimedOut                  // "Job timed out after 300 seconds ..."
    | ActorFailed               // "Actor job failed"
}
