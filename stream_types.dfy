/**
 * What every stream shares: its class-level configuration, the errors a sync can
 * raise, and the messages it hands to the singer sink.
 */
module StreamTypes {
  import opened Wrappers
  import opened Json
  import Client
  import Utils

  /** The base classes a concrete stream derives from. */
  datatype StreamKind = Incremental | Parent | Child | FullTable

  /**
   * The class attributes of a concrete stream (`tap_stream_id`, `replication_keys`,
   * `path`, ...), and the selection flag read from the catalog metadata.
   * `filterParam` and `isPageNumberPagination` are `None` on streams that do not
   * define the attribute.
   */
  datatype StreamConfig = StreamConfig(
    tapStreamId: string,
    kind: StreamKind,
    replicationKeys: seq<string>,
    selected: bool,
    path: string,
    pageSize: int,
    nextPageKey: string,
    dataKey: string,
    httpMethod: string,
    filterParam: Option<string>,
    isPageNumberPagination: Option<bool>)

  /** The class-level defaults of `BaseStream`. */
  const PAGE_SIZE: int := 20
  const HTTP_METHOD: string := "POST"

  /** `BaseStream.headers`. */
  const HEADERS: map<string, Json> := map["Accept" := Str("application/json"), "Content-Type" := Str("application/json")]

  /** The Python exceptions a sync can end with. */
  datatype StreamError =
    | RequestFailed(cause: Client.RequestError)
    | AttributeError(name: string)
    | TypeError
    | KeyError(key: string)
    | IndexError
    /** `str.format` on a replacement field other than `{}`. */
    | FormatError
    | UnboundLocalError(variable: string)
    | CodecFailure(error: Utils.CodecError)
    /** The replies given to the model ran out before the loop stopped. */
    | RepliesExhausted

  /** What a stream's sync hands on: a record to `write_record`, or a record to a child's `sync`. */
  datatype Event = Emitted(record: Json) | ChildSynced(child: string, parentRecord: Json)

  /** `self.bookmark_value` of a child stream: never assigned by the stream classes. */
  datatype Cache = Unset | Cached(value: Option<string>)

  /** The singer transformer and the autopilot normaliser, treated as given functions. */
  datatype Hooks = Hooks(
    transform: Json -> Json,
    normalizeAutopilot: seq<(string, Json)> -> seq<(string, Json)>)

  /** `str.endswith`. */
  predicate EndsWith(s: string, suffix: string) {
    |suffix| <= |s| && s[|s| - |suffix|..] == suffix
  }
}
