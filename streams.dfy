/**
 * The stream objects of the tap: their per-instance state (`url_endpoint`,
 * `params`, `data_payload`, the child's cached bookmark), the body-cursor paging
 * loop, the bookmark reads and writes of each stream class, and the incremental and
 * full-table syncs.
 */
module Streams {
  import opened Wrappers
  import opened Json
  import opened StreamTypes
  import Strings
  import Utils
  import Client
  import Normalizer
  import Bookmarks
  import opened Replication
  import opened Endpoints
  import opened Paging
  import opened Incremental

  /** What a stream is wired to: its class attributes, its children, and the client's configuration. */
  datatype Wiring = Wiring(config: StreamConfig, childIds: seq<string>, startDate: string, baseUrl: string)

  function EnvFor(w: Wiring, hooks: Hooks, datetimeFields: set<string>): Env {
    Env(w.config.tapStreamId, w.config.replicationKeys, w.config.selected, w.childIds, datetimeFields, hooks)
  }

  /** `get_bookmark(state, self.tap_stream_id)` of the stream's class, with the child's cache before and after. */
  function ReadBookmark(w: Wiring, cache: Cache, b: Bookmarks.BookmarkMap): (Result<Option<string>, StreamError>, Cache) {
    var c := w.config;
    match c.kind
    case Parent => (ParentBookmark(b, c.tapStreamId, c.replicationKeys, c.selected, w.childIds, w.startDate), cache)
    case Child => ChildBookmark(cache, b, c.tapStreamId, c.replicationKeys, w.startDate)
    case _ =>
      match IncrementalBookmark(b, c.tapStreamId, None, c.replicationKeys, w.startDate)
      case Ok(s) => (Ok(Some(s)), cache)
      case Err(e) => (Err(e), cache)
  }

  /** `write_bookmark(state, self.tap_stream_id, value=value)` of the stream's class. */
  function WriteBookmarkFor(w: Wiring, b: Bookmarks.BookmarkMap, value: Option<string>): Result<Bookmarks.BookmarkMap, StreamError> {
    var c := w.config;
    if c.kind == Parent then ParentWrite(b, c.tapStreamId, c.replicationKeys, c.selected, w.childIds, w.startDate, value)
    else IncrementalWrite(b, c.tapStreamId, None, c.replicationKeys, w.startDate, value)
  }

  /** The JSON value of an optional int: `None` becomes null. */
  function IntOrNull(v: Option<int>): Json {
    match v
    case Some(i) => Int(i)
    case None => Null
  }

  function JsonOrNull(v: Option<Json>): Json {
    match v
    case Some(j) => j
    case None => Null
  }

  /** `IncrementalStream.update_params`: the filter parameter takes the bookmark's timestamp, `per_page` the page size. */
  function UpdatedParams(c: StreamConfig, params: map<string, Json>, updatedSince: Option<int>): Result<map<string, Json>, StreamError> {
    match c.filterParam
    case None => Err(AttributeError("filter_param"))
    case Some(fp) => Ok(params[fp := IntOrNull(updatedSince)]["per_page" := Int(c.pageSize)])
  }

  /** The stream's endpoint for this sync. */
  function EndpointOf(w: Wiring, urlEndpoint: string, parentObj: Option<Json>): Result<string, StreamError> {
    if w.config.kind == Child then ChildEndpoint(w.baseUrl, w.config.path, parentObj)
    else Ok(BaseEndpoint(urlEndpoint, w.baseUrl, w.config.path))
  }

  /** What the `with metrics.record_counter` block leaves behind: the count or exception, the events, the bookmarks. */
  datatype BlockOutcome = BlockOutcome(result: Result<nat, StreamError>, events: seq<Event>, bookmarks: Bookmarks.BookmarkMap)

  /** The record loop from the bookmark's timestamp, then the write of the formatted running maximum. */
  function RecordBlock(w: Wiring, b: Bookmarks.BookmarkMap, env: Env, ts: Option<int>, records: seq<Json>): BlockOutcome {
    var run := Run(env, ts, Stages(env, records));
    if run.failure.Some? then BlockOutcome(Err(run.failure.value), run.events, b)
    else
      match Utils.DatetimeFromTimestamp(run.current)
      case Err(e) => BlockOutcome(Err(CodecFailure(e)), run.events, b)
      case Ok(date) =>
        match WriteBookmarkFor(w, b, date)
        case Err(e) => BlockOutcome(Err(e), run.events, b)
        case Ok(b1) => BlockOutcome(Ok(run.count), run.events, b1)
  }

  /**
   * A plain incremental block that completes stores, under the first replication
   * key, the later of the stored bookmark (or start date) and the formatted maximum
   * of `start` and every record's timestamp; it returns the number of records
   * written, and the state changes nowhere else.
   */
  lemma {:induction false} RecordBlockStoresTheMaximum(w: Wiring, b: Bookmarks.BookmarkMap, env: Env, start: int, records: seq<Json>)
    requires w.config.kind == Incremental && |w.config.replicationKeys| > 0
    requires RecordBlock(w, b, env, Some(start), records).result.Ok?
    ensures var o := RecordBlock(w, b, env, Some(start), records);
      var id := w.config.tapStreamId;
      var rk := w.config.replicationKeys[0];
      var stored := Bookmarks.Lookup(b, id, rk, w.startDate);
      var stages := Stages(env, records);
      (forall i :: 0 <= i < |stages| ==> Timed(stages[i])) &&
      var top := MaxTs(start, stages, |stages|);
      Utils.MIN_TIMESTAMP <= top <= Utils.MAX_TIMESTAMP &&
      o.result == Ok(EmittedCount(o.events)) &&
      o.events == ExpectedEvents(env, start, stages, |stages|) &&
      Bookmarks.Lookup(o.bookmarks, id, rk, w.startDate) == Strings.Max(stored, Utils.Format(Utils.FromTimestamp(top))) &&
      (forall s, k, d :: (s != id || k != rk) ==> Bookmarks.Lookup(o.bookmarks, s, k, d) == Bookmarks.Lookup(b, s, k, d))
  {
    var stages := Stages(env, records);
    var run := Run(env, Some(start), stages);
    assert run.failure.None?;
    RunFollowsTheClosedForm(env, start, stages);
    CountIsTheNumberWritten(env, Some(start), stages);
    var top := MaxTs(start, stages, |stages|);
    assert Utils.DatetimeFromTimestamp(run.current).Ok?;
    var date := Utils.DatetimeFromTimestamp(run.current).value;
    Utils.FormatShape(top);
    assert date == Some(Utils.Format(Utils.FromTimestamp(top)));
    IncrementalWriteKeepsTheMaximum(b, w.config.tapStreamId, None, w.config.replicationKeys, w.startDate, date);
  }

  /** Everything an incremental sync leaves behind. */
  datatype SyncOutcome = SyncOutcome(
    result: Result<nat, StreamError>,
    events: seq<Event>,
    bookmarks: Bookmarks.BookmarkMap,
    cache: Cache,
    params: map<string, Json>,
    payload: seq<(string, Json)>,
    url: string)

  /** The stream state the set-up of a sync leaves, and the bookmark's timestamp or the exception it raised. */
  datatype Setup = Setup(
    ts: Result<Option<int>, StreamError>,
    cache: Cache,
    params: map<string, Json>,
    payload: seq<(string, Json)>,
    url: string)

  /**
   * The set-up of `IncrementalStream.sync`: read the bookmark and its timestamp, update
   * `params`, `data_payload` and the endpoint, and reach `is_page_number_pagination`.
   */
  function SyncSetup(w: Wiring, cache: Cache, params: map<string, Json>, payload: seq<(string, Json)>,
                     url: string, b: Bookmarks.BookmarkMap, parentObj: Option<Json>): Setup
  {
    var (bookmark, cache1) := ReadBookmark(w, cache, b);
    if bookmark.Err? then Setup(Err(bookmark.error), cache1, params, payload, url)
    else
      match Utils.TimestampFromDatetime(bookmark.value)
      case Err(e) => Setup(Err(CodecFailure(e)), cache1, params, payload, url)
      case Ok(ts) =>
        match UpdatedParams(w.config, params, ts)
        case Err(e) => Setup(Err(e), cache1, params, payload, url)
        case Ok(params1) =>
          var payload1 := Set(payload, "parent_obj", JsonOrNull(parentObj));
          match EndpointOf(w, url, parentObj)
          case Err(e) => Setup(Err(e), cache1, params1, payload1, url)
          case Ok(url1) =>
            if w.config.isPageNumberPagination.None? then
              Setup(Err(AttributeError("is_page_number_pagination")), cache1, params1, payload1, url1)
            else Setup(Ok(ts), cache1, params1, payload1, url1)
  }

  /** `IncrementalStream.sync` from the given stream state and replication state. */
  function IncrementalOutcome(w: Wiring, cache: Cache, params: map<string, Json>, payload: seq<(string, Json)>,
                              url: string, b: Bookmarks.BookmarkMap, hooks: Hooks, datetimeFields: set<string>,
                              parentObj: Option<Json>, records: seq<Json>): SyncOutcome
  {
    var setup := SyncSetup(w, cache, params, payload, url, b, parentObj);
    match setup.ts
    case Err(e) => SyncOutcome(Err(e), [], b, setup.cache, setup.params, setup.payload, setup.url)
    case Ok(ts) =>
      var block := RecordBlock(w, b, EnvFor(w, hooks, datetimeFields), ts, records);
      SyncOutcome(block.result, block.events, block.bookmarks, setup.cache, setup.params, setup.payload, setup.url)
  }

  /**
   * A plain incremental sync that completes stores, under its first replication
   * key, the later of the stored bookmark (or start date) and the formatted maximum
   * of the bookmark's timestamp and every record's; it returns the number of records
   * written, and the state changes nowhere else.
   */
  lemma {:induction false} IncrementalSyncStoresTheMaximum(w: Wiring, cache: Cache, params: map<string, Json>,
      payload: seq<(string, Json)>, url: string, b: Bookmarks.BookmarkMap, hooks: Hooks, datetimeFields: set<string>,
      parentObj: Option<Json>, records: seq<Json>)
    requires w.config.kind == Incremental && |w.config.replicationKeys| > 0
    requires IncrementalOutcome(w, cache, params, payload, url, b, hooks, datetimeFields, parentObj, records).result.Ok?
    ensures var o := IncrementalOutcome(w, cache, params, payload, url, b, hooks, datetimeFields, parentObj, records);
      var id := w.config.tapStreamId;
      var rk := w.config.replicationKeys[0];
      var stored := Bookmarks.Lookup(b, id, rk, w.startDate);
      var env := EnvFor(w, hooks, datetimeFields);
      var stages := Stages(env, records);
      Utils.TimestampFromDatetime(Some(stored)).Ok? && Utils.TimestampFromDatetime(Some(stored)).value.Some? &&
      (forall i :: 0 <= i < |stages| ==> Timed(stages[i])) &&
      var top := MaxTs(Utils.TimestampFromDatetime(Some(stored)).value.value, stages, |stages|);
      Utils.MIN_TIMESTAMP <= top <= Utils.MAX_TIMESTAMP &&
      o.result == Ok(EmittedCount(o.events)) &&
      o.events == ExpectedEvents(env, Utils.TimestampFromDatetime(Some(stored)).value.value, stages, |stages|) &&
      Bookmarks.Lookup(o.bookmarks, id, rk, w.startDate) == Strings.Max(stored, Utils.Format(Utils.FromTimestamp(top))) &&
      (forall s, k, d :: (s != id || k != rk) ==> Bookmarks.Lookup(o.bookmarks, s, k, d) == Bookmarks.Lookup(b, s, k, d))
  {
    var stored := Bookmarks.Lookup(b, w.config.tapStreamId, w.config.replicationKeys[0], w.startDate);
    var setup := SyncSetup(w, cache, params, payload, url, b, parentObj);
    assert setup.ts.Ok?;
    SetupReadsTheStoredBookmark(w, cache, params, payload, url, b, parentObj);
    var ts := Utils.TimestampFromDatetime(Some(stored));
    RecordBlockStoresTheMaximum(w, b, EnvFor(w, hooks, datetimeFields), ts.value.value, records);
  }

  /** A plain incremental set-up that succeeds hands on the timestamp of the stored bookmark (or start date). */
  lemma SetupReadsTheStoredBookmark(w: Wiring, cache: Cache, params: map<string, Json>, payload: seq<(string, Json)>,
      url: string, b: Bookmarks.BookmarkMap, parentObj: Option<Json>)
    requires w.config.kind == Incremental && |w.config.replicationKeys| > 0
    requires SyncSetup(w, cache, params, payload, url, b, parentObj).ts.Ok?
    ensures var ts := Utils.TimestampFromDatetime(Some(Bookmarks.Lookup(b, w.config.tapStreamId, w.config.replicationKeys[0], w.startDate)));
      ts.Ok? && ts.value.Some? && SyncSetup(w, cache, params, payload, url, b, parentObj).ts == Ok(ts.value)
  {
    assert ReadBookmark(w, cache, b).0 == Ok(Some(Bookmarks.Lookup(b, w.config.tapStreamId, w.config.replicationKeys[0], w.startDate)));
  }

  /** An incremental sync fails before writing anything when its stream lacks `filter_param`. */
  lemma SyncNeedsAFilterParam(w: Wiring, cache: Cache, params: map<string, Json>, payload: seq<(string, Json)>,
      url: string, b: Bookmarks.BookmarkMap, hooks: Hooks, datetimeFields: set<string>, parentObj: Option<Json>, records: seq<Json>)
    requires w.config.filterParam.None?
    ensures var o := IncrementalOutcome(w, cache, params, payload, url, b, hooks, datetimeFields, parentObj, records);
      o.result.Err? && o.events == [] && o.bookmarks == b && o.params == params
  {
    var (bookmark, cache1) := ReadBookmark(w, cache, b);
    if bookmark.Ok? {
      var ts := Utils.TimestampFromDatetime(bookmark.value);
      if ts.Ok? {
        assert UpdatedParams(w.config, params, ts.value) == Err(AttributeError("filter_param"));
      }
    }
  }

  /** A child stream's first sync reads its never-assigned cache and raises AttributeError. */
  lemma ChildSyncReadsAnUnsetCache(w: Wiring, params: map<string, Json>, payload: seq<(string, Json)>,
      url: string, b: Bookmarks.BookmarkMap, hooks: Hooks, datetimeFields: set<string>, parentObj: Option<Json>, records: seq<Json>)
    requires w.config.kind == Child
    ensures IncrementalOutcome(w, Unset, params, payload, url, b, hooks, datetimeFields, parentObj, records) ==
      SyncOutcome(Err(AttributeError("bookmark_value")), [], b, Unset, params, payload, url)
  {
  }

  /** One stream instance. The class-level `headers` is per-instance here. */
  class Stream {
    const config: StreamConfig
    const client: Client.Client
    /** `child_to_sync`: the child streams this parent syncs, given when the stream is built. */
    const childToSync: seq<Stream>
    const headers: map<string, Json> := HEADERS
    var urlEndpoint: string
    var params: map<string, Json>
    var dataPayload: seq<(string, Json)>
    var bookmarkValue: Cache
    /** The records handed to `write_record` and the child syncs started, in order. */
    ghost var log: seq<Event>

    constructor(config: StreamConfig, client: Client.Client, childToSync: seq<Stream>)
      ensures this.config == config && this.client == client && this.childToSync == childToSync
      ensures urlEndpoint == "" && params == map[] && dataPayload == [] && bookmarkValue == Unset && log == []
    {
      this.config := config;
      this.client := client;
      this.childToSync := childToSync;
      urlEndpoint := "";
      params := map[];
      dataPayload := [];
      bookmarkValue := Unset;
      log := [];
    }

    function ChildIds(): (ids: seq<string>)
      ensures |ids| == |childToSync|
      ensures forall i :: 0 <= i < |childToSync| ==> ids[i] == childToSync[i].config.tapStreamId
    {
      seq(|childToSync|, i requires 0 <= i < |childToSync| => childToSync[i].config.tapStreamId)
    }

    function Wired(): Wiring {
      Wiring(config, ChildIds(), client.startDate, client.baseUrl)
    }

    /** The fixed parts of this stream's requests. */
    function CurrentQuery(): Query
      reads this`urlEndpoint, this`dataPayload
    {
      Query(config.httpMethod, urlEndpoint, headers, Obj(dataPayload), config.path, config.dataKey, config.nextPageKey)
    }

    /** One turn of the paging loop: `make_request` with the given parameters, then read the reply. */
    method RequestPage(ghost q: Query, ps: map<string, Json>, reply: Client.HttpResponse) returns (page: Result<Reply, StreamError>)
      requires q == CurrentQuery()
      modifies client
      ensures page == ReadReply(q, reply)
      ensures client.sent == old(client.sent) + Sent(q, ps)
    {
      var response := client.MakeRequest(config.httpMethod, urlEndpoint, Some(ps), Some(headers),
        Some(Obj(dataPayload)), Some(config.path), reply);
      if response.Err? {
        return Err(RequestFailed(response.error));
      }
      if !response.value.Obj? {
        return Err(AttributeError("get"));
      }
      var fields := response.value.fields;
      page := Ok(Reply(GetOr(fields, config.nextPageKey, Null), RawItems(GetOr(fields, config.dataKey, Arr([])))));
    }

    /**
     * The `while next_page` loop of `BaseStream.get_records`, starting from the
     * parameters `p0`; `last` is `self.params` when the loop ends or raises.
     */
    method PageLoop(ghost q: Query, p0: map<string, Json>, replies: seq<Client.HttpResponse>)
      returns (records: seq<Json>, failure: Option<StreamError>, last: map<string, Json>)
      requires q == CurrentQuery()
      modifies client
      ensures var run := Paginate(q, p0, Readings(q, replies));
        records == run.records && failure == run.failure && last == run.params &&
        client.sent == old(client.sent) + run.requests
    {
      ghost var pages := Readings(q, replies);
      ghost var sent0 := client.sent;
      ghost var requests: seq<Client.Request> := [];
      last := p0;
      var next: Json := Int(1);
      var i := 0;
      records := [];
      failure := None;
      MidwayStart(q, p0, pages);
      while Truthy(next)
        invariant 0 <= i <= |replies| && failure.None?
        invariant client.sent == sent0 + requests
        invariant Truthy(next) ==> Midway(q, p0, pages, i, records, requests, last)
        invariant !Truthy(next) ==> Paginate(q, p0, pages) == PageRun(records, requests, last, None)
        decreases |replies| - i
      {
        if i == |replies| {
          failure := Some(RepliesExhausted);
          MidwayExhausted(q, p0, pages, records, requests, last);
          break;
        }
        var page := RequestPage(q, last, replies[i]);
        ghost var earlier := requests;
        requests := requests + Sent(q, last);
        if page.Err? {
          failure := Some(page.error);
          MidwayFailsOnARead(q, p0, pages, i, records, earlier, last);
          break;
        }
        ghost var p := last;
        next := page.value.next;
        last := last[config.nextPageKey := next];
        var items := page.value.items;
        if items.Err? {
          failure := Some(items.error);
          MidwayFailsOnItems(q, p0, pages, i, records, earlier, p);
          break;
        }
        if Truthy(next) {
          MidwayContinues(q, p0, pages, i, records, earlier, p);
        } else {
          MidwayStops(q, p0, pages, i, records, earlier, p);
        }
        records := records + items.value;
        i := i + 1;
      }
      assert Paginate(q, p0, pages) == PageRun(records, requests, last, failure);
    }

    /** `BaseStream.get_records`: set `per_page`, then page through the replies until a falsy cursor. */
    method GetRecords(replies: seq<Client.HttpResponse>) returns (records: seq<Json>, failure: Option<StreamError>)
      modifies this`params, client
      ensures var q := CurrentQuery();
        var run := Paginate(q, old(params)["per_page" := Int(config.pageSize)], Readings(q, replies));
        records == run.records && failure == run.failure && params == run.params &&
        client.sent == old(client.sent) + run.requests
    {
      params := params["per_page" := Int(config.pageSize)];
      records, failure, params := PageLoop(CurrentQuery(), params, replies);
    }

    /** `IncrementalStream.update_params`: the filter parameter and `per_page` are set in `params`. */
    method UpdateParams(updatedSince: Option<int>) returns (failure: Option<StreamError>)
      modifies this`params
      ensures match UpdatedParams(config, old(params), updatedSince)
        case Ok(p) => failure.None? && params == p
        case Err(e) => failure == Some(e) && params == old(params)
    {
      if config.filterParam.None? {
        return Some(AttributeError("filter_param"));
      }
      params := params[config.filterParam.value := IntOrNull(updatedSince)];
      params := params["per_page" := Int(config.pageSize)];
      failure := None;
    }

    /** `ParentBaseStream.get_bookmark`: a running minimum over the parent (when selected) and each child. */
    method ParentGetBookmark(state: Bookmarks.State) returns (r: Result<Option<string>, StreamError>)
      ensures r == ParentBookmark(state.bookmarks, config.tapStreamId, config.replicationKeys, config.selected,
        ChildIds(), client.startDate)
    {
      ghost var b := state.bookmarks;
      var minimum: Option<string> := None;
      if config.selected {
        var own := IncrementalBookmark(state.bookmarks, config.tapStreamId, None, config.replicationKeys, client.startDate);
        if own.Err? {
          return Err(own.error);
        }
        minimum := Some(own.value);
      }
      ghost var start := minimum;
      for i := 0 to |childToSync|
        invariant state.bookmarks == b
        invariant i > 0 ==> |config.replicationKeys| > 0
        invariant i == 0 ==> minimum == start
        invariant i > 0 ==> (minimum ==
          Bookmarks.ParentMinimum(start, ChildBookmarks(b, ChildIds(), ChildKey(config.tapStreamId, config.replicationKeys), client.startDate)[..i]))
      {
        if |config.replicationKeys| == 0 {
          return Err(IndexError);
        }
        var bookmarkKey := config.tapStreamId + "_" + config.replicationKeys[0];
        // the key is never empty, so `key or ...` takes it
        var childBookmark := Bookmarks.Lookup(state.bookmarks, childToSync[i].config.tapStreamId, bookmarkKey, client.startDate);
        ghost var cs := ChildBookmarks(b, ChildIds(), bookmarkKey, client.startDate);
        assert cs[..i + 1][..i] == cs[..i] && cs[..i + 1][i] == childBookmark;
        assert i == 0 ==> cs[..0] == [];
        minimum := if Bookmarks.Truthy(minimum) then Some(Strings.Min(minimum.value, childBookmark)) else Some(childBookmark);
      }
      assert |childToSync| > 0 ==> ChildBookmarks(b, ChildIds(), ChildKey(config.tapStreamId, config.replicationKeys),
        client.startDate)[..|childToSync|] == ChildBookmarks(b, ChildIds(), ChildKey(config.tapStreamId, config.replicationKeys), client.startDate);
      r := Ok(minimum);
    }

    /** `ChildBaseStream.get_bookmark`: read the state only while the cached value is falsy. */
    method ChildGetBookmark(state: Bookmarks.State) returns (r: Result<Option<string>, StreamError>)
      modifies this`bookmarkValue
      ensures (r, bookmarkValue) ==
        ChildBookmark(old(bookmarkValue), state.bookmarks, config.tapStreamId, config.replicationKeys, client.startDate)
    {
      if bookmarkValue.Unset? {
        return Err(AttributeError("bookmark_value"));
      }
      if !Bookmarks.Truthy(bookmarkValue.value) {
        var s := IncrementalBookmark(state.bookmarks, config.tapStreamId, None, config.replicationKeys, client.startDate);
        if s.Err? {
          return Err(s.error);
        }
        bookmarkValue := Cached(Some(s.value));
      }
      r := Ok(bookmarkValue.value);
    }

    /** `get_bookmark(state, self.tap_stream_id)` as this stream's class defines it. */
    method GetBookmark(state: Bookmarks.State) returns (r: Result<Option<string>, StreamError>)
      modifies this`bookmarkValue
      ensures (r, bookmarkValue) == ReadBookmark(Wired(), old(bookmarkValue), state.bookmarks)
    {
      match config.kind {
        case Parent =>
          r := ParentGetBookmark(state);
        case Child =>
          r := ChildGetBookmark(state);
        case _ =>
          var s := IncrementalBookmark(state.bookmarks, config.tapStreamId, None, config.replicationKeys, client.startDate);
          r := if s.Ok? then Ok(Some(s.value)) else Err(s.error);
      }
    }

    /** `IncrementalStream.write_bookmark(state, stream, key, value)`. */
    method IncrementalWriteBookmark(state: Bookmarks.State, stream: string, key: Option<string>, value: Option<string>)
      returns (failure: Option<StreamError>)
      modifies state
      ensures match IncrementalWrite(old(state.bookmarks), stream, key, config.replicationKeys, client.startDate, value)
        case Ok(b) => failure.None? && state.bookmarks == b
        case Err(e) => failure == Some(e) && state.bookmarks == old(state.bookmarks)
    {
      if !(Bookmarks.Truthy(key) || |config.replicationKeys| > 0) {
        return None;
      }
      var k := if Bookmarks.Truthy(key) then key.value else config.replicationKeys[0];
      var current := Bookmarks.Lookup(state.bookmarks, stream, k, client.startDate);
      if value.None? {
        // `max` of a string and None
        return Some(TypeError);
      }
      state.WriteBookmark(stream, k, Strings.Max(current, value.value));
      failure := None;
    }

    /** `write_bookmark(state, self.tap_stream_id, value=value)`; the parent fans the write out to its children. */
    method WriteBookmark(state: Bookmarks.State, value: Option<string>) returns (failure: Option<StreamError>)
      modifies state
      ensures match WriteBookmarkFor(Wired(), old(state.bookmarks), value)
        case Ok(b) => failure.None? && state.bookmarks == b
        case Err(e) => failure == Some(e) && state.bookmarks == old(state.bookmarks)
    {
      if config.kind != Parent {
        failure := IncrementalWriteBookmark(state, config.tapStreamId, None, value);
        return;
      }
      failure := None;
      if config.selected {
        failure := IncrementalWriteBookmark(state, config.tapStreamId, None, value);
        if failure.Some? {
          return;
        }
      }
      failure := WriteChildBookmarks(state, value);
    }

    /** The loop of `ParentBaseStream.write_bookmark`: each child's bookmark under `<parent>_<first replication key>`. */
    method WriteChildBookmarks(state: Bookmarks.State, value: Option<string>) returns (failure: Option<StreamError>)
      modifies state
      ensures if |childToSync| == 0 then failure.None? && state.bookmarks == old(state.bookmarks)
        else if |config.replicationKeys| == 0 then failure == Some(IndexError) && state.bookmarks == old(state.bookmarks)
        else if value.None? then failure == Some(TypeError) && state.bookmarks == old(state.bookmarks)
        else (failure.None? && state.bookmarks ==
          FanOut(old(state.bookmarks), ChildIds(), ChildKey(config.tapStreamId, config.replicationKeys), client.startDate, value.value))
    {
      failure := None;
      for i := 0 to |childToSync|
        invariant failure.None?
        invariant i > 0 ==> |config.replicationKeys| > 0 && value.Some?
        invariant i == 0 ==> state.bookmarks == old(state.bookmarks)
        invariant i > 0 ==> (state.bookmarks ==
          FanOut(old(state.bookmarks), ChildIds()[..i], ChildKey(config.tapStreamId, config.replicationKeys), client.startDate, value.value))
      {
        if |config.replicationKeys| == 0 {
          return Some(IndexError);
        }
        var bookmarkKey := config.tapStreamId + "_" + config.replicationKeys[0];
        failure := IncrementalWriteBookmark(state, childToSync[i].config.tapStreamId, Some(bookmarkKey), value);
        if failure.Some? {
          return;
        }
        assert ChildIds()[..i + 1][..i] == ChildIds()[..i];
        assert i == 0 ==> ChildIds()[..0] == [];
      }
      assert ChildIds()[..|childToSync|] == ChildIds();
    }

    /** `for child in self.child_to_sync: child.sync(..., parent_obj=record)`: each call is logged. */
    method SyncChildren(record: Json)
      modifies this`log
      ensures log == old(log) + ChildEvents(ChildIds(), record)
    {
      for j := 0 to |childToSync|
        invariant log == old(log) + ChildEvents(ChildIds()[..j], record)
      {
        assert ChildEvents(ChildIds()[..j + 1], record) == ChildEvents(ChildIds()[..j], record) + [ChildSynced(childToSync[j].config.tapStreamId, record)];
        log := log + [ChildSynced(childToSync[j].config.tapStreamId, record)];
      }
      assert ChildIds()[..|childToSync|] == ChildIds();
    }

    /** The work on one record before the `>=` test: `modify_object`, the autopilot normaliser, the transformer, the key's timestamp. */
    method StageRecord(env: Env, record: Json) returns (stage: Result<Staged, StreamError>)
      ensures stage == Stage(env, record)
    {
      if !record.Obj? {
        return Err(AttributeError("items"));
      }
      var normalized := Normalizer.ModifyObject(record.fields, env.datetimeFields);
      var modified := if EndsWith(env.streamId, "autopilot") then env.hooks.normalizeAutopilot(normalized) else normalized;
      var transformed := env.hooks.transform(Obj(modified));
      if |env.replicationKeys| == 0 {
        return Err(IndexError);
      }
      if !transformed.Obj? {
        return Err(TypeError);
      }
      var recordBookmark := Get(transformed.fields, env.replicationKeys[0]);
      if recordBookmark.None? {
        return Err(KeyError(env.replicationKeys[0]));
      }
      var ts := RecordTimestamp(recordBookmark.value);
      if ts.Err? {
        return Err(ts.error);
      }
      stage := Ok(Staged(Obj(modified), transformed, ts.value));
    }

    /** The record loop of `IncrementalStream.sync`, from the bookmark's timestamp `start`. */
    method SyncRecords(hooks: Hooks, datetimeFields: set<string>, start: Option<int>, records: seq<Json>)
      returns (counter: nat, current: Option<int>, failure: Option<StreamError>)
      modifies this`log
      ensures var run := Run(EnvFor(Wired(), hooks, datetimeFields), start, Stages(EnvFor(Wired(), hooks, datetimeFields), records));
        counter == run.count && current == run.current && failure == run.failure && log == old(log) + run.events
    {
      var env := EnvFor(Wired(), hooks, datetimeFields);
      ghost var stages := Stages(env, records);
      ghost var events: seq<Event> := [];
      counter, current, failure := 0, start, None;
      assert stages[..0] == [];
      for i := 0 to |records|
        invariant Run(env, start, stages[..i]) == Progress(events, counter, current, None)
        invariant log == old(log) + events
      {
        RunExtends(env, start, stages, i);
        var stage := StageRecord(env, records[i]);
        assert stage == stages[i];
        if stage.Err? {
          failure := Some(stage.error);
          RunStaysFailed(env, start, stages, i + 1);
          return;
        }
        var st := stage.value;
        if st.ts.None? || current.None? {
          // `>=` between None and an int
          failure := Some(TypeError);
          RunStaysFailed(env, start, stages, i + 1);
          return;
        }
        ghost var p := Progress(events, counter, current, None);
        if st.ts.value < current.value {
          StepSkips(env, p, st);
        } else {
          StepAdmits(env, p, st);
          ghost var before := log;
          ghost var own: seq<Event> := if env.selected then [Emitted(st.transformed)] else [];
          if env.selected {
            log := log + [Emitted(st.transformed)];
            counter := counter + 1;
          }
          current := Some(if st.ts.value > current.value then st.ts.value else current.value);
          ghost var written := log;
          assert written == before + own;
          SyncChildren(st.modified);
          ghost var handed := ChildEvents(env.childIds, st.modified);
          assert log == written + handed;
          AppendAssociative(before, own, handed);
          AppendAssociative(old(log), events, own + handed);
          events := events + PassEvents(env, st);
        }
      }
      assert stages[..|records|] == stages;
    }

    /** `IncrementalStream.sync` (and the parent's and child's, through their bookmark methods). */
    method Sync(state: Bookmarks.State, hooks: Hooks, datetimeFields: set<string>, parentObj: Option<Json>, records: seq<Json>)
      returns (r: Result<nat, StreamError>)
      requires config.kind != FullTable
      modifies this, state
      ensures var o := IncrementalOutcome(Wired(), old(bookmarkValue), old(params), old(dataPayload), old(urlEndpoint),
        old(state.bookmarks), hooks, datetimeFields, parentObj, records);
        r == o.result && log == old(log) + o.events && state.bookmarks == o.bookmarks &&
        bookmarkValue == o.cache && params == o.params && dataPayload == o.payload && urlEndpoint == o.url
    {
      var ts := PrepareSync(state, parentObj);
      if ts.Err? {
        return Err(ts.error);
      }
      r := RecordBlockRun(state, hooks, datetimeFields, ts.value, records);
    }

    /** The set-up of `IncrementalStream.sync`, up to the paginator. */
    method PrepareSync(state: Bookmarks.State, parentObj: Option<Json>) returns (ts: Result<Option<int>, StreamError>)
      requires config.kind != FullTable
      modifies this`bookmarkValue, this`params, this`dataPayload, this`urlEndpoint
      ensures var setup := SyncSetup(Wired(), old(bookmarkValue), old(params), old(dataPayload), old(urlEndpoint),
        state.bookmarks, parentObj);
        ts == setup.ts && bookmarkValue == setup.cache && params == setup.params &&
        dataPayload == setup.payload && urlEndpoint == setup.url
    {
      var bookmark := GetBookmark(state);
      if bookmark.Err? {
        return Err(bookmark.error);
      }
      var parsed := Utils.TimestampFromDatetime(bookmark.value);
      if parsed.Err? {
        return Err(CodecFailure(parsed.error));
      }
      var failure := UpdateParams(parsed.value);
      if failure.Some? {
        return Err(failure.value);
      }
      dataPayload := Set(dataPayload, "parent_obj", JsonOrNull(parentObj));
      var url := EndpointOf(Wired(), urlEndpoint, parentObj);
      if url.Err? {
        return Err(url.error);
      }
      urlEndpoint := url.value;
      if config.isPageNumberPagination.None? {
        return Err(AttributeError("is_page_number_pagination"));
      }
      ts := Ok(parsed.value);
    }

    /** The `with metrics.record_counter` block of `IncrementalStream.sync`: the record loop, then the bookmark write. */
    method RecordBlockRun(state: Bookmarks.State, hooks: Hooks, datetimeFields: set<string>, ts: Option<int>, records: seq<Json>)
      returns (r: Result<nat, StreamError>)
      modifies this`log, state
      ensures var o := RecordBlock(Wired(), old(state.bookmarks), EnvFor(Wired(), hooks, datetimeFields), ts, records);
        r == o.result && log == old(log) + o.events && state.bookmarks == o.bookmarks
    {
      var counter, current, stopped := SyncRecords(hooks, datetimeFields, ts, records);
      if stopped.Some? {
        return Err(stopped.value);
      }
      var date := Utils.DatetimeFromTimestamp(current);
      if date.Err? {
        return Err(CodecFailure(date.error));
      }
      var failure := WriteBookmark(state, date.value);
      if failure.Some? {
        return Err(failure.value);
      }
      r := Ok(counter);
    }

    /** `FullTableStream.get_records`: one request; the reply is the one record when it is a dict. */
    method FullTableGetRecords(reply: Client.HttpResponse) returns (records: Result<seq<Json>, StreamError>)
      modifies client
      ensures records == FullTableRecords(config.httpMethod, reply)
      ensures client.sent == old(client.sent) + Sent(CurrentQuery(), params)
    {
      var response := client.MakeRequest(config.httpMethod, urlEndpoint, Some(params), Some(headers),
        Some(Obj(dataPayload)), Some(config.path), reply);
      if response.Err? {
        return Err(RequestFailed(response.error));
      }
      if !response.value.Obj? {
        // `raw_records` is only bound for a dict
        return Err(UnboundLocalError("raw_records"));
      }
      records := Ok([response.value]);
    }

    /** The record loop of `FullTableStream.sync`. */
    method FullTableRecordLoop(hooks: Hooks, rs: seq<Json>) returns (counter: nat)
      modifies this`log
      ensures counter == if config.selected then |rs| else 0
      ensures log == old(log) + FullTableEvents(EnvFor(Wired(), hooks, {}), rs)
    {
      ghost var env := EnvFor(Wired(), hooks, {});
      counter := 0;
      assert rs[..0] == [];
      for i := 0 to |rs|
        invariant log == old(log) + FullTableEvents(env, rs[..i])
        invariant counter == if config.selected then i else 0
      {
        FullTableExtends(env, rs, i);
        ghost var before := log;
        var transformed := hooks.transform(rs[i]);
        ghost var own: seq<Event> := if config.selected then [Emitted(transformed)] else [];
        if config.selected {
          log := log + [Emitted(transformed)];
          counter := counter + 1;
        }
        ghost var written := log;
        assert written == before + own;
        SyncChildren(rs[i]);
        ghost var handed := ChildEvents(env.childIds, rs[i]);
        assert log == written + handed;
        AppendAssociative(before, own, handed);
        AppendAssociative(old(log), FullTableEvents(env, rs[..i]), own + handed);
      }
      assert rs[..|rs|] == rs;
    }

    /** `FullTableStream.sync`: every record is written when selected and handed to every child; no bookmark is touched. */
    method FullTableSync(hooks: Hooks, parentObj: Option<Json>, reply: Client.HttpResponse) returns (r: Result<nat, StreamError>)
      requires config.kind == FullTable
      modifies this`urlEndpoint, this`dataPayload, this`log, client
      ensures urlEndpoint == BaseEndpoint(old(urlEndpoint), client.baseUrl, config.path)
      ensures dataPayload == Set(old(dataPayload), "parent_obj", JsonOrNull(parentObj))
      ensures client.sent == old(client.sent) + Sent(CurrentQuery(), params)
      ensures match FullTableRecords(config.httpMethod, reply)
        case Err(e) => r == Err(e) && log == old(log)
        case Ok(rs) =>
          r == Ok(if config.selected then |rs| else 0) && log == old(log) + FullTableEvents(EnvFor(Wired(), hooks, {}), rs)
    {
      urlEndpoint := BaseEndpoint(urlEndpoint, client.baseUrl, config.path);
      dataPayload := Set(dataPayload, "parent_obj", JsonOrNull(parentObj));
      var records := FullTableGetRecords(reply);
      if records.Err? {
        return Err(records.error);
      }
      var counter := FullTableRecordLoop(hooks, records.value);
      r := Ok(counter);
    }
  }
}
