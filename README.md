# tap-delighted replication core, modelled in Dafny

This project models the replication engine of the Singer tap for Delighted (`tap_delighted`). It covers four parts:

- **The stream classes** (`BaseStream`, `IncrementalStream`, `FullTableStream`, `ParentBaseStream`, `ChildBaseStream`):
  - the body-cursor paging loop, which requests a page, yields the list under `data_key`, sends the `next_page_key` value back as a query parameter, and stops at the first falsy cursor;
  - the stream's own state: `url_endpoint`, `params`, `data_payload` and the child's cached `bookmark_value`;
  - the bookmark reads and writes of each class: the max-policy write, the parent's minimum over its own and its children's bookmarks, the fan-out to the children, and the child's memoised read;
  - the datetime normalisation of records;
  - the incremental record loop, with its running maximum and its child syncs;
  - the full-table sync.
- **The timestamp codec** (`get_datetime_from_timestamp` / `get_timestamp_from_datetime`), in UTC. The model includes a proleptic Gregorian calendar for years 1 to 9999.
- **The HTTP client**:
  - `raise_for_error`, which picks the exception class and the message;
  - the argument defaults of `make_request`;
  - the case-insensitive method check of `__make_request`, with the body dropped on GET;
  - the query of `check_api_credentials`.
- **The exception hierarchy and the status table** `ERROR_CODE_EXCEPTION_MAPPING`, including which classes are retried with backoff.

## Module layout

| file | models |
|---|---|
| `wrappers.dfy`, `strings.dfy`, `json.dfy` | `Option`/`Result`; Python string order, `max`/`min` and `str(int)`; JSON values without floats, dict `get`, truthiness, `str()` |
| `utils.dfy` | the calendar and the timestamp codec |
| `exceptions.dfy` | the exception classes and the status table |
| `client.dfy` | `raise_for_error` and the `Client` class |
| `stream_types.dfy` | stream configuration, the errors a sync raises, and the events it emits |
| `normalizer.dfy` | `IncrementalStream.modify_object` |
| `bookmarks.dfy` | the Singer bookmark state, its max-policy write, and the parent minimum |
| `replication.dfy` | each stream class's `get_bookmark` / `write_bookmark` |
| `endpoints.dfy` | `get_url_endpoint` and the child path's `str.format` |
| `paging.dfy` | `BaseStream.get_records` as a function of the server's replies |
| `incremental.dfy` | the record loop of `IncrementalStream.sync` and the full-table loop |
| `streams.dfy` | the `Stream` class with its methods, and the sync outcome as a whole |

Things the model keeps from the code as written, where a reader might expect otherwise:

- A start timestamp of 0 is falsy, so `check_api_credentials` sends no `since` for the epoch (client.py:76).
- The parent minimum restarts from a child's bookmark whenever the running minimum is falsy: `None`, or an empty string (abstracts.py:339-343).
- `ChildBaseStream.bookmark_value` is never assigned before it is read. A child's sync therefore ends in `AttributeError` unless the cache was set from outside (abstracts.py:373).
- `filter_param` and `is_page_number_pagination` are not defined by the base classes. A stream without them raises `AttributeError` (abstracts.py:180, 187).
- The formatter as written raises on every call, and the parser as written rejects the microsecond form that the tests expect. Both are recorded under "## Findings". The rest of the model uses the corrected codec; the members this changes are named, with the as-written outcome, under "## Left out".

## Model

| member | source | states |
|---|---|---|
| Utils.FromTimestamp | tap_delighted/utils.py:20 | the UTC date of an in-range timestamp is a valid calendar date that converts back to the same timestamp |
| Utils.ToTimestampRoundTrip | tap_delighted/utils.py:38-39 | converting a valid date to epoch seconds and back gives the same date |
| Utils.CodecRoundTrip | tap_delighted/utils.py:7-39 | an in-range timestamp formats successfully; both the corrected parser and the as-written parser read the text back to the same timestamp |
| Utils.CodecRoundTripFromText | tap_delighted/utils.py:24-39 | text the as-written parser accepts has the `%Y-%m-%dT%H:%M:%SZ` shape; the corrected parser agrees with it; formatting the parsed timestamp gives the canonical spelling of the text |
| Utils.NoneToNone | tap_delighted/utils.py:18-36 | `None` maps to `None` in both directions, and only `None` does |
| Utils.FormatShape | tap_delighted/utils.py:4-21 | formatting succeeds exactly for timestamps in years 1 to 9999, and then yields text in the format's shape |
| Utils.AsWrittenParserAcceptsExactlyTheFormat | tap_delighted/utils.py:4-38 | the single-format parser accepts a string exactly when it has the format's shape and names a valid date and time |
| Utils.FormatOrderAgreesWithEpochOrder | tap_delighted/utils.py:20-21 | two formatted timestamps compare as strings in the same order as the timestamps, in both directions; string `max` of bookmarks is therefore the later time |
| Utils.FormatMonotone | tap_delighted/utils.py:4 | a strictly earlier date formats to a string that is strictly smaller |
| Utils.MicrosecondFormParses | tests/unittests/test_utils.py:190-198 | the corrected parser reads `...SS.ffffffZ` as the whole seconds; the as-written parser raises ValueError on it |
| Utils.UtcTestVector | tests/unittests/test_utils.py:181-198 | 1625077800 formats as `2021-06-30T18:30:00Z` and parses back |
| Utils.MicrosecondTestVector | tests/unittests/test_utils.py:194 | the test's `2021-12-01T10:15:30.000000Z` reads as 1638353730 with the corrected parser and raises ValueError with the as-written one |
| Utils.AsWrittenFormatterAlwaysRaises | tap_delighted/utils.py:20-21 | `datetime.strftime` on the string from `isoformat()` raises TypeError for every timestamp, so it never agrees with the corrected formatter |
| Exceptions.ClassForStatus | tap_delighted/client.py:36-38 | a status in the table gives the table's class; any other status gives `DelightedError`; the class is always `DelightedError` or one of its subclasses |
| Exceptions.MessageForStatus | tap_delighted/client.py:32-34 | the fallback message is never empty: the table's message, or "Unknown Error" |
| Exceptions.MappingCoversExactlyTheDocumentedCodes | tap_delighted/exceptions.py:70-115 | the table's keys are exactly 400, 401, 403, 404, 409, 422, 429, 500, 501, 502, 503 |
| Exceptions.EveryEntryIsComplete | tap_delighted/exceptions.py:70-115 | every entry has a non-empty message and a proper subclass of `DelightedError` |
| Exceptions.MappedClassesAreDistinct | tap_delighted/exceptions.py:70-115 | different codes raise different classes |
| Exceptions.BackoffExactlyForRetryableCodes | tap_delighted/exceptions.py:40-67 | the class for a status derives from `DelightedBackoffError` exactly for 422, 429, 500, 501, 502 and 503 |
| Exceptions.ClientErrorsAreNotRetried | tap_delighted/exceptions.py:15-37 | 400, 401, 403, 404 and 409 raise direct subclasses of `DelightedError`, which are not retried |
| Client.RaisesExactlyOnFailureStatus | tap_delighted/client.py:28 | `raise_for_error` raises exactly when the status is not 200, 201 or 204, whatever the body |
| Client.FailureRaisesTheMappedClass | tap_delighted/client.py:36-39 | a failed response with a dict body raises the table's class for its status (`DelightedError` otherwise), carries the response, and is retried exactly for the backoff codes |
| Client.NonDictBodyFailsOnGet | tap_delighted/client.py:29 | a failed response whose JSON is not a dict raises AttributeError, which is not retried |
| Client.MessageSelection | tap_delighted/client.py:29-35 | the message is the fixed prefix and then the first of: a truthy `error`, the body's `message`, the table's message, "Unknown Error" |
| Client.UnparsableBodyReadsAsEmpty | tap_delighted/client.py:24-27 | a body that is not JSON reads as `{}`, giving the table's class and message |
| Client.MethodNamesIgnoreCase | tap_delighted/client.py:127-135 | `get`, `Post` and `poſt` are accepted; `put` and `PATCH` are refused |
| Client.SendOutcome | tap_delighted/client.py:123-137 | any method other than GET or POST raises ValueError `Unsupported method: <METHOD>`; an accepted method with a success status returns the parsed body, or JSONDecodeError when the body does not parse; a failure status raises the error `raise_for_error` picks |
| Client.RequestDefaults | tap_delighted/client.py:98-132 | missing params and headers become `{}`; a missing endpoint becomes `base_url/path`; GET sends no body; POST sends the body or `{}` |
| Client.CredentialParams | tap_delighted/client.py:73-76 | `per_page` is always 1; `since` is sent exactly when the start date parses to a non-zero timestamp, and then it is that timestamp; a start date that does not parse is an error |
| Client.EpochStartDateSendsNoSince | tap_delighted/client.py:74-76 | a start date at the epoch sends only `per_page` |
| Client.Client.MakeRequest | tap_delighted/client.py:86-109 | the result is the reply's outcome; the log gains the defaulted request exactly when the method is accepted |
| Client.Client.Send | tap_delighted/client.py:123-137 | an accepted method sends one request, without a body on GET; any other method sends nothing and raises ValueError `Unsupported method: <METHOD>` |
| Client.Client.CheckApiCredentials | tap_delighted/client.py:66-78 | one GET of `base_url/v1/people.json` with the credential params and a JSON content type, or no request at all when the start date does not parse |
| Json.Get | tap_delighted/streams/abstracts.py:111-112 | `dict.get` finds a value exactly when the key is present, and the value stored under it |
| Json.Set | tap_delighted/streams/abstracts.py:135-139 | after an update, the key maps to the new value and every other key is unchanged |
| Json.StrRepr | tap_delighted/client.py:29-30 | `repr` of a string inside an `error` dict or list: double quotes exactly when the text has `'` and no `"`, single quotes otherwise, and no control character left raw |
| Json.StrReprRoundTrip | tap_delighted/client.py:29-30 | reading back the literal `repr` writes gives the original text, so the quoting and the escapes lose nothing |
| Json.PlainTextInSingleQuotes | tap_delighted/client.py:29-30 | text with no quote, backslash or control character prints unchanged between single quotes |
| Json.QuotedInDoubleQuotes | tap_delighted/client.py:29-30 | `it's` prints as `"it's"` |
| Json.NewlineIsEscaped | tap_delighted/client.py:29-30 | a newline inside a string prints as `\n` |
| Json.ReprOfOneEntryDict | tap_delighted/client.py:29-30 | a one-entry dict prints as its key's `repr`, `: ` and its value's `repr`, in braces |
| Strings.IntToStringInjective | tap_delighted/streams/abstracts.py:369 | two integers print the same exactly when they are equal, so `str()` of an int parent id determines the id |
| Strings.Max | tap_delighted/streams/abstracts.py:174 | `max` of two strings is one of them and not less than either |
| Strings.Min | tap_delighted/streams/abstracts.py:340 | `min` of two strings is one of them and not greater than either |
| Normalizer.Standardize | tap_delighted/streams/abstracts.py:204-209 | a value is converted exactly when it is an in-range JSON integer (or a bool, which is an int in Python), into a string in the datetime format |
| Normalizer.FromEpoch | tap_delighted/streams/abstracts.py:205 | the conversion succeeds exactly for in-range timestamps and gives the formatted UTC date |
| Normalizer.ModifyObject | tap_delighted/streams/abstracts.py:192-219 | the in-place walk leaves the record equal to its normalised form |
| Normalizer.ModifyItems | tap_delighted/streams/abstracts.py:215-219 | the walk over a list leaves each dict item normalised and every other item as it was |
| Normalizer.NormalizeKeepsKeys | tap_delighted/streams/abstracts.py:201-219 | normalising never adds, drops or reorders keys, at any depth |
| Normalizer.NormalizeChangesOnlyListedValues | tap_delighted/streams/abstracts.py:201-219 | every value not held under a datetime field, at any depth, is unchanged, and keys and their order are kept |
| Normalizer.NoFieldsIsIdentity | tests/unittests/test_incremental_sync.py:146-147 | with no datetime fields the record is unchanged |
| Normalizer.ListedValueIsConvertedNotDescended | tap_delighted/streams/abstracts.py:202-213 | a listed field holding an in-range int becomes its formatted date; a listed value that does not convert is kept and not descended into |
| Normalizer.ConvertIdempotent | tap_delighted/streams/abstracts.py:204-209 | converting a listed value twice equals converting it once |
| Normalizer.NormalizeIdempotent | tap_delighted/streams/abstracts.py:192-219 | normalising an already normalised record changes nothing |
| Normalizer.NormalizeConvertsEveryListedValue | tests/unittests/test_incremental_sync.py:153-173 | the listed fields' values, collected in the test's order, are the originals each converted |
| Bookmarks.Store | tap_delighted/streams/abstracts.py:175-177 | `write_bookmark` sets the one (stream, key) location and leaves every other location as it was |
| Bookmarks.MaxWriteNeverDecreases | tap_delighted/streams/abstracts.py:173-177 | the max-policy write stores the larger of the current bookmark (or start date) and the value, and changes nothing else |
| Bookmarks.OlderValueKeepsBookmark | tests/unittests/test_incremental_sync.py:140-144 | writing a value older than the stored bookmark leaves the state unchanged |
| Bookmarks.WriteIntoEmptyState | tests/unittests/test_incremental_sync.py:133-137 | writing into an empty state creates exactly the one bookmark |
| Bookmarks.ParentMinimumIsLeast | tap_delighted/streams/abstracts.py:331-345 | with non-empty bookmarks, the parent's fold returns a bookmark that is one of its inputs and not greater than any of them |
| Bookmarks.EmptyOwnBookmarkIsReplaced | tap_delighted/streams/abstracts.py:339-343 | an empty own bookmark is falsy, so the first child's bookmark replaces it although `""` is the smaller string |
| Bookmarks.State.WriteBookmark | tap_delighted/streams/abstracts.py:175-177 | the state's bookmarks become the stored map with the one location replaced |
| Replication.BookmarkKey | tap_delighted/streams/abstracts.py:163-176 | the key is a truthy given key, else the first replication key; IndexError exactly when neither exists |
| Replication.IncrementalWriteKeepsTheMaximum | tap_delighted/streams/abstracts.py:167-177 | with no key, the state is returned unchanged; a `None` value raises TypeError; otherwise the larger of the stored bookmark and the value is stored |
| Replication.ParentReadsTheMinimum | tap_delighted/streams/abstracts.py:327-345 | when every stored bookmark and the start date are non-empty, the parent reads the least of its own bookmark (when selected) and each child's bookmark under `<parent>_<key>` |
| Replication.FanOutKeepsTheMaximum | tap_delighted/streams/abstracts.py:355-359 | each child's `<parent>_<key>` bookmark becomes the larger of its old value and the value; nothing else changes |
| Replication.ParentWritesWhereItReads | tap_delighted/streams/abstracts.py:347-361 | a parent's write sets each child's `<parent>_<key>` bookmark, and its own bookmark when selected, to the larger of the old value and the value; these are the locations its read uses, and nothing else changes |
| Replication.ParentWriteFailsCleanly | tap_delighted/streams/abstracts.py:352-359 | a `None` value or a missing replication key raises before anything is written |
| Replication.ChildBookmarkIsMemoised | tap_delighted/streams/abstracts.py:371-376 | an unset cache raises AttributeError; a truthy cache is returned whatever the state; a falsy cache is refilled from the state |
| Endpoints.BaseEndpoint | tap_delighted/streams/abstracts.py:147-151 | a non-empty `url_endpoint` wins; otherwise `base_url/path` |
| Endpoints.ParentId | tap_delighted/streams/abstracts.py:369 | `parent_obj['id']` succeeds exactly for a dict with an `id` key, and gives the value under it |
| Endpoints.ChildEndpointWithoutSlot | tap_delighted/streams/abstracts.py:367-369 | a path with no braces is used as it is |
| Endpoints.ChildEndpointFillsTheSlot | tap_delighted/streams/abstracts.py:367-369 | a path with one `{}` has the parent's id, printed with `str()`, put in its place |
| Endpoints.ChildEndpointNeedsAParentId | tap_delighted/streams/abstracts.py:369 | no parent raises TypeError; a parent without `id` raises KeyError |
| Endpoints.TwoSlotsNeedTwoArguments | tap_delighted/streams/abstracts.py:369 | a path with two `{}` slots raises IndexError |
| Paging.RawItems | tap_delighted/streams/abstracts.py:111-115 | a list yields its items, a dict its keys in order and a string its characters in order; anything else is not iterable |
| Paging.ReadReply | tap_delighted/streams/abstracts.py:103-112 | a reply reads exactly when the request succeeds with a dict body; its items are those of the value under `data_key` (default `[]`) and its cursor is the value under `next_page_key` (None if absent) |
| Paging.PaginateEndsAfterAGoodPage | tap_delighted/streams/abstracts.py:102-115 | a loop that ends normally has read its first page in full |
| Paging.FirstRequest | tap_delighted/streams/abstracts.py:100-110 | the first request carries the stream's method, endpoint, headers, body and the starting params |
| Paging.CursorIsHandedBack | tap_delighted/streams/abstracts.py:112-114 | request i+1 carries page i's cursor under `next_page_key`, and page i had a truthy cursor |
| Paging.PageSizeIsKept | tap_delighted/streams/abstracts.py:100-114 | every request carries `per_page` equal to the page size |
| Paging.StopsAtFirstFalsyCursor | tap_delighted/streams/abstracts.py:102-112 | a loop that ends normally stops at the first page whose cursor is falsy: earlier pages all had truthy cursors |
| Paging.RecordsAreThePagesInOrder | tap_delighted/streams/abstracts.py:111-115 | the records yielded are the pages' items concatenated in page order |
| Incremental.MissingReplicationKeyRaisesIndexError | tap_delighted/streams/abstracts.py:260 | a dict record of a stream without replication keys raises IndexError, whatever the transformer returns |
| Incremental.RecordTimestamp | tap_delighted/streams/abstracts.py:260-261 | a null bookmark value gives `None`; a string is parsed; any other value raises TypeError |
| Incremental.CountIsTheNumberWritten | tap_delighted/streams/abstracts.py:264-266 | the counter equals the number of records written |
| Incremental.RunFollowsTheClosedForm | tap_delighted/streams/abstracts.py:249-273 | a loop that completes has timed every record; its running maximum is the maximum of the start and every record's timestamp; its events are those of the records at or above the maximum so far |
| Incremental.AdmittedAgainstTheMaximum | tap_delighted/streams/abstracts.py:263 | a record is written exactly when its timestamp is at least the maximum of the start and the earlier records |
| Incremental.MaxTsBounds | tap_delighted/streams/abstracts.py:268-270 | the running maximum is at least the start and every record's timestamp, and equals one of them |
| Incremental.RunningMaximumNeverDecreases | tap_delighted/streams/abstracts.py:268-270 | the running maximum never goes down from one prefix of the records to a longer one |
| Incremental.TieIsWrittenAgain | tap_delighted/streams/abstracts.py:263 | a record whose timestamp equals the bookmark is written again (`>=`) |
| Incremental.ChildrenSyncRegardlessOfSelection | tap_delighted/streams/abstracts.py:263-273 | an unselected stream writes nothing, yet syncs the same children for the same records and reaches the same maximum and error |
| Incremental.FullTableRecords | tap_delighted/streams/abstracts.py:285-298 | a successful dict response yields exactly that one record; any other successful response raises UnboundLocalError for `raw_records` |
| Incremental.FullTableWritesEveryRecord | tap_delighted/streams/abstracts.py:309-321 | a selected full-table stream writes every record and an unselected one writes none; either way every child is synced for every record |
| Incremental.FullTableRecordFacts | tap_delighted/streams/abstracts.py:311-319 | one record is written once when selected, and is handed to each child |
| Streams.RecordBlockStoresTheMaximum | tap_delighted/streams/abstracts.py:249-277 | a plain incremental block that completes returns the number written and stores the later of the stored bookmark and the formatted maximum; no other location changes |
| Streams.IncrementalSyncStoresTheMaximum | tap_delighted/streams/abstracts.py:221-277 | a plain incremental sync that completes starts from the stored bookmark's timestamp, returns the number written, and stores the later of that bookmark and the formatted maximum; nothing else changes |
| Streams.SetupReadsTheStoredBookmark | tap_delighted/streams/abstracts.py:228-230 | a set-up that succeeds starts from the timestamp of the stored bookmark, or of the start date |
| Streams.SyncNeedsAFilterParam | tap_delighted/streams/abstracts.py:180 | a stream without `filter_param` fails before writing a record or a bookmark, with `params` unchanged |
| Streams.ChildSyncReadsAnUnsetCache | tap_delighted/streams/abstracts.py:373 | a child's first sync raises AttributeError and changes nothing |
| Streams.Stream.constructor | tap_delighted/streams/abstracts.py:39-46 | a new stream has empty params, payload and endpoint, and an unset bookmark cache |
| Streams.Stream.RequestPage | tap_delighted/streams/abstracts.py:103-112 | one request with the given params is sent, and the reply is read as `ReadReply` reads it |
| Streams.Stream.PageLoop | tap_delighted/streams/abstracts.py:101-115 | the loop yields the records, sends the requests and ends with the params and error that the pagination function gives for the replies |
| Streams.Stream.GetRecords | tap_delighted/streams/abstracts.py:98-115 | `per_page` is set, then the records, requests, final `params` and error are those of the pagination function |
| Streams.Stream.UpdateParams | tap_delighted/streams/abstracts.py:179-183 | `params` gains the filter parameter and `per_page`; a stream without `filter_param` raises and keeps `params` |
| Streams.Stream.ParentGetBookmark | tap_delighted/streams/abstracts.py:327-345 | returns the parent's minimum over its own and its children's bookmarks |
| Streams.Stream.ChildGetBookmark | tap_delighted/streams/abstracts.py:371-376 | returns and updates the cache as the memoised read does |
| Streams.Stream.GetBookmark | tap_delighted/streams/abstracts.py:157-165 | returns the read of the stream's class: the plain lookup, the parent's minimum (327-345) or the child's cache (371-376) |
| Streams.Stream.IncrementalWriteBookmark | tap_delighted/streams/abstracts.py:167-177 | the state becomes the max-policy write's result, or is unchanged when the write raises |
| Streams.Stream.WriteBookmark | tap_delighted/streams/abstracts.py:347-361 | the state becomes the class's write: the plain max-policy write, or the parent's own write followed by the fan-out to its children |
| Streams.Stream.WriteChildBookmarks | tap_delighted/streams/abstracts.py:355-359 | no children: nothing changes; no replication key: IndexError; a `None` value: TypeError; otherwise the fan-out |
| Streams.Stream.SyncChildren | tap_delighted/streams/abstracts.py:272-273 | every child is synced once with the record, in order |
| Streams.Stream.StageRecord | tap_delighted/streams/abstracts.py:251-261 | normalise, apply the autopilot hook, transform, and read the record's bookmark timestamp, as `Stage` does; a stream without replication keys raises IndexError before a non-dict transform result is looked at |
| Streams.Stream.SyncRecords | tap_delighted/streams/abstracts.py:249-273 | the loop's writes, child syncs, count and maximum are those of the record-loop function |
| Streams.Stream.PrepareSync | tap_delighted/streams/abstracts.py:228-247 | the bookmark read, params, payload and endpoint updates are those of the set-up function |
| Streams.Stream.RecordBlockRun | tap_delighted/streams/abstracts.py:249-277 | the events, count and bookmark write are those of the record-block function |
| Streams.Stream.Sync | tap_delighted/streams/abstracts.py:221-277 | the result, events, bookmarks, cache, params, payload and endpoint are those of the incremental sync function |
| Streams.Stream.FullTableGetRecords | tap_delighted/streams/abstracts.py:285-298 | one request is sent, and the records are the single dict response |
| Streams.Stream.FullTableRecordLoop | tap_delighted/streams/abstracts.py:309-321 | the counter is the number of records when selected (0 otherwise), and every record is written or handed to the children as the full-table loop does |
| Streams.Stream.FullTableSync | tap_delighted/streams/abstracts.py:300-321 | the endpoint and payload are updated, one request is sent, and the count is that of the full-table loop |

## Left out

- The network, the `requests` session, the API-key authentication and the request timeout (client.py:53-57, 64, 69-70): the server's reply is a parameter of each request.
- The backoff schedule (exponential, 5 tries, client.py:111-122): only which errors are retryable is modelled, not the retries themselves.
- Logging and the Singer metrics timers and counters: they have no effect on the data. The record counter is a local variable.
- `write_record`, `write_schema` and the Singer `Transformer`: `write_record` and a child's `sync` are recorded as events in a log. The transformer and `normalize_autopilot_record` are given functions (`Hooks`).
- `DelightedPaginator`, `get_datetime_fields_from_schema` and `normalize_autopilot_record` are not part of this model: abstracts.py:8-12 imports them from tap_delighted/utils.py, which does not define them. `IncrementalStream.get_records`, which pages through `DelightedPaginator` (abstracts.py:185-190), is modelled as the sequence of records it yields. The schema's datetime fields are a parameter.
- A child's `sync`, called from a parent's loop, is logged as an event and not executed recursively.
- Discovery, `sync.py`, the catalog and metadata handling, and the per-stream classes: selection and the class attributes are fields of `StreamConfig`.
- Json.StrRepr: characters outside ASCII are written as they are. Python escapes the non-printable ones (such as U+00A0 or U+2028) as `\x`, `\u` or `\U`, which depends on the Unicode database.
- Json.Json: JSON numbers with a fraction or an exponent, which `response.json()` returns as Python floats, are not represented; every number is an `int`. The model therefore says nothing of a float's truthiness (`0.0` is falsy), of a float cursor, or of a float under `data_key` (not iterable, so TypeError).
- Normalizer.Standardize: a float epoch under a datetime field would be converted by the corrected formatter too (to its whole-second date); with no float variant, the model's "converted exactly when an in-range int" covers only JSON integers.
- `json.dumps` of the request body: the body is modelled as the payload's JSON value.
- The local time zone of `datetime.fromtimestamp` and `.timestamp()`: fixed to UTC.
- The leniency of `strptime`: unpadded fields and non-ASCII digits are not accepted by the model. Case-insensitive `T` and `Z` are modelled.
- `str.upper` covers ASCII letters and the few non-ASCII characters whose upper case is ASCII (`ſ`, `ı`, and the like); other Unicode case mappings are left out.
- `headers` is a class-level attribute in the source, shared by all instances. It is a per-instance field here.
- Streams.Stream.constructor: `child_to_sync` starts as `[]` (abstracts.py:44) and the caller fills it after construction; here it is the constructor's `childToSync` argument and does not change afterwards. The class-level `children` (abstracts.py:33) is never read by these classes and is not modelled.
- Streams.Stream.PageLoop: `self.params` is kept in a local while the loop runs and stored when it ends. Its value at the end, including when the loop raises, is the one the source leaves.
- Endpoints.FormatFrom: only the `{}` field and the `{{` and `}}` escapes of `str.format` are modelled; every other replacement field is a format error. In Python, `{0}` would take the parent id, a named field such as `{id}` would raise KeyError, and format specs and conversions would apply. No stream's path has any replacement field.
- Normalizer.Standardize: uses the corrected formatter. As written (utils.py:20-21), every conversion raises TypeError, so the `except` keeps every value unconverted.
- Normalizer.FromEpoch: uses the corrected formatter. As written, it raises TypeError for every timestamp (`Utils.AsWrittenFormatterAlwaysRaises`).
- Normalizer.ModifyObject: uses the corrected formatter. As written, no conversion succeeds, so `modify_object` leaves every record unchanged.
- Streams.RecordBlockStoresTheMaximum: uses the corrected formatter. As written, a block whose running maximum is not None emits its records, then raises TypeError at abstracts.py:275 and writes no bookmark.
- Streams.IncrementalSyncStoresTheMaximum: uses the corrected formatter. As written, a sync whose running maximum is not None raises TypeError after emitting its records and writes no bookmark.
- Streams.Stream.RecordBlockRun: uses the corrected formatter, with the as-written outcome of `Streams.RecordBlockStoresTheMaximum` above.
- Streams.Stream.Sync: uses the corrected formatter, with the as-written outcome of `Streams.IncrementalSyncStoresTheMaximum` above.
- Streams.SyncSetup: uses the corrected parser. As written (utils.py:38), a stored bookmark or start date in the `.ffffffZ` microsecond form raises ValueError, and the sync ends before its first request.
- Streams.SetupReadsTheStoredBookmark: uses the corrected parser. As written (utils.py:38), a stored bookmark or start date in the `.ffffffZ` microsecond form raises ValueError.
- Incremental.RecordTimestamp: uses the corrected parser. As written, a record's bookmark value in the microsecond form raises ValueError.
- Client.CredentialParams: uses the corrected parser. As written, a start date in the microsecond form raises ValueError.
- Python's generators: the paging loop is modelled as finishing before its records are consumed. A reply that runs out ends the loop with `RepliesExhausted`.

## Findings

| source | as written | input that shows it | evidently intended | confidence | as-written member | corrected member |
|---|---|---|---|---|---|---|
| tap_delighted/utils.py:20-21 | `datetime.strftime` is called on the string returned by `isoformat()`, which raises TypeError for every timestamp | timestamp 1625077800 (test_utils.py:183 expects `2021-06-30T18:30:00Z`) | format the datetime object itself with `%Y-%m-%dT%H:%M:%SZ` | not executed | Utils.AsWrittenFormatterAlwaysRaises | Utils.CodecRoundTrip |
| tap_delighted/utils.py:38 | only `%Y-%m-%dT%H:%M:%SZ` is accepted | `2021-12-01T10:15:30.000000Z`, which test_utils.py:194 expects to read as 1638353730 | also accept the microsecond form `%Y-%m-%dT%H:%M:%S.%fZ` | not executed | Utils.MicrosecondTestVector | Utils.MicrosecondFormParses |
