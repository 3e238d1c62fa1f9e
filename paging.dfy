/**
 * The body-cursor pagination of `BaseStream.get_records`: request a page, yield the
 * list under `data_key`, hand the value under `next_page_key` back as a query
 * parameter, and stop at the first page whose cursor is falsy.
 */
module Paging {
  import opened Wrappers
  import opened Json
  import Client
  import opened StreamTypes

  /** The parts of a stream that stay fixed while it pages. */
  datatype Query = Query(
    verb: string,
    url: string,
    headers: map<string, Json>,
    body: Json,
    path: string,
    dataKey: string,
    nextKey: string)

  /** `yield from raw_records`: a list yields its items, a dict its keys, a string its characters. */
  function RawItems(raw: Json): (r: Result<seq<Json>, StreamError>)
    ensures raw.Arr? ==> r == Ok(raw.items)
    ensures r.Err? <==> !(raw.Arr? || raw.Obj? || raw.Str?)
    ensures r.Ok? && raw.Obj? ==> |r.value| == |raw.fields| && forall i :: 0 <= i < |raw.fields| ==> r.value[i] == Str(raw.fields[i].0)
    ensures r.Ok? && raw.Str? ==> |r.value| == |raw.s| && forall i :: 0 <= i < |raw.s| ==> r.value[i] == Str([raw.s[i]])
  {
    match raw
    case Arr(items) => Ok(items)
    case Obj(fields) => Ok(seq(|fields|, i requires 0 <= i < |fields| => Str(fields[i].0)))
    case Str(s) => Ok(seq(|s|, i requires 0 <= i < |s| => Str([s[i]])))
    case _ => Err(TypeError)
  }

  /** What one reply gives the loop: the cursor, and the records (or the error of iterating them). */
  datatype Reply = Reply(next: Json, items: Result<seq<Json>, StreamError>)

  /**
   * `make_request(...)`, then `response.get(data_key, [])` and
   * `response.get(next_page_key)`; a reply that is not a dict has no `get`.
   */
  function ReadReply(q: Query, reply: Client.HttpResponse): (r: Result<Reply, StreamError>)
    ensures r.Ok? <==> Client.SendOutcome(q.verb, reply).Ok? && Client.SendOutcome(q.verb, reply).value.Obj?
    ensures r.Ok? ==> r.value.next == GetOr(Client.SendOutcome(q.verb, reply).value.fields, q.nextKey, Null)
    ensures r.Ok? ==> r.value.items == RawItems(GetOr(Client.SendOutcome(q.verb, reply).value.fields, q.dataKey, Arr([])))
  {
    match Client.SendOutcome(q.verb, reply)
    case Err(e) => Err(RequestFailed(e))
    case Ok(response) =>
      if !response.Obj? then Err(AttributeError("get"))
      else Ok(Reply(GetOr(response.fields, q.nextKey, Null), RawItems(GetOr(response.fields, q.dataKey, Arr([])))))
  }

  /** The request the client hands to the session for one page, if the method is accepted. */
  function Sent(q: Query, params: map<string, Json>): seq<Client.Request> {
    if Client.Accepted(q.verb) then [Client.Prepared(q.verb, q.url, Some(params), Some(q.headers), Some(q.body), Some(q.path))]
    else []
  }

  /** The records yielded, the requests sent, the final `params`, and the exception that ended the loop, if any. */
  datatype PageRun = PageRun(
    records: seq<Json>,
    requests: seq<Client.Request>,
    params: map<string, Json>,
    failure: Option<StreamError>)

  function Then(records: seq<Json>, requests: seq<Client.Request>, run: PageRun): PageRun {
    PageRun(records + run.records, requests + run.requests, run.params, run.failure)
  }

  /** How each of the server's successive replies reads, if the loop gets to it. */
  function Readings(q: Query, replies: seq<Client.HttpResponse>): (r: seq<Result<Reply, StreamError>>)
    ensures |r| == |replies|
    ensures forall i :: 0 <= i < |replies| ==> r[i] == ReadReply(q, replies[i])
  {
    seq(|replies|, i requires 0 <= i < |replies| => ReadReply(q, replies[i]))
  }

  /** The pagination loop, over the successive replies as they read. */
  function Paginate(q: Query, params: map<string, Json>, pages: seq<Result<Reply, StreamError>>): PageRun
    decreases |pages|
  {
    if |pages| == 0 then PageRun([], [], params, Some(RepliesExhausted))
    else
      var sent := Sent(q, params);
      match pages[0]
      case Err(e) => PageRun([], sent, params, Some(e))
      case Ok(Reply(next, items)) =>
        var after := params[q.nextKey := next];
        match items
        case Err(e) => PageRun([], sent, after, Some(e))
        case Ok(xs) =>
          if Truthy(next) then Then(xs, sent, Paginate(q, after, pages[1..]))
          else PageRun(xs, sent, after, None)
  }

  /** A reply the loop pages to the end. */
  predicate GoodPage(read: Result<Reply, StreamError>) {
    read.Ok? && read.value.items.Ok?
  }

  /** The records of the given pages, one after another. */
  function AllItems(pages: seq<Result<Reply, StreamError>>): seq<Json>
    requires forall i :: 0 <= i < |pages| ==> GoodPage(pages[i])
  {
    if |pages| == 0 then []
    else
      assert GoodPage(pages[0]);
      pages[0].value.items.value + AllItems(pages[1..])
  }

  /** A fully read page with a truthy cursor: its records come first, then the rest of the loop. */
  lemma PaginateContinues(q: Query, params: map<string, Json>, pages: seq<Result<Reply, StreamError>>)
    requires |pages| > 0 && GoodPage(pages[0]) && Truthy(pages[0].value.next)
    ensures Paginate(q, params, pages) ==
      Then(pages[0].value.items.value, Sent(q, params), Paginate(q, params[q.nextKey := pages[0].value.next], pages[1..]))
  {
  }

  /** A fully read page with a falsy cursor ends the loop. */
  lemma PaginateStops(q: Query, params: map<string, Json>, pages: seq<Result<Reply, StreamError>>)
    requires |pages| > 0 && GoodPage(pages[0]) && !Truthy(pages[0].value.next)
    ensures Paginate(q, params, pages) ==
      PageRun(pages[0].value.items.value, Sent(q, params), params[q.nextKey := pages[0].value.next], None)
  {
  }

  /** A reply that does not read ends the loop with its error, after its one request. */
  lemma PaginateFailsOnARead(q: Query, params: map<string, Json>, pages: seq<Result<Reply, StreamError>>)
    requires |pages| > 0 && pages[0].Err?
    ensures Paginate(q, params, pages) == PageRun([], Sent(q, params), params, Some(pages[0].error))
  {
  }

  /** A page whose records are not iterable ends the loop after the cursor was handed back. */
  lemma PaginateFailsOnItems(q: Query, params: map<string, Json>, pages: seq<Result<Reply, StreamError>>)
    requires |pages| > 0 && pages[0].Ok? && pages[0].value.items.Err?
    ensures Paginate(q, params, pages) ==
      PageRun([], Sent(q, params), params[q.nextKey := pages[0].value.next], Some(pages[0].value.items.error))
  {
  }

  /** Records and requests gathered in two steps are gathered in one. */
  lemma ThenThen(a: seq<Json>, r: seq<Client.Request>, b: seq<Json>, s: seq<Client.Request>, run: PageRun)
    ensures Then(a, r, Then(b, s, run)) == Then(a + b, r + s, run)
  {
    assert a + (b + run.records) == a + b + run.records;
    assert r + (s + run.requests) == r + s + run.requests;
  }

  /**
   * Part way through the loop at page `i`: the records and requests gathered so
   * far, followed by the rest of the loop from the current parameters, are the
   * whole loop.
   */
  predicate Midway(q: Query, p0: map<string, Json>, pages: seq<Result<Reply, StreamError>>, i: nat,
                   records: seq<Json>, requests: seq<Client.Request>, params: map<string, Json>) {
    i <= |pages| && Paginate(q, p0, pages) == Then(records, requests, Paginate(q, params, pages[i..]))
  }

  lemma MidwayStart(q: Query, p0: map<string, Json>, pages: seq<Result<Reply, StreamError>>)
    ensures Midway(q, p0, pages, 0, [], [], p0)
  {
    assert pages[0..] == pages;
    var run := Paginate(q, p0, pages);
    assert [] + run.records == run.records && [] + run.requests == run.requests;
  }

  /** The loop asks for a reply the server did not give. */
  lemma {:induction false} MidwayExhausted(q: Query, p0: map<string, Json>, pages: seq<Result<Reply, StreamError>>,
                                           records: seq<Json>, requests: seq<Client.Request>, params: map<string, Json>)
    requires Midway(q, p0, pages, |pages|, records, requests, params)
    ensures Paginate(q, p0, pages) == PageRun(records, requests, params, Some(RepliesExhausted))
  {
    assert pages[|pages|..] == [];
    assert records + [] == records && requests + [] == requests;
  }

  /** Page `i` does not read: the loop ends there with its error. */
  lemma {:induction false} MidwayFailsOnARead(q: Query, p0: map<string, Json>, pages: seq<Result<Reply, StreamError>>, i: nat,
                                              records: seq<Json>, requests: seq<Client.Request>, params: map<string, Json>)
    requires Midway(q, p0, pages, i, records, requests, params) && i < |pages| && pages[i].Err?
    ensures Paginate(q, p0, pages) == PageRun(records, requests + Sent(q, params), params, Some(pages[i].error))
  {
    assert pages[i..][0] == pages[i];
    PaginateFailsOnARead(q, params, pages[i..]);
    assert records + [] == records;
  }

  /** Page `i` has records that are not iterable: the loop ends there, its cursor already handed back. */
  lemma {:induction false} MidwayFailsOnItems(q: Query, p0: map<string, Json>, pages: seq<Result<Reply, StreamError>>, i: nat,
                                              records: seq<Json>, requests: seq<Client.Request>, params: map<string, Json>)
    requires Midway(q, p0, pages, i, records, requests, params) && i < |pages|
    requires pages[i].Ok? && pages[i].value.items.Err?
    ensures Paginate(q, p0, pages) ==
      PageRun(records, requests + Sent(q, params), params[q.nextKey := pages[i].value.next], Some(pages[i].value.items.error))
  {
    assert pages[i..][0] == pages[i];
    PaginateFailsOnItems(q, params, pages[i..]);
    assert records + [] == records;
  }

  /** Page `i` reads in full with a truthy cursor: the loop goes on to page `i + 1`. */
  lemma {:induction false} MidwayContinues(q: Query, p0: map<string, Json>, pages: seq<Result<Reply, StreamError>>, i: nat,
                                           records: seq<Json>, requests: seq<Client.Request>, params: map<string, Json>)
    requires Midway(q, p0, pages, i, records, requests, params) && i < |pages|
    requires GoodPage(pages[i]) && Truthy(pages[i].value.next)
    ensures Midway(q, p0, pages, i + 1, records + pages[i].value.items.value, requests + Sent(q, params),
                   params[q.nextKey := pages[i].value.next])
  {
    assert pages[i..][0] == pages[i];
    assert pages[i..][1..] == pages[i + 1..];
    PaginateContinues(q, params, pages[i..]);
    ThenThen(records, requests, pages[i].value.items.value, Sent(q, params),
             Paginate(q, params[q.nextKey := pages[i].value.next], pages[i + 1..]));
  }

  /** Page `i` reads in full with a falsy cursor: the loop ends normally. */
  lemma {:induction false} MidwayStops(q: Query, p0: map<string, Json>, pages: seq<Result<Reply, StreamError>>, i: nat,
                                       records: seq<Json>, requests: seq<Client.Request>, params: map<string, Json>)
    requires Midway(q, p0, pages, i, records, requests, params) && i < |pages|
    requires GoodPage(pages[i]) && !Truthy(pages[i].value.next)
    ensures Paginate(q, p0, pages) ==
      PageRun(records + pages[i].value.items.value, requests + Sent(q, params), params[q.nextKey := pages[i].value.next], None)
  {
    assert pages[i..][0] == pages[i];
    PaginateStops(q, params, pages[i..]);
  }

  /** A loop that ends normally has read its first page. */
  lemma PaginateEndsAfterAGoodPage(q: Query, params: map<string, Json>, pages: seq<Result<Reply, StreamError>>)
    requires Paginate(q, params, pages).failure.None?
    ensures |pages| > 0 && GoodPage(pages[0])
  {
  }

  /** A loop that sends a second request has read its first page, and found a truthy cursor. */
  lemma PaginateGoesOn(q: Query, params: map<string, Json>, pages: seq<Result<Reply, StreamError>>)
    requires |Paginate(q, params, pages).requests| > |Sent(q, params)|
    ensures |pages| > 0 && GoodPage(pages[0]) && Truthy(pages[0].value.next)
  {
  }

  /** Each request carries the parameters the loop holds when it is sent. */
  lemma {:induction false} FirstRequest(q: Query, params: map<string, Json>, pages: seq<Result<Reply, StreamError>>)
    requires Client.Accepted(q.verb) && |pages| > 0
    ensures |Paginate(q, params, pages).requests| > 0
    ensures Paginate(q, params, pages).requests[0] ==
      Client.Prepared(q.verb, q.url, Some(params), Some(q.headers), Some(q.body), Some(q.path))
  {
  }

  /**
   * Every request but the last follows a fully read page with a truthy cursor, and
   * the next request carries that cursor under `next_page_key`.
   */
  lemma {:induction false} CursorIsHandedBack(q: Query, params: map<string, Json>, pages: seq<Result<Reply, StreamError>>, i: nat)
    requires Client.Accepted(q.verb)
    requires i + 1 < |Paginate(q, params, pages).requests|
    ensures i + 1 < |pages| && GoodPage(pages[i]) && Truthy(pages[i].value.next)
    ensures q.nextKey in Paginate(q, params, pages).requests[i + 1].params
    ensures Paginate(q, params, pages).requests[i + 1].params[q.nextKey] == pages[i].value.next
    decreases i
  {
    assert |Sent(q, params)| == 1;
    PaginateGoesOn(q, params, pages);
    var after := params[q.nextKey := pages[0].value.next];
    var rest := Paginate(q, after, pages[1..]);
    PaginateContinues(q, params, pages);
    assert |rest.requests| > 0;
    if i == 0 {
      FirstRequest(q, after, pages[1..]);
      assert Client.DictOrEmpty(Some(after)) == after;
    } else {
      CursorIsHandedBack(q, after, pages[1..], i - 1);
      assert pages[1..][i - 1] == pages[i];
    }
  }

  /** With a cursor key other than `per_page`, every request asks for the page size set before the loop. */
  lemma {:induction false} PageSizeIsKept(q: Query, params: map<string, Json>, pages: seq<Result<Reply, StreamError>>, pageSize: int)
    requires Client.Accepted(q.verb) && q.nextKey != "per_page"
    requires "per_page" in params && params["per_page"] == Int(pageSize)
    ensures forall i :: 0 <= i < |Paginate(q, params, pages).requests| ==>
      "per_page" in Paginate(q, params, pages).requests[i].params &&
      Paginate(q, params, pages).requests[i].params["per_page"] == Int(pageSize)
    decreases |pages|
  {
    var run := Paginate(q, params, pages);
    assert |Sent(q, params)| == 1;
    assert Client.DictOrEmpty(Some(params)) == params;
    if |run.requests| > 1 {
      PaginateGoesOn(q, params, pages);
      var after := params[q.nextKey := pages[0].value.next];
      var rest := Paginate(q, after, pages[1..]);
      PaginateContinues(q, params, pages);
      PageSizeIsKept(q, after, pages[1..], pageSize);
      forall i | 0 <= i < |run.requests|
        ensures "per_page" in run.requests[i].params && run.requests[i].params["per_page"] == Int(pageSize)
      {
        if i > 0 {
          assert run.requests[i] == rest.requests[i - 1];
        }
      }
    } else if |run.requests| == 1 {
      assert run.requests == Sent(q, params);
    }
  }

  /**
   * A loop that ends normally has read the pages it requested, one request per
   * reply: each had a truthy cursor but the last, whose cursor is falsy.
   */
  lemma {:induction false} StopsAtFirstFalsyCursor(q: Query, params: map<string, Json>, pages: seq<Result<Reply, StreamError>>)
    requires Client.Accepted(q.verb)
    requires Paginate(q, params, pages).failure.None?
    ensures var k := |Paginate(q, params, pages).requests|;
      1 <= k <= |pages| &&
      (forall i :: 0 <= i < k ==> GoodPage(pages[i])) &&
      (forall i :: 0 <= i < k - 1 ==> Truthy(pages[i].value.next)) &&
      !Truthy(pages[k - 1].value.next)
    decreases |pages|
  {
    assert |Sent(q, params)| == 1;
    PaginateEndsAfterAGoodPage(q, params, pages);
    var next := pages[0].value.next;
    var run := Paginate(q, params, pages);
    if Truthy(next) {
      var after := params[q.nextKey := next];
      var rest := Paginate(q, after, pages[1..]);
      PaginateContinues(q, params, pages);
      StopsAtFirstFalsyCursor(q, after, pages[1..]);
      var k := |run.requests|;
      assert k == 1 + |rest.requests|;
      forall i | 0 <= i < k ensures GoodPage(pages[i]) {
        if i > 0 {
          assert pages[i] == pages[1..][i - 1];
        }
      }
      forall i | 0 <= i < k - 1 ensures Truthy(pages[i].value.next) {
        if i > 0 {
          assert pages[i] == pages[1..][i - 1];
        }
      }
      assert pages[k - 1] == pages[1..][k - 2];
    } else {
      PaginateStops(q, params, pages);
    }
  }

  /** A loop that ends normally yields the records of the pages it read, in order. */
  lemma {:induction false} RecordsAreThePagesInOrder(q: Query, params: map<string, Json>, pages: seq<Result<Reply, StreamError>>)
    requires Client.Accepted(q.verb)
    requires Paginate(q, params, pages).failure.None?
    ensures var k := |Paginate(q, params, pages).requests|;
      k <= |pages| &&
      (forall i :: 0 <= i < k ==> GoodPage(pages[i])) &&
      Paginate(q, params, pages).records == AllItems(pages[..k])
    decreases |pages|
  {
    StopsAtFirstFalsyCursor(q, params, pages);
    assert |Sent(q, params)| == 1;
    var next := pages[0].value.next;
    var run := Paginate(q, params, pages);
    var k := |run.requests|;
    assert pages[..k][0] == pages[0];
    if Truthy(next) {
      var after := params[q.nextKey := next];
      PaginateContinues(q, params, pages);
      RecordsAreThePagesInOrder(q, after, pages[1..]);
      assert pages[..k][1..] == pages[1..][..k - 1];
    } else {
      PaginateStops(q, params, pages);
      assert pages[..k][1..] == [];
    }
  }
}
