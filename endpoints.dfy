/**
 * The URL a stream requests: `url_endpoint or base_url/path` for most streams, and
 * `base_url/` plus the path with the parent's `id` put in place of `{}` for child
 * streams.
 */
module Endpoints {
  import opened Wrappers
  import opened Json
  import opened StreamTypes

  /** `BaseStream.get_url_endpoint`. */
  function BaseEndpoint(urlEndpoint: string, baseUrl: string, path: string): (r: string)
    ensures |urlEndpoint| > 0 ==> r == urlEndpoint
    ensures |urlEndpoint| == 0 ==> r == baseUrl + "/" + path
  {
    if |urlEndpoint| > 0 then urlEndpoint else baseUrl + "/" + path
  }

  predicate NoBraces(s: string) {
    forall i :: 0 <= i < |s| ==> s[i] != '{' && s[i] != '}'
  }

  /**
   * `s[i..].format(arg)` for auto-numbered fields: `{}` takes the one argument (a
   * second `{}` finds no argument), `{{` and `}}` are literal braces, and any other
   * replacement field is reported as a format error.
   */
  function FormatFrom(s: string, arg: string, i: nat, used: bool): Result<string, StreamError>
    requires i <= |s|
    decreases |s| - i
  {
    if i == |s| then Ok("")
    else if i + 1 < |s| && s[i] == '{' && s[i + 1] == '{' then Prefix("{", FormatFrom(s, arg, i + 2, used))
    else if i + 1 < |s| && s[i] == '}' && s[i + 1] == '}' then Prefix("}", FormatFrom(s, arg, i + 2, used))
    else if i + 1 < |s| && s[i] == '{' && s[i + 1] == '}' then
      if used then Err(IndexError) else Prefix(arg, FormatFrom(s, arg, i + 2, true))
    else if s[i] == '{' || s[i] == '}' then Err(FormatError)
    else Prefix([s[i]], FormatFrom(s, arg, i + 1, used))
  }

  function Prefix(p: string, r: Result<string, StreamError>): Result<string, StreamError> {
    match r
    case Ok(s) => Ok(p + s)
    case Err(e) => Err(e)
  }

  /** `path.format(arg)`. */
  function FormatPath(path: string, arg: string): Result<string, StreamError> {
    FormatFrom(path, arg, 0, false)
  }

  /** `parent_obj['id']`: `None`, a list or a scalar is not subscriptable by a string key. */
  function ParentId(parentObj: Option<Json>): (r: Result<Json, StreamError>)
    ensures r.Ok? <==> parentObj.Some? && parentObj.value.Obj? && "id" in Keys(parentObj.value.fields)
    ensures r.Ok? ==> Get(parentObj.value.fields, "id") == Some(r.value)
  {
    match parentObj
    case None => Err(TypeError)
    case Some(Obj(fields)) =>
      (match Get(fields, "id")
       case Some(id) => Ok(id)
       case None => Err(KeyError("id")))
    case Some(_) => Err(TypeError)
  }

  /** `ChildBaseStream.get_url_endpoint`. */
  function ChildEndpoint(baseUrl: string, path: string, parentObj: Option<Json>): Result<string, StreamError> {
    match ParentId(parentObj)
    case Err(e) => Err(e)
    case Ok(id) =>
      match FormatPath(path, PyStr(id))
      case Err(e) => Err(e)
      case Ok(p) => Ok(baseUrl + "/" + p)
  }

  /** Brace-free text is copied unchanged, whatever the argument. */
  lemma {:induction false} FormatBraceFree(s: string, arg: string, i: nat, used: bool)
    requires i <= |s| && NoBraces(s[i..])
    ensures FormatFrom(s, arg, i, used) == Ok(s[i..])
    decreases |s| - i
  {
    if i < |s| {
      assert s[i] == s[i..][0];
      assert s[i + 1..] == s[i..][1..];
      FormatBraceFree(s, arg, i + 1, used);
      assert s[i..] == [s[i]] + s[i + 1..];
    }
  }

  /** Text before the slot is copied, then the slot takes the argument, then the rest is copied. */
  lemma {:induction false} FormatSlot(a: string, b: string, arg: string, i: nat)
    requires i <= |a| && NoBraces(a) && NoBraces(b)
    ensures FormatFrom(a + "{}" + b, arg, i, false) == Ok(a[i..] + arg + b)
    decreases |a| - i
  {
    var s := a + "{}" + b;
    if i == |a| {
      assert s[i] == '{' && s[i + 1] == '}';
      assert s[i + 2..] == b;
      FormatBraceFree(s, arg, i + 2, true);
      assert FormatFrom(s, arg, i, false) == Prefix(arg, FormatFrom(s, arg, i + 2, true));
      assert a[i..] + arg + b == arg + b;
    } else {
      assert s[i] == a[i];
      FormatSlot(a, b, arg, i + 1);
      assert FormatFrom(s, arg, i, false) == Prefix([a[i]], FormatFrom(s, arg, i + 1, false));
      assert a[i..] + arg + b == [a[i]] + (a[i + 1..] + arg + b);
    }
  }

  /** A path without braces is used as it is. */
  lemma {:induction false} ChildEndpointWithoutSlot(baseUrl: string, path: string, fields: seq<(string, Json)>)
    requires NoBraces(path) && "id" in Keys(fields)
    ensures ChildEndpoint(baseUrl, path, Some(Obj(fields))) == Ok(baseUrl + "/" + path)
  {
    assert path[0..] == path;
    FormatBraceFree(path, PyStr(Get(fields, "id").value), 0, false);
  }

  /** A path with one `{}` slot and no other brace: the parent's id is put in its place. */
  lemma {:induction false} ChildEndpointFillsTheSlot(baseUrl: string, before: string, after: string,
                                                     fields: seq<(string, Json)>)
    requires NoBraces(before) && NoBraces(after) && "id" in Keys(fields)
    ensures ChildEndpoint(baseUrl, before + "{}" + after, Some(Obj(fields))) ==
      Ok(baseUrl + "/" + before + PyStr(Get(fields, "id").value) + after)
  {
    var id := Get(fields, "id").value;
    assert ParentId(Some(Obj(fields))) == Ok(id);
    FormatSlot(before, after, PyStr(id), 0);
    assert before[0..] == before;
    assert FormatPath(before + "{}" + after, PyStr(id)) == Ok(before + PyStr(id) + after);
    assert baseUrl + "/" + (before + PyStr(id) + after) == baseUrl + "/" + before + PyStr(id) + after;
  }

  /** A child stream fails before any request when the parent record has no usable `id`. */
  lemma ChildEndpointNeedsAParentId(baseUrl: string, path: string, parentObj: Option<Json>)
    ensures parentObj.None? ==> ChildEndpoint(baseUrl, path, parentObj) == Err(TypeError)
    ensures parentObj.Some? && !parentObj.value.Obj? ==> ChildEndpoint(baseUrl, path, parentObj) == Err(TypeError)
    ensures parentObj.Some? && parentObj.value.Obj? && "id" !in Keys(parentObj.value.fields) ==>
      ChildEndpoint(baseUrl, path, parentObj) == Err(KeyError("id"))
  {
  }

  /** Two slots need two arguments: `"{}/{}".format(x)` raises IndexError. */
  lemma TwoSlotsNeedTwoArguments(arg: string)
    ensures FormatPath("{}/{}", arg) == Err(IndexError)
  {
  }
}
