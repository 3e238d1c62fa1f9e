/**
 * How the incremental stream classes read and write their bookmarks: the plain
 * incremental stream under its first replication key, the parent stream over its
 * own bookmark and its children's, and the child stream through its cached value.
 */
module Replication {
  import opened Wrappers
  import opened StreamTypes
  import Strings
  import opened Bookmarks

  /** `key or self.replication_keys[0]`. */
  function BookmarkKey(key: Option<string>, replicationKeys: seq<string>): (r: Result<string, StreamError>)
    ensures Truthy(key) ==> r == Ok(key.value)
    ensures !Truthy(key) && |replicationKeys| > 0 ==> r == Ok(replicationKeys[0])
    ensures r.Err? <==> !Truthy(key) && |replicationKeys| == 0
  {
    if Truthy(key) then Ok(key.value)
    else if |replicationKeys| > 0 then Ok(replicationKeys[0])
    else Err(IndexError)
  }

  /** `IncrementalStream.get_bookmark`: the stored value, or the configured start date. */
  function IncrementalBookmark(b: BookmarkMap, stream: string, key: Option<string>, replicationKeys: seq<string>,
                               startDate: string): Result<string, StreamError>
  {
    match BookmarkKey(key, replicationKeys)
    case Err(e) => Err(e)
    case Ok(k) => Ok(Lookup(b, stream, k, startDate))
  }

  /**
   * `IncrementalStream.write_bookmark`: nothing without a key, otherwise the stored
   * value (or the start date) and the new one, whichever is later, is stored;
   * `max` of a string and `None` raises TypeError.
   */
  function IncrementalWrite(b: BookmarkMap, stream: string, key: Option<string>, replicationKeys: seq<string>,
                            startDate: string, value: Option<string>): Result<BookmarkMap, StreamError>
  {
    match BookmarkKey(key, replicationKeys)
    case Err(_) => Ok(b)
    case Ok(k) => if value.None? then Err(TypeError) else Ok(MaxWrite(b, stream, k, startDate, value.value))
  }

  /**
   * The incremental write keeps the max policy: with a key, the bookmark becomes the
   * later of the stored value (or start date) and the new value, and nothing else
   * changes; without a key and replication keys the state is returned untouched.
   */
  lemma {:induction false} IncrementalWriteKeepsTheMaximum(b: BookmarkMap, stream: string, key: Option<string>,
                                                           replicationKeys: seq<string>, startDate: string, value: Option<string>)
    ensures !Truthy(key) && |replicationKeys| == 0 ==> IncrementalWrite(b, stream, key, replicationKeys, startDate, value) == Ok(b)
    ensures (Truthy(key) || |replicationKeys| > 0) && value.None? ==>
      IncrementalWrite(b, stream, key, replicationKeys, startDate, value) == Err(TypeError)
    ensures (Truthy(key) || |replicationKeys| > 0) && value.Some? ==>
      var k := BookmarkKey(key, replicationKeys).value;
      var r := IncrementalWrite(b, stream, key, replicationKeys, startDate, value);
      r.Ok? &&
      Lookup(r.value, stream, k, startDate) == Strings.Max(Lookup(b, stream, k, startDate), value.value) &&
      (forall s, k2, d :: (s != stream || k2 != k) ==> Lookup(r.value, s, k2, d) == Lookup(b, s, k2, d))
  {
    if (Truthy(key) || |replicationKeys| > 0) && value.Some? {
      MaxWriteNeverDecreases(b, stream, BookmarkKey(key, replicationKeys).value, startDate, value.value);
    }
  }

  /** `f"{self.tap_stream_id}_{self.replication_keys[0]}"`: where a child keeps its parent's bookmark. */
  function ChildKey(parentId: string, replicationKeys: seq<string>): string
    requires |replicationKeys| > 0
  {
    parentId + "_" + replicationKeys[0]
  }

  /** The bookmarks the children hold for their parent, in the order of the children. */
  function ChildBookmarks(b: BookmarkMap, childIds: seq<string>, key: string, startDate: string): (r: seq<string>)
    ensures |r| == |childIds|
    ensures forall i :: 0 <= i < |childIds| ==> r[i] == Lookup(b, childIds[i], key, startDate)
  {
    seq(|childIds|, i requires 0 <= i < |childIds| => Lookup(b, childIds[i], key, startDate))
  }

  /** `ParentBaseStream.get_bookmark`: the truthiness-guarded minimum over the parent (when selected) and its children. */
  function ParentBookmark(b: BookmarkMap, parentId: string, replicationKeys: seq<string>, selected: bool,
                          childIds: seq<string>, startDate: string): Result<Option<string>, StreamError>
  {
    var own := if selected then IncrementalBookmark(b, parentId, None, replicationKeys, startDate) else Ok("");
    if own.Err? then Err(own.error)
    else if |childIds| > 0 && |replicationKeys| == 0 then Err(IndexError)
    else
      var start := if selected then Some(own.value) else None;
      if |childIds| == 0 then Ok(start)
      else Ok(ParentMinimum(start, ChildBookmarks(b, childIds, ChildKey(parentId, replicationKeys), startDate)))
  }

  /** Every stored bookmark and the start date are non-empty, as formatted date-times are. */
  predicate NonEmptyValues(b: BookmarkMap, startDate: string) {
    |startDate| > 0 && forall s, k :: s in b && k in b[s] ==> |b[s][k]| > 0
  }

  /**
   * With non-empty values the parent reads the least of its own bookmark (when
   * selected) and each child's bookmark under `<parent>_<replication key>`.
   */
  lemma {:induction false} ParentReadsTheMinimum(b: BookmarkMap, parentId: string, replicationKeys: seq<string>,
                                                 selected: bool, childIds: seq<string>, startDate: string)
    requires |replicationKeys| > 0 && (selected || |childIds| > 0) && NonEmptyValues(b, startDate)
    ensures var r := ParentBookmark(b, parentId, replicationKeys, selected, childIds, startDate);
      r.Ok? && r.value.Some? &&
      IsLeast(r.value.value, if selected then Some(Lookup(b, parentId, replicationKeys[0], startDate)) else None,
        ChildBookmarks(b, childIds, ChildKey(parentId, replicationKeys), startDate))
  {
    var own := if selected then Some(Lookup(b, parentId, replicationKeys[0], startDate)) else None;
    var children := ChildBookmarks(b, childIds, ChildKey(parentId, replicationKeys), startDate);
    forall i | 0 <= i < |children| ensures |children[i]| > 0 {
    }
    if |childIds| == 0 {
      Strings.LessIrreflexive(own.value);
    } else {
      ParentMinimumIsLeast(own, children);
    }
  }

  /** The max-policy write of one value to the same key of each child, in order. */
  function FanOut(b: BookmarkMap, childIds: seq<string>, key: string, startDate: string, value: string): BookmarkMap
    decreases |childIds|
  {
    if |childIds| == 0 then b
    else MaxWrite(FanOut(b, childIds[..|childIds| - 1], key, startDate, value), childIds[|childIds| - 1], key, startDate, value)
  }

  /** `ParentBaseStream.write_bookmark`: its own write when selected, then one write per child. */
  function ParentWrite(b: BookmarkMap, parentId: string, replicationKeys: seq<string>, selected: bool,
                       childIds: seq<string>, startDate: string, value: Option<string>): Result<BookmarkMap, StreamError>
  {
    var own := if selected then IncrementalWrite(b, parentId, None, replicationKeys, startDate, value) else Ok(b);
    if own.Err? then own
    else if |childIds| == 0 then own
    else if |replicationKeys| == 0 then Err(IndexError)
    else if value.None? then Err(TypeError)
    else Ok(FanOut(own.value, childIds, ChildKey(parentId, replicationKeys), startDate, value.value))
  }

  /** Writing the same later-of twice is writing it once. */
  lemma MaxAbsorbs(a: string, v: string)
    ensures Strings.Max(Strings.Max(a, v), v) == Strings.Max(a, v)
  {
    Strings.LessIrreflexive(v);
    Strings.LessIrreflexive(a);
  }

  /** The fan-out stores, at each child, the later of its stored value and the new one, and touches nothing else. */
  lemma {:induction false} FanOutKeepsTheMaximum(b: BookmarkMap, childIds: seq<string>, key: string, startDate: string, value: string)
    ensures forall i, d :: 0 <= i < |childIds| ==>
      Lookup(FanOut(b, childIds, key, startDate, value), childIds[i], key, d) ==
        Strings.Max(Lookup(b, childIds[i], key, startDate), value)
    ensures forall s, k, d :: (s !in childIds || k != key) ==>
      Lookup(FanOut(b, childIds, key, startDate, value), s, k, d) == Lookup(b, s, k, d)
    decreases |childIds|
  {
    if |childIds| > 0 {
      var n := |childIds| - 1;
      var init := childIds[..n];
      var last := childIds[n];
      var before := FanOut(b, init, key, startDate, value);
      FanOutKeepsTheMaximum(b, init, key, startDate, value);
      var after := FanOut(b, childIds, key, startDate, value);
      assert after == MaxWrite(before, last, key, startDate, value);
      MaxWriteNeverDecreases(before, last, key, startDate, value);
      forall i, d | 0 <= i < |childIds|
        ensures Lookup(after, childIds[i], key, d) == Strings.Max(Lookup(b, childIds[i], key, startDate), value)
      {
        if childIds[i] == last {
          if last in init {
            var j :| 0 <= j < n && init[j] == last;
            assert Lookup(before, last, key, startDate) == Strings.Max(Lookup(b, last, key, startDate), value);
            MaxAbsorbs(Lookup(b, last, key, startDate), value);
          } else {
            assert Lookup(before, last, key, startDate) == Lookup(b, last, key, startDate);
          }
        } else {
          assert childIds[i] == init[i];
        }
      }
      forall s, k, d | s !in childIds || k != key
        ensures Lookup(after, s, k, d) == Lookup(b, s, k, d)
      {
        assert s !in init || k != key;
      }
    }
  }

  /**
   * The parent writes exactly where it reads: the max-policy write lands on its own
   * bookmark (when selected) and on each child's `<parent>_<replication key>`, and
   * nowhere else.
   */
  lemma {:induction false} ParentWritesWhereItReads(b: BookmarkMap, parentId: string, replicationKeys: seq<string>,
                                                    selected: bool, childIds: seq<string>, startDate: string, value: string)
    requires |replicationKeys| > 0
    ensures var r := ParentWrite(b, parentId, replicationKeys, selected, childIds, startDate, Some(value));
      var rk := replicationKeys[0];
      var ck := ChildKey(parentId, replicationKeys);
      r.Ok? &&
      (forall i, d :: 0 <= i < |childIds| ==>
        Lookup(r.value, childIds[i], ck, d) == Strings.Max(Lookup(b, childIds[i], ck, startDate), value)) &&
      (selected ==> forall d :: Lookup(r.value, parentId, rk, d) == Strings.Max(Lookup(b, parentId, rk, startDate), value)) &&
      (forall s, k, d :: !(s in childIds && k == ck) && !(selected && s == parentId && k == rk) ==>
        Lookup(r.value, s, k, d) == Lookup(b, s, k, d))
  {
    var rk := replicationKeys[0];
    var ck := ChildKey(parentId, replicationKeys);
    assert ck != rk by {
      assert |ck| > |rk|;
    }
    var own := if selected then MaxWrite(b, parentId, rk, startDate, value) else b;
    assert ParentWrite(b, parentId, replicationKeys, selected, childIds, startDate, Some(value)) ==
      Ok(if |childIds| == 0 then own else FanOut(own, childIds, ck, startDate, value));
    if selected {
      MaxWriteNeverDecreases(b, parentId, rk, startDate, value);
    }
    FanOutKeepsTheMaximum(own, childIds, ck, startDate, value);
  }

  /** The parent writes nothing when it fails: a missing value or replication key fails before the first write. */
  lemma ParentWriteFailsCleanly(b: BookmarkMap, parentId: string, replicationKeys: seq<string>, selected: bool,
                                childIds: seq<string>, startDate: string, value: Option<string>)
    ensures value.None? && (|childIds| > 0 || (selected && |replicationKeys| > 0)) ==>
      ParentWrite(b, parentId, replicationKeys, selected, childIds, startDate, value).Err?
    ensures |replicationKeys| == 0 ==>
      ParentWrite(b, parentId, replicationKeys, selected, childIds, startDate, value) ==
        (if |childIds| > 0 then Err(IndexError) else Ok(b))
  {
  }

  /**
   * `ChildBaseStream.get_bookmark`: the value returned and the cache left behind. The
   * attribute is never assigned before its first read, which raises AttributeError.
   */
  function ChildBookmark(cache: Cache, b: BookmarkMap, stream: string, replicationKeys: seq<string>,
                         startDate: string): (Result<Option<string>, StreamError>, Cache)
  {
    match cache
    case Unset => (Err(AttributeError("bookmark_value")), Unset)
    case Cached(v) =>
      if Truthy(v) then (Ok(v), cache)
      else
        match IncrementalBookmark(b, stream, None, replicationKeys, startDate)
        case Err(e) => (Err(e), cache)
        case Ok(s) => (Ok(Some(s)), Cached(Some(s)))
  }

  /**
   * Once a truthy value is cached, every later read returns it whatever the state
   * holds; a falsy cache is filled from the state; an unset one raises.
   */
  lemma {:induction false} ChildBookmarkIsMemoised(cache: Cache, b1: BookmarkMap, b2: BookmarkMap, stream: string,
                                                  replicationKeys: seq<string>, startDate: string)
    ensures cache.Unset? ==> ChildBookmark(cache, b1, stream, replicationKeys, startDate).0 == Err(AttributeError("bookmark_value"))
    ensures cache.Cached? && Truthy(cache.value) ==>
      ChildBookmark(cache, b1, stream, replicationKeys, startDate) == (Ok(cache.value), cache)
    ensures var (r, after) := ChildBookmark(cache, b1, stream, replicationKeys, startDate);
      r.Ok? && Truthy(r.value) ==> ChildBookmark(after, b2, stream, replicationKeys, startDate) == (r, after)
    ensures cache.Cached? && !Truthy(cache.value) && |replicationKeys| > 0 ==>
      ChildBookmark(cache, b1, stream, replicationKeys, startDate).0 == Ok(Some(Lookup(b1, stream, replicationKeys[0], startDate)))
  {
  }
}
