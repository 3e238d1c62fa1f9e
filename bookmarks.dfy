/**
 * The replication state: bookmarks per stream and key, the library helpers that
 * read and store them, and the bookmark arithmetic of incremental streams (the
 * max-policy write and the parent's minimum over its children).
 */
module Bookmarks {
  import opened Wrappers
  import Strings

  /** `state["bookmarks"]`: stream id, then bookmark key, then the stored date-time text. */
  type BookmarkMap = map<string, map<string, string>>

  /** `singer.get_bookmark(state, stream, key, default)`. */
  function Lookup(b: BookmarkMap, stream: string, key: string, default: string): string {
    if stream in b && key in b[stream] then b[stream][key] else default
  }

  /** `singer.write_bookmark(state, stream, key, value)`: creates the stream's entry when missing. */
  function Store(b: BookmarkMap, stream: string, key: string, value: string): (r: BookmarkMap)
    ensures forall s, k, d :: Lookup(r, s, k, d) == if s == stream && k == key then value else Lookup(b, s, k, d)
    ensures r.Keys == b.Keys + {stream}
  {
    b[stream := (if stream in b then b[stream] else map[])[key := value]]
  }

  /** The max-policy write: the stored value becomes `max(stored-or-start, value)`. */
  function MaxWrite(b: BookmarkMap, stream: string, key: string, startDate: string, value: string): BookmarkMap {
    Store(b, stream, key, Strings.Max(Lookup(b, stream, key, startDate), value))
  }

  /**
   * A max-policy write never moves a bookmark back: the new value is the old one
   * (or the start date) or the written one, whichever is later in string order, and
   * every other location is untouched.
   */
  lemma {:induction false} MaxWriteNeverDecreases(b: BookmarkMap, stream: string, key: string, startDate: string, value: string)
    ensures var before := Lookup(b, stream, key, startDate);
      var now := Lookup(MaxWrite(b, stream, key, startDate, value), stream, key, startDate);
      (now == before || now == value) && !Strings.Less(now, before) && !Strings.Less(now, value)
    ensures forall s, k, d :: (s != stream || k != key) ==>
      Lookup(MaxWrite(b, stream, key, startDate, value), s, k, d) == Lookup(b, s, k, d)
  {
  }

  /** Writing an older value leaves the stored bookmark as it was (the test with 300 and 200). */
  lemma OlderValueKeepsBookmark(b: BookmarkMap, stream: string, key: string, startDate: string, value: string)
    requires stream in b && key in b[stream] && !Strings.Less(b[stream][key], value)
    ensures MaxWrite(b, stream, key, startDate, value) == b
  {
    var cur := b[stream][key];
    Strings.LessTotal(cur, value);
    Strings.LessIrreflexive(cur);
    assert Strings.Max(cur, value) == cur;
    assert b[stream][key := cur] == b[stream];
  }

  /** A write into an empty state stores the value itself when it is later than the start date. */
  lemma WriteIntoEmptyState(stream: string, key: string, startDate: string, value: string)
    requires Strings.Less(startDate, value)
    ensures MaxWrite(map[], stream, key, startDate, value) == map[stream := map[key := value]]
  {
  }

  /** Python truthiness of an optional bookmark: `None` and `""` are false. */
  predicate Truthy(v: Option<string>) {
    v.Some? && |v.value| > 0
  }

  /**
   * One step of the parent's fold: `min(m, child) if m else child`. A falsy running
   * value is replaced outright, so an empty bookmark does not count as a minimum.
   */
  function FoldMin(m: Option<string>, child: string): Option<string> {
    if Truthy(m) then Some(Strings.Min(m.value, child)) else Some(child)
  }

  /** The parent's bookmark after folding in the children's bookmarks, in order. */
  function ParentMinimum(own: Option<string>, children: seq<string>): Option<string>
    decreases |children|
  {
    if |children| == 0 then own
    else FoldMin(ParentMinimum(own, children[..|children| - 1]), children[|children| - 1])
  }

  /** Is `r` the least of `own` (when given) and the children? */
  predicate IsLeast(r: string, own: Option<string>, children: seq<string>) {
    (own.Some? ==> !Strings.Less(own.value, r)) &&
    (forall i :: 0 <= i < |children| ==> !Strings.Less(children[i], r)) &&
    ((own.Some? && r == own.value) || exists i :: 0 <= i < |children| && r == children[i])
  }

  /**
   * With a non-empty own bookmark, or none, and non-empty child bookmarks, the fold
   * is the minimum: no candidate is smaller, and the result is one of them.
   */
  lemma {:induction false} ParentMinimumIsLeast(own: Option<string>, children: seq<string>)
    requires own.None? || |own.value| > 0
    requires forall i :: 0 <= i < |children| ==> |children[i]| > 0
    requires own.Some? || |children| > 0
    ensures ParentMinimum(own, children).Some?
    ensures IsLeast(ParentMinimum(own, children).value, own, children)
    decreases |children|
  {
    if |children| == 0 {
      Strings.LessIrreflexive(own.value);
    } else {
      var n := |children| - 1;
      var init := children[..n];
      var c := children[n];
      assert forall i :: 0 <= i < |init| ==> init[i] == children[i];
      if own.Some? || n > 0 {
        ParentMinimumIsLeast(own, init);
        var m := ParentMinimum(own, init).value;
        assert |m| > 0 by {
          if own.Some? && m == own.value {
          } else {
            var j :| 0 <= j < |init| && m == init[j];
          }
        }
        var r := Strings.Min(m, c);
        assert ParentMinimum(own, children) == Some(r);
        forall i | 0 <= i < |children| ensures !Strings.Less(children[i], r) {
          if i < n {
            if Strings.Less(children[i], r) {
              Strings.LessTransitive(children[i], r, m);
            }
          }
        }
        if own.Some? && Strings.Less(own.value, r) {
          Strings.LessTransitive(own.value, r, m);
        }
        if r == m && !(own.Some? && r == own.value) {
          var j :| 0 <= j < |init| && m == init[j];
          assert r == children[j];
        }
      } else {
        assert ParentMinimum(own, children) == Some(c);
        Strings.LessIrreflexive(c);
      }
    }
  }

  /**
   * The truthiness test is not a minimum: an empty own bookmark is dropped in favour of
   * a child's, although `""` sorts first.
   */
  lemma EmptyOwnBookmarkIsReplaced(child: string)
    requires |child| > 0
    ensures ParentMinimum(Some(""), [child]) == Some(child)
    ensures Strings.Less("", child)
  {
    assert [child][..0] == [];
  }

  /** The state object the streams update in place. */
  class State {
    var bookmarks: BookmarkMap

    constructor(bookmarks: BookmarkMap)
      ensures this.bookmarks == bookmarks
    {
      this.bookmarks := bookmarks;
    }

    /** `write_bookmark` into this state. */
    method WriteBookmark(stream: string, key: string, value: string)
      modifies this
      ensures bookmarks == Store(old(bookmarks), stream, key, value)
    {
      var entry := if stream in bookmarks then bookmarks[stream] else map[];
      bookmarks := bookmarks[stream := entry[key := value]];
    }
  }
}
