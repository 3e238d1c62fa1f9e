/**
 * The record normaliser of incremental streams: every value stored under one of
 * the schema's date-time keys, at any depth of nested dicts and of dicts inside
 * lists, is rewritten from epoch seconds to the tap's date-time text; a value the
 * conversion rejects is kept as it was.
 */
module Normalizer {
  import opened Wrappers
  import opened Json
  import Utils

  /**
   * `get_datetime_from_timestamp(value)` on a record value; `None` means the call
   * raised. `datetime.fromtimestamp` takes `int` and `bool` (a subclass of `int`)
   * and raises for text, dicts and lists.
   */
  function Standardize(v: Json): (r: Option<Json>)
    ensures r.Some? ==> r.value.Str? && Utils.HasFormatShape(r.value.s)
    ensures r.Some? <==> (v.Int? && Utils.MIN_TIMESTAMP <= v.i <= Utils.MAX_TIMESTAMP) || v.Bool?
  {
    match v
    case Int(t) => FromEpoch(t)
    case Bool(b) => FromEpoch(if b then 1 else 0)
    case _ => None
  }

  function FromEpoch(t: int): (r: Option<Json>)
    ensures r.Some? <==> Utils.MIN_TIMESTAMP <= t <= Utils.MAX_TIMESTAMP
    ensures r.Some? ==> r.value == Str(Utils.Format(Utils.FromTimestamp(t)))
  {
    Utils.FormatShape(t);
    match Utils.DatetimeFromTimestamp(Some(t))
    case Ok(Some(s)) => Some(Str(s))
    case _ => None
  }

  /** The value written back under a listed key: the converted text, or the original value when the conversion raised. */
  function Convert(v: Json): Json {
    match Standardize(v)
    case Some(standardized) => standardized
    case None => v
  }

  /** What the normaliser leaves under `field` for `value`. */
  function NormalizeEntry(field: string, value: Json, datetimeFields: set<string>): Json
    decreases value, 1
  {
    if field in datetimeFields && value != Null then Convert(value)
    else
      match value
      case Obj(inner) => Obj(NormalizeFields(inner, datetimeFields))
      case Arr(items) => Arr(NormalizeItems(items, datetimeFields))
      case _ => value
  }

  /** The record after normalisation: same keys in the same order, each value normalised. */
  function NormalizeFields(record: seq<(string, Json)>, datetimeFields: set<string>): seq<(string, Json)>
    decreases Obj(record), 0
  {
    seq(|record|, i requires 0 <= i < |record| => (record[i].0, NormalizeEntry(record[i].0, record[i].1, datetimeFields)))
  }

  /** A list under an unlisted key: dict items are normalised, other items stay as they are. */
  function NormalizeItems(items: seq<Json>, datetimeFields: set<string>): seq<Json>
    decreases Arr(items), 0
  {
    seq(|items|, i requires 0 <= i < |items| =>
      if items[i].Obj? then Obj(NormalizeFields(items[i].fields, datetimeFields)) else items[i])
  }

  /** `IncrementalStream.modify_object`: rewrites the record field by field. */
  method ModifyObject(record: seq<(string, Json)>, datetimeFields: set<string>) returns (r: seq<(string, Json)>)
    ensures r == NormalizeFields(record, datetimeFields)
    decreases Obj(record), 0
  {
    r := record;
    for i := 0 to |record|
      invariant |r| == |record|
      invariant forall j :: 0 <= j < i ==>
        r[j] == (record[j].0, NormalizeEntry(record[j].0, record[j].1, datetimeFields))
      invariant forall j :: i <= j < |record| ==> r[j] == record[j]
    {
      var (field, value) := record[i];
      if field in datetimeFields && value != Null {
        match Standardize(value) {
          case Some(standardized) =>
            r := r[i := (field, standardized)];
          case None =>
            // the conversion raised: the original value is kept
            r := r[i := (field, value)];
        }
      } else if value.Obj? {
        var inner := ModifyObject(value.fields, datetimeFields);
        r := r[i := (field, Obj(inner))];
      } else if value.Arr? {
        var items := ModifyItems(value.items, datetimeFields);
        r := r[i := (field, Arr(items))];
      }
    }
  }

  /** The inner loop over a list value: each dict item is normalised. */
  method ModifyItems(items: seq<Json>, datetimeFields: set<string>) returns (r: seq<Json>)
    ensures r == NormalizeItems(items, datetimeFields)
    decreases Arr(items), 0
  {
    r := items;
    for i := 0 to |items|
      invariant |r| == |items|
      invariant forall j :: 0 <= j < i ==>
        r[j] == if items[j].Obj? then Obj(NormalizeFields(items[j].fields, datetimeFields)) else items[j]
      invariant forall j :: i <= j < |items| ==> r[j] == items[j]
    {
      if items[i].Obj? {
        var inner := ModifyObject(items[i].fields, datetimeFields);
        r := r[i := Obj(inner)];
      }
    }
  }

  /** Two values with the same dict keys, in the same order, at every depth. */
  predicate SameKeys(a: Json, b: Json)
    decreases a, 1
  {
    match a
    case Obj(fa) =>
      b.Obj? && |fa| == |b.fields| &&
      forall i :: 0 <= i < |fa| ==> fa[i].0 == b.fields[i].0 && SameKeys(fa[i].1, b.fields[i].1)
    case Arr(xa) =>
      b.Arr? && |xa| == |b.items| && forall i :: 0 <= i < |xa| ==> SameKeys(xa[i], b.items[i])
    case _ => !b.Obj? && !b.Arr?
  }

  lemma {:induction false} SameKeysReflexive(v: Json)
    ensures SameKeys(v, v)
    decreases v
  {
    match v
    case Obj(fs) =>
      forall i | 0 <= i < |fs| ensures SameKeys(fs[i].1, fs[i].1) {
        SameKeysReflexive(fs[i].1);
      }
    case Arr(xs) =>
      forall i | 0 <= i < |xs| ensures SameKeys(xs[i], xs[i]) {
        SameKeysReflexive(xs[i]);
      }
    case _ =>
  }

  /** Normalisation never adds, removes or reorders a key, at any depth. */
  lemma {:induction false} NormalizeKeepsKeys(record: seq<(string, Json)>, datetimeFields: set<string>)
    ensures SameKeys(Obj(record), Obj(NormalizeFields(record, datetimeFields)))
    decreases Obj(record), 0
  {
    var r := NormalizeFields(record, datetimeFields);
    forall i | 0 <= i < |record| ensures SameKeys(record[i].1, r[i].1) {
      EntryKeepsKeys(record[i].0, record[i].1, datetimeFields);
    }
  }

  lemma {:induction false} EntryKeepsKeys(field: string, value: Json, datetimeFields: set<string>)
    ensures SameKeys(value, NormalizeEntry(field, value, datetimeFields))
    decreases value, 1
  {
    if field in datetimeFields && value != Null {
      if Standardize(value).None? {
        SameKeysReflexive(value);
      }
    } else {
      match value
      case Obj(inner) => NormalizeKeepsKeys(inner, datetimeFields);
      case Arr(items) => ItemsKeepKeys(items, datetimeFields);
      case _ =>
    }
  }

  lemma {:induction false} ItemsKeepKeys(items: seq<Json>, datetimeFields: set<string>)
    ensures SameKeys(Arr(items), Arr(NormalizeItems(items, datetimeFields)))
    decreases Arr(items), 0
  {
    var r := NormalizeItems(items, datetimeFields);
    forall i | 0 <= i < |items| ensures SameKeys(items[i], r[i]) {
      if items[i].Obj? {
        NormalizeKeepsKeys(items[i].fields, datetimeFields);
      } else {
        SameKeysReflexive(items[i]);
      }
    }
  }

  /**
   * `b` is `a` with at most the values under keys in `fields` replaced: the same
   * keys in the same order, and every other value (scalar, dict or list item) equal.
   */
  predicate ChangesOnlyListed(a: Json, b: Json, fields: set<string>)
    decreases a, 1
  {
    match a
    case Obj(fa) =>
      b.Obj? && |fa| == |b.fields| &&
      forall i :: 0 <= i < |fa| ==>
        fa[i].0 == b.fields[i].0 && (fa[i].0 in fields || ChangesOnlyListed(fa[i].1, b.fields[i].1, fields))
    case Arr(xa) =>
      b.Arr? && |xa| == |b.items| && forall i :: 0 <= i < |xa| ==> ChangesOnlyListed(xa[i], b.items[i], fields)
    case _ => b == a
  }

  lemma {:induction false} ChangesOnlyListedReflexive(v: Json, fields: set<string>)
    ensures ChangesOnlyListed(v, v, fields)
    decreases v
  {
    match v
    case Obj(fs) =>
      forall i | 0 <= i < |fs| ensures ChangesOnlyListed(fs[i].1, fs[i].1, fields) {
        ChangesOnlyListedReflexive(fs[i].1, fields);
      }
    case Arr(xs) =>
      forall i | 0 <= i < |xs| ensures ChangesOnlyListed(xs[i], xs[i], fields) {
        ChangesOnlyListedReflexive(xs[i], fields);
      }
    case _ =>
  }

  /** Normalisation touches only values under a date-time key: everything else, at any depth, is kept. */
  lemma {:induction false} NormalizeChangesOnlyListedValues(record: seq<(string, Json)>, datetimeFields: set<string>)
    ensures ChangesOnlyListed(Obj(record), Obj(NormalizeFields(record, datetimeFields)), datetimeFields)
    decreases Obj(record), 0
  {
    var r := NormalizeFields(record, datetimeFields);
    forall i | 0 <= i < |record| && record[i].0 !in datetimeFields
      ensures ChangesOnlyListed(record[i].1, r[i].1, datetimeFields)
    {
      EntryChangesOnlyListed(record[i].0, record[i].1, datetimeFields);
    }
  }

  lemma {:induction false} EntryChangesOnlyListed(field: string, value: Json, datetimeFields: set<string>)
    requires field !in datetimeFields
    ensures ChangesOnlyListed(value, NormalizeEntry(field, value, datetimeFields), datetimeFields)
    decreases value, 1
  {
    match value
    case Obj(inner) => NormalizeChangesOnlyListedValues(inner, datetimeFields);
    case Arr(items) => ItemsChangeOnlyListed(items, datetimeFields);
    case _ =>
  }

  lemma {:induction false} ItemsChangeOnlyListed(items: seq<Json>, datetimeFields: set<string>)
    ensures ChangesOnlyListed(Arr(items), Arr(NormalizeItems(items, datetimeFields)), datetimeFields)
    decreases Arr(items), 0
  {
    var r := NormalizeItems(items, datetimeFields);
    forall i | 0 <= i < |items| ensures ChangesOnlyListed(items[i], r[i], datetimeFields) {
      if items[i].Obj? {
        NormalizeChangesOnlyListedValues(items[i].fields, datetimeFields);
      } else {
        ChangesOnlyListedReflexive(items[i], datetimeFields);
      }
    }
  }

  /** With no date-time fields the record comes back unchanged. */
  lemma {:induction false} NoFieldsIsIdentity(record: seq<(string, Json)>)
    ensures NormalizeFields(record, {}) == record
    decreases Obj(record), 0
  {
    var r := NormalizeFields(record, {});
    forall i | 0 <= i < |record| ensures r[i] == record[i] {
      EntryIdentity(record[i].0, record[i].1);
    }
  }

  lemma {:induction false} EntryIdentity(field: string, value: Json)
    ensures NormalizeEntry(field, value, {}) == value
    decreases value, 1
  {
    match value
    case Obj(inner) => NoFieldsIsIdentity(inner);
    case Arr(items) => ItemsIdentity(items);
    case _ =>
  }

  lemma {:induction false} ItemsIdentity(items: seq<Json>)
    ensures NormalizeItems(items, {}) == items
    decreases Arr(items), 0
  {
    var r := NormalizeItems(items, {});
    forall i | 0 <= i < |items| ensures r[i] == items[i] {
      if items[i].Obj? {
        NoFieldsIsIdentity(items[i].fields);
      }
    }
  }

  /**
   * Under a listed key a value that is not `None` is replaced by the converted text, or kept
   * when the conversion raises; a dict or list there is kept whole and never descended into.
   */
  lemma ListedValueIsConvertedNotDescended(record: seq<(string, Json)>, datetimeFields: set<string>, i: int)
    requires 0 <= i < |record| && record[i].0 in datetimeFields
    ensures NormalizeFields(record, datetimeFields)[i].0 == record[i].0
    ensures record[i].1.Int? && Utils.MIN_TIMESTAMP <= record[i].1.i <= Utils.MAX_TIMESTAMP ==>
      NormalizeFields(record, datetimeFields)[i].1 == Str(Utils.Format(Utils.FromTimestamp(record[i].1.i)))
    ensures Standardize(record[i].1).None? ==> NormalizeFields(record, datetimeFields)[i].1 == record[i].1
  {
  }

  /** A value written by the normaliser is left alone by a second pass. */
  lemma ConvertIdempotent(v: Json)
    ensures Convert(Convert(v)) == Convert(v)
    ensures v != Null ==> Convert(v) != Null
  {
  }

  /** Normalising twice is normalising once. */
  lemma {:induction false} NormalizeIdempotent(record: seq<(string, Json)>, datetimeFields: set<string>)
    ensures NormalizeFields(NormalizeFields(record, datetimeFields), datetimeFields) == NormalizeFields(record, datetimeFields)
    decreases Obj(record), 0
  {
    var once := NormalizeFields(record, datetimeFields);
    var twice := NormalizeFields(once, datetimeFields);
    forall i | 0 <= i < |record| ensures twice[i] == once[i] {
      EntryIdempotent(record[i].0, record[i].1, datetimeFields);
    }
  }

  lemma {:induction false} EntryIdempotent(field: string, value: Json, datetimeFields: set<string>)
    ensures NormalizeEntry(field, NormalizeEntry(field, value, datetimeFields), datetimeFields)
      == NormalizeEntry(field, value, datetimeFields)
    decreases value, 1
  {
    if field in datetimeFields && value != Null {
      ConvertIdempotent(value);
    } else {
      match value
      case Obj(inner) => NormalizeIdempotent(inner, datetimeFields);
      case Arr(items) => ItemsIdempotent(items, datetimeFields);
      case _ =>
    }
  }

  lemma {:induction false} ItemsIdempotent(items: seq<Json>, datetimeFields: set<string>)
    ensures NormalizeItems(NormalizeItems(items, datetimeFields), datetimeFields) == NormalizeItems(items, datetimeFields)
    decreases Arr(items), 0
  {
    var once := NormalizeItems(items, datetimeFields);
    var twice := NormalizeItems(once, datetimeFields);
    forall i | 0 <= i < |items| ensures twice[i] == once[i] {
      if items[i].Obj? {
        NormalizeIdempotent(items[i].fields, datetimeFields);
      }
    }
  }

  /**
   * The values stored under the listed keys, in key order, at every depth: the test
   * helper that compares a record before and after normalisation.
   */
  function ExtractFieldValues(record: seq<(string, Json)>, fields: set<string>): seq<Json> {
    ExtractFrom(record, fields, 0)
  }

  function ExtractFrom(record: seq<(string, Json)>, fields: set<string>, i: nat): seq<Json>
    requires i <= |record|
    decreases Obj(record), 0, |record| - i
  {
    if i == |record| then []
    else ExtractEntry(record[i].0, record[i].1, fields) + ExtractFrom(record, fields, i + 1)
  }

  function ExtractEntry(key: string, value: Json, fields: set<string>): seq<Json>
    decreases value, 1
  {
    if key in fields then [value]
    else
      match value
      case Obj(inner) => ExtractFrom(inner, fields, 0)
      case Arr(items) => ExtractItems(items, fields, 0)
      case _ => []
  }

  function ExtractItems(items: seq<Json>, fields: set<string>, i: nat): seq<Json>
    requires i <= |items|
    decreases Arr(items), 0, |items| - i
  {
    if i == |items| then []
    else (if items[i].Obj? then ExtractFrom(items[i].fields, fields, 0) else []) + ExtractItems(items, fields, i + 1)
  }

  function ConvertAll(vs: seq<Json>): (r: seq<Json>)
    ensures |r| == |vs| && forall i :: 0 <= i < |vs| ==> r[i] == Convert(vs[i])
  {
    seq(|vs|, i requires 0 <= i < |vs| => Convert(vs[i]))
  }

  lemma ConvertAllAppend(a: seq<Json>, b: seq<Json>)
    ensures ConvertAll(a + b) == ConvertAll(a) + ConvertAll(b)
  {
  }

  /**
   * The values under the listed keys after normalisation are exactly the converted
   * values found there before, in the same order, at every depth.
   */
  lemma NormalizeConvertsEveryListedValue(record: seq<(string, Json)>, fields: set<string>)
    ensures ExtractFieldValues(NormalizeFields(record, fields), fields) == ConvertAll(ExtractFieldValues(record, fields))
  {
    ExtractFromNormalized(record, fields, 0);
  }

  lemma {:induction false} ExtractFromNormalized(record: seq<(string, Json)>, fields: set<string>, i: nat)
    requires i <= |record|
    ensures ExtractFrom(NormalizeFields(record, fields), fields, i) == ConvertAll(ExtractFrom(record, fields, i))
    decreases Obj(record), 0, |record| - i
  {
    if i < |record| {
      var n := NormalizeFields(record, fields);
      ExtractEntryNormalized(record[i].0, record[i].1, fields);
      ExtractFromNormalized(record, fields, i + 1);
      ConvertAllAppend(ExtractEntry(record[i].0, record[i].1, fields), ExtractFrom(record, fields, i + 1));
      assert n[i] == (record[i].0, NormalizeEntry(record[i].0, record[i].1, fields));
    }
  }

  lemma {:induction false} ExtractEntryNormalized(key: string, value: Json, fields: set<string>)
    ensures ExtractEntry(key, NormalizeEntry(key, value, fields), fields) == ConvertAll(ExtractEntry(key, value, fields))
    decreases value, 1
  {
    if key !in fields {
      match value
      case Obj(inner) => ExtractFromNormalized(inner, fields, 0);
      case Arr(items) => ExtractItemsNormalized(items, fields, 0);
      case _ =>
    }
  }

  lemma {:induction false} ExtractItemsNormalized(items: seq<Json>, fields: set<string>, i: nat)
    requires i <= |items|
    ensures ExtractItems(NormalizeItems(items, fields), fields, i) == ConvertAll(ExtractItems(items, fields, i))
    decreases Arr(items), 0, |items| - i
  {
    if i < |items| {
      var n := NormalizeItems(items, fields);
      ExtractItemsNormalized(items, fields, i + 1);
      if items[i].Obj? {
        assert n[i] == Obj(NormalizeFields(items[i].fields, fields));
        ExtractFromNormalized(items[i].fields, fields, 0);
        ConvertAllAppend(ExtractFrom(items[i].fields, fields, 0), ExtractItems(items, fields, i + 1));
      } else {
        assert n[i] == items[i];
      }
    }
  }
}
