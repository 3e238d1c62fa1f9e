/**
 * The record loop of `IncrementalStream.sync` and of `FullTableStream.sync`, as
 * functions of the records the paginator yields: which records are written, the
 * running maximum of the replication key, and the child syncs handed each record.
 */
module Incremental {
  import opened Wrappers
  import opened Json
  import opened StreamTypes
  import Utils
  import Normalizer
  import Client

  /** The fixed inputs of one stream's record loop. */
  datatype Env = Env(
    streamId: string,
    replicationKeys: seq<string>,
    selected: bool,
    childIds: seq<string>,
    datetimeFields: set<string>,
    hooks: Hooks)

  /** A record after `modify_object`, the autopilot normaliser and the transformer, with its bookmark timestamp. */
  datatype Staged = Staged(modified: Json, transformed: Json, ts: Option<int>)

  /** `get_timestamp_from_datetime(date_str=value)` on a transformed value: `strptime` wants text. */
  function RecordTimestamp(v: Json): (r: Result<Option<int>, StreamError>)
    ensures v == Null ==> r == Ok(None)
    ensures v.Str? ==> r.Ok? == Utils.TimestampFromDatetime(Some(v.s)).Ok?
    ensures r.Ok? && r.value.Some? ==> v.Str? && r.value == Utils.TimestampFromDatetime(Some(v.s)).value
    ensures !v.Str? && v != Null ==> r == Err(TypeError)
  {
    match v
    case Null => Ok(None)
    case Str(s) =>
      (match Utils.TimestampFromDatetime(Some(s))
       case Ok(t) => Ok(t)
       case Err(e) => Err(CodecFailure(e)))
    case _ => Err(TypeError)
  }

  /** The work on one record before the `>=` test. */
  function Stage(env: Env, record: Json): Result<Staged, StreamError> {
    if !record.Obj? then Err(AttributeError("items"))
    else
      var normalized := Normalizer.NormalizeFields(record.fields, env.datetimeFields);
      var modified := if EndsWith(env.streamId, "autopilot") then env.hooks.normalizeAutopilot(normalized) else normalized;
      var transformed := env.hooks.transform(Obj(modified));
      // `self.replication_keys[0]` is evaluated before the record is subscripted
      if |env.replicationKeys| == 0 then Err(IndexError)
      else if !transformed.Obj? then Err(TypeError)
      else
        match Get(transformed.fields, env.replicationKeys[0])
        case None => Err(KeyError(env.replicationKeys[0]))
        case Some(v) =>
          match RecordTimestamp(v)
          case Err(e) => Err(e)
          case Ok(ts) => Ok(Staged(Obj(modified), transformed, ts))
  }

  /** With no replication key, a dict record raises IndexError whatever the transformer returns. */
  lemma MissingReplicationKeyRaisesIndexError(env: Env, record: Json)
    requires record.Obj? && |env.replicationKeys| == 0
    ensures Stage(env, record) == Err(IndexError)
  {
  }

  /** The records the paginator yields, each as it stages. */
  function Stages(env: Env, records: seq<Json>): (r: seq<Result<Staged, StreamError>>)
    ensures |r| == |records|
    ensures forall i :: 0 <= i < |records| ==> r[i] == Stage(env, records[i])
  {
    seq(|records|, i requires 0 <= i < |records| => Stage(env, records[i]))
  }

  /** One `child.sync(state=state, transformer=transformer, parent_obj=record)` per child, in order. */
  function ChildEvents(childIds: seq<string>, record: Json): (r: seq<Event>)
    ensures |r| == |childIds|
    ensures forall i :: 0 <= i < |childIds| ==> r[i] == ChildSynced(childIds[i], record)
  {
    seq(|childIds|, i requires 0 <= i < |childIds| => ChildSynced(childIds[i], record))
  }

  /** What a record that passes the `>=` test causes: its write (when selected), then its child syncs. */
  function PassEvents(env: Env, st: Staged): seq<Event> {
    (if env.selected then [Emitted(st.transformed)] else []) + ChildEvents(env.childIds, st.modified)
  }

  /** The loop's state: what was handed on, the counter, the running maximum, and the exception that ended it. */
  datatype Progress = Progress(events: seq<Event>, count: nat, current: Option<int>, failure: Option<StreamError>)

  /** One iteration of the record loop; after an exception nothing more happens. */
  function Step(env: Env, p: Progress, stage: Result<Staged, StreamError>): Progress {
    if p.failure.Some? then p
    else
      match stage
      case Err(e) => p.(failure := Some(e))
      case Ok(st) =>
        // `>=` and `max` between None and an int raise TypeError
        if st.ts.None? || p.current.None? then p.(failure := Some(TypeError))
        else if st.ts.value >= p.current.value then
          Progress(p.events + PassEvents(env, st), p.count + (if env.selected then 1 else 0),
            Some(if st.ts.value > p.current.value then st.ts.value else p.current.value), None)
        else p
  }

  /** The record loop from the bookmark's timestamp `start` over the staged records. */
  function Run(env: Env, start: Option<int>, stages: seq<Result<Staged, StreamError>>): Progress
    decreases |stages|
  {
    if |stages| == 0 then Progress([], 0, start, None)
    else Step(env, Run(env, start, stages[..|stages| - 1]), stages[|stages| - 1])
  }

  /** The number of written records among the events. */
  function EmittedCount(events: seq<Event>): nat {
    if |events| == 0 then 0 else (if events[0].Emitted? then 1 else 0) + EmittedCount(events[1..])
  }

  lemma {:induction false} EmittedCountAppend(a: seq<Event>, b: seq<Event>)
    ensures EmittedCount(a + b) == EmittedCount(a) + EmittedCount(b)
    decreases |a|
  {
    if |a| > 0 {
      assert (a + b)[0] == a[0];
      assert (a + b)[1..] == a[1..] + b;
      EmittedCountAppend(a[1..], b);
    } else {
      assert a + b == b;
    }
  }

  lemma {:induction false} ChildEventsEmitNothing(childIds: seq<string>, record: Json)
    ensures EmittedCount(ChildEvents(childIds, record)) == 0
    decreases |childIds|
  {
    if |childIds| > 0 {
      assert ChildEvents(childIds, record)[1..] == ChildEvents(childIds[1..], record);
      ChildEventsEmitNothing(childIds[1..], record);
    }
  }

  /** The returned counter is the number of records written. */
  lemma {:induction false} CountIsTheNumberWritten(env: Env, start: Option<int>, stages: seq<Result<Staged, StreamError>>)
    ensures Run(env, start, stages).count == EmittedCount(Run(env, start, stages).events)
    decreases |stages|
  {
    if |stages| > 0 {
      var p := Run(env, start, stages[..|stages| - 1]);
      CountIsTheNumberWritten(env, start, stages[..|stages| - 1]);
      var stage := stages[|stages| - 1];
      if p.failure.None? && stage.Ok? && stage.value.ts.Some? && p.current.Some? && stage.value.ts.value >= p.current.value {
        var st := stage.value;
        EmittedCountAppend(p.events, PassEvents(env, st));
        EmittedCountAppend(if env.selected then [Emitted(st.transformed)] else [], ChildEvents(env.childIds, st.modified));
        ChildEventsEmitNothing(env.childIds, st.modified);
        assert EmittedCount([Emitted(st.transformed)]) == 1;
      }
    }
  }

  /** A stage that yields a timestamp. */
  predicate Timed(stage: Result<Staged, StreamError>) {
    stage.Ok? && stage.value.ts.Some?
  }

  function TsOf(stage: Result<Staged, StreamError>): int
    requires Timed(stage)
  {
    stage.value.ts.value
  }

  /** The maximum of the start and the first `n` timestamps. */
  function MaxTs(start: int, stages: seq<Result<Staged, StreamError>>, n: nat): int
    requires n <= |stages| && forall i :: 0 <= i < n ==> Timed(stages[i])
  {
    if n == 0 then start
    else
      var m := MaxTs(start, stages, n - 1);
      assert Timed(stages[n - 1]);
      if TsOf(stages[n - 1]) > m then TsOf(stages[n - 1]) else m
  }

  /** The `>=` test in closed form: at least the start and every earlier timestamp. */
  predicate Admitted(start: int, stages: seq<Result<Staged, StreamError>>, i: nat)
    requires i < |stages| && forall j :: 0 <= j <= i ==> Timed(stages[j])
  {
    TsOf(stages[i]) >= start && forall j :: 0 <= j < i ==> TsOf(stages[i]) >= TsOf(stages[j])
  }

  /** The events of the first `n` records, by the closed-form test. */
  function ExpectedEvents(env: Env, start: int, stages: seq<Result<Staged, StreamError>>, n: nat): seq<Event>
    requires n <= |stages| && forall i :: 0 <= i < n ==> Timed(stages[i])
  {
    if n == 0 then []
    else
      var passed := if Admitted(start, stages, n - 1) then PassEvents(env, stages[n - 1].value) else [];
      ExpectedEvents(env, start, stages, n - 1) + passed
  }

  /** The running maximum is the start or a timestamp seen, and bounds them all. */
  lemma {:induction false} MaxTsBounds(start: int, stages: seq<Result<Staged, StreamError>>, n: nat)
    requires n <= |stages| && forall i :: 0 <= i < n ==> Timed(stages[i])
    ensures MaxTs(start, stages, n) >= start
    ensures forall i :: 0 <= i < n ==> MaxTs(start, stages, n) >= TsOf(stages[i])
    ensures MaxTs(start, stages, n) == start || exists i :: 0 <= i < n && MaxTs(start, stages, n) == TsOf(stages[i])
    decreases n
  {
    if n > 0 {
      MaxTsBounds(start, stages, n - 1);
      var m := MaxTs(start, stages, n - 1);
      if TsOf(stages[n - 1]) <= m && m != start {
        var i :| 0 <= i < n - 1 && m == TsOf(stages[i]);
        assert MaxTs(start, stages, n) == TsOf(stages[i]);
      }
    }
  }

  /** Passing the `>=` test against the running maximum is passing the closed-form test. */
  lemma {:induction false} AdmittedAgainstTheMaximum(start: int, stages: seq<Result<Staged, StreamError>>, i: nat)
    requires i < |stages| && forall j :: 0 <= j <= i ==> Timed(stages[j])
    ensures Admitted(start, stages, i) <==> TsOf(stages[i]) >= MaxTs(start, stages, i)
  {
    MaxTsBounds(start, stages, i);
    if TsOf(stages[i]) < MaxTs(start, stages, i) && MaxTs(start, stages, i) != start {
      var j :| 0 <= j < i && MaxTs(start, stages, i) == TsOf(stages[j]);
    }
  }

  /**
   * A run that did not fail read a timestamp from every record; its maximum is the
   * maximum of the start and all of them; and it wrote (when selected) and handed to
   * the children exactly the records whose timestamp is at least the start and every
   * earlier one, so a record tied with the running maximum is written again.
   */
  lemma {:induction false} RunFollowsTheClosedForm(env: Env, start: int, stages: seq<Result<Staged, StreamError>>)
    requires Run(env, Some(start), stages).failure.None?
    ensures forall i :: 0 <= i < |stages| ==> Timed(stages[i])
    ensures Run(env, Some(start), stages).current == Some(MaxTs(start, stages, |stages|))
    ensures Run(env, Some(start), stages).events == ExpectedEvents(env, start, stages, |stages|)
    decreases |stages|
  {
    if |stages| > 0 {
      var n := |stages| - 1;
      var init := stages[..n];
      var p := Run(env, Some(start), init);
      assert p.failure.None?;
      RunFollowsTheClosedForm(env, start, init);
      assert forall i :: 0 <= i < n ==> init[i] == stages[i];
      assert Timed(stages[n]);
      assert MaxTs(start, init, n) == MaxTs(start, stages, n) by {
        MaxTsPrefix(start, stages, n, n);
      }
      assert ExpectedEvents(env, start, init, n) == ExpectedEvents(env, start, stages, n) by {
        ExpectedEventsPrefix(env, start, stages, n, n);
      }
      AdmittedAgainstTheMaximum(start, stages, n);
    }
  }

  /** The maximum of a prefix does not depend on what follows it. */
  lemma {:induction false} MaxTsPrefix(start: int, stages: seq<Result<Staged, StreamError>>, k: nat, n: nat)
    requires n <= k <= |stages| && forall i :: 0 <= i < k ==> Timed(stages[i])
    ensures MaxTs(start, stages[..k], n) == MaxTs(start, stages, n)
    decreases n
  {
    if n > 0 {
      MaxTsPrefix(start, stages, k, n - 1);
      assert stages[..k][n - 1] == stages[n - 1];
    }
  }

  /** The closed-form events of a prefix do not depend on what follows it. */
  lemma {:induction false} ExpectedEventsPrefix(env: Env, start: int, stages: seq<Result<Staged, StreamError>>, k: nat, n: nat)
    requires n <= k <= |stages| && forall i :: 0 <= i < k ==> Timed(stages[i])
    ensures ExpectedEvents(env, start, stages[..k], n) == ExpectedEvents(env, start, stages, n)
    decreases n
  {
    if n > 0 {
      ExpectedEventsPrefix(env, start, stages, k, n - 1);
      var pre := stages[..k];
      assert forall j :: 0 <= j < n ==> pre[j] == stages[j];
      assert Admitted(start, pre, n - 1) == Admitted(start, stages, n - 1);
    }
  }

  /** A record at or above the running maximum is handed on and may raise the maximum. */
  lemma StepAdmits(env: Env, p: Progress, st: Staged)
    requires p.failure.None? && st.ts.Some? && p.current.Some? && st.ts.value >= p.current.value
    ensures Step(env, p, Ok(st)) == Progress(p.events + PassEvents(env, st), p.count + (if env.selected then 1 else 0),
      Some(if st.ts.value > p.current.value then st.ts.value else p.current.value), None)
  {
  }

  /** A record below the running maximum changes nothing. */
  lemma StepSkips(env: Env, p: Progress, st: Staged)
    requires p.failure.None? && st.ts.Some? && p.current.Some? && st.ts.value < p.current.value
    ensures Step(env, p, Ok(st)) == p
  {
  }

  /** Concatenation of logs is associative. */
  lemma AppendAssociative(a: seq<Event>, b: seq<Event>, c: seq<Event>)
    ensures (a + b) + c == a + (b + c)
  {
  }

  /** The run over one more record is one more iteration. */
  lemma RunExtends(env: Env, start: Option<int>, stages: seq<Result<Staged, StreamError>>, i: nat)
    requires i < |stages|
    ensures Run(env, start, stages[..i + 1]) == Step(env, Run(env, start, stages[..i]), stages[i])
  {
    assert stages[..i + 1][..i] == stages[..i];
  }

  /** Once an iteration has raised, the rest of the records change nothing. */
  lemma {:induction false} RunStaysFailed(env: Env, start: Option<int>, stages: seq<Result<Staged, StreamError>>, k: nat)
    requires k <= |stages| && Run(env, start, stages[..k]).failure.Some?
    ensures Run(env, start, stages) == Run(env, start, stages[..k])
    decreases |stages| - k
  {
    if k < |stages| {
      assert stages[..k + 1][..k] == stages[..k];
      RunStaysFailed(env, start, stages, k + 1);
    } else {
      assert stages[..k] == stages;
    }
  }

  /** One iteration keeps the running maximum or raises it. */
  lemma StepKeepsTheMaximum(env: Env, p: Progress, stage: Result<Staged, StreamError>)
    requires p.current.Some?
    ensures Step(env, p, stage).current.Some? && p.current.value <= Step(env, p, stage).current.value
  {
  }

  /** The running maximum never decreases. */
  lemma {:induction false} RunningMaximumNeverDecreases(env: Env, start: int, stages: seq<Result<Staged, StreamError>>, i: nat, j: nat)
    requires i <= j <= |stages|
    ensures Run(env, Some(start), stages[..i]).current.Some?
    ensures Run(env, Some(start), stages[..j]).current.Some?
    ensures Run(env, Some(start), stages[..i]).current.value <= Run(env, Some(start), stages[..j]).current.value
    decreases j
  {
    if j == 0 {
      assert stages[..i] == stages[..j];
    } else {
      RunningMaximumNeverDecreases(env, start, stages, if i < j then i else j - 1, j - 1);
      assert stages[..j][..j - 1] == stages[..j - 1];
      StepKeepsTheMaximum(env, Run(env, Some(start), stages[..j - 1]), stages[j - 1]);
    }
  }

  /** The events without the written records: what an unselected stream hands on. */
  function ChildOnly(events: seq<Event>): seq<Event> {
    if |events| == 0 then []
    else (if events[0].ChildSynced? then [events[0]] else []) + ChildOnly(events[1..])
  }

  lemma {:induction false} ChildOnlyAppend(a: seq<Event>, b: seq<Event>)
    ensures ChildOnly(a + b) == ChildOnly(a) + ChildOnly(b)
    decreases |a|
  {
    if |a| > 0 {
      assert (a + b)[0] == a[0];
      assert (a + b)[1..] == a[1..] + b;
      ChildOnlyAppend(a[1..], b);
    } else {
      assert a + b == b;
    }
  }

  lemma {:induction false} ChildOnlyOfChildEvents(childIds: seq<string>, record: Json)
    ensures ChildOnly(ChildEvents(childIds, record)) == ChildEvents(childIds, record)
    decreases |childIds|
  {
    if |childIds| > 0 {
      var es := ChildEvents(childIds, record);
      assert es[1..] == ChildEvents(childIds[1..], record);
      ChildOnlyOfChildEvents(childIds[1..], record);
      assert es == [es[0]] + es[1..];
    }
  }

  /** The unselected loop's state shadows the selected one's: same maximum and failure, nothing counted, the child syncs only. */
  predicate Shadows(unsel: Progress, sel: Progress) {
    unsel.current == sel.current && unsel.failure == sel.failure && unsel.count == 0 &&
    unsel.events == ChildOnly(sel.events)
  }

  /** One iteration keeps the unselected loop in the selected loop's shadow. */
  lemma ShadowsStep(env: Env, unsel: Progress, sel: Progress, stage: Result<Staged, StreamError>)
    requires Shadows(unsel, sel)
    ensures Shadows(Step(env.(selected := false), unsel, stage), Step(env.(selected := true), sel, stage))
  {
    var on, off := env.(selected := true), env.(selected := false);
    if sel.failure.None? && stage.Ok? && stage.value.ts.Some? && sel.current.Some? && stage.value.ts.value >= sel.current.value {
      var st := stage.value;
      var children := ChildEvents(env.childIds, st.modified);
      var next := Some(if st.ts.value > sel.current.value then st.ts.value else sel.current.value);
      assert PassEvents(on, st) == [Emitted(st.transformed)] + children;
      assert PassEvents(off, st) == children;
      assert Step(on, sel, stage) == Progress(sel.events + PassEvents(on, st), sel.count + 1, next, None);
      assert Step(off, unsel, stage) == Progress(unsel.events + children, 0, next, None);
      ChildOnlyAppend(sel.events, PassEvents(on, st));
      ChildOnlyAppend([Emitted(st.transformed)], children);
      ChildOnlyOfChildEvents(env.childIds, st.modified);
      assert ChildOnly([Emitted(st.transformed)]) == [];
      assert [] + children == children;
    } else if sel.failure.None? && stage.Err? {
      assert Step(on, sel, stage) == sel.(failure := Some(stage.error));
    } else if sel.failure.None? && (stage.value.ts.None? || sel.current.None?) {
      assert Step(on, sel, stage) == sel.(failure := Some(TypeError));
    } else {
      assert Step(on, sel, stage) == sel && Step(off, unsel, stage) == unsel;
    }
  }

  /**
   * Selection decides only the writes: an unselected stream keeps the same running
   * maximum, fails the same way, counts nothing, and syncs the children for the
   * same records in the same order.
   */
  lemma {:induction false} ChildrenSyncRegardlessOfSelection(env: Env, start: Option<int>, stages: seq<Result<Staged, StreamError>>)
    ensures var sel := Run(env.(selected := true), start, stages);
      var unsel := Run(env.(selected := false), start, stages);
      unsel.current == sel.current && unsel.failure == sel.failure && unsel.count == 0 &&
      unsel.events == ChildOnly(sel.events)
    decreases |stages|
  {
    if |stages| > 0 {
      var init := stages[..|stages| - 1];
      ChildrenSyncRegardlessOfSelection(env, start, init);
      ShadowsStep(env, Run(env.(selected := false), start, init), Run(env.(selected := true), start, init), stages[|stages| - 1]);
    }
  }

  /** A record whose timestamp equals the bookmark's is written again, then handed to the children. */
  lemma TieIsWrittenAgain(env: Env, start: int, st: Staged)
    requires env.selected && st.ts == Some(start)
    ensures Run(env, Some(start), [Ok(st)]) ==
      Progress([Emitted(st.transformed)] + ChildEvents(env.childIds, st.modified), 1, Some(start), None)
  {
    var stages: seq<Result<Staged, StreamError>> := [Ok(st)];
    assert stages[..0] == [];
  }

  /** `FullTableStream.get_records`: the reply itself when it is a dict; otherwise `raw_records` was never bound. */
  function FullTableRecords(verb: string, reply: Client.HttpResponse): (r: Result<seq<Json>, StreamError>)
    ensures r.Ok? <==> Client.SendOutcome(verb, reply).Ok? && Client.SendOutcome(verb, reply).value.Obj?
    ensures r.Ok? ==> r.value == [Client.SendOutcome(verb, reply).value] && reply.body == Client.Parsed(r.value[0])
    ensures Client.SendOutcome(verb, reply).Ok? && !r.Ok? ==> r == Err(UnboundLocalError("raw_records"))
  {
    match Client.SendOutcome(verb, reply)
    case Err(e) => Err(RequestFailed(e))
    case Ok(response) => if response.Obj? then Ok([response]) else Err(UnboundLocalError("raw_records"))
  }

  /** The full-table record loop: every record is written (when selected) and handed to every child. */
  function FullTableEvents(env: Env, records: seq<Json>): seq<Event>
    decreases |records|
  {
    if |records| == 0 then []
    else
      FullTableEvents(env, records[..|records| - 1]) + FullTableRecordEvents(env, records[|records| - 1])
  }

  /** What one full-table record causes: its write (when selected), then its child syncs. */
  function FullTableRecordEvents(env: Env, record: Json): seq<Event> {
    (if env.selected then [Emitted(env.hooks.transform(record))] else []) + ChildEvents(env.childIds, record)
  }

  /** The full-table loop over one more record. */
  lemma FullTableExtends(env: Env, records: seq<Json>, i: nat)
    requires i < |records|
    ensures FullTableEvents(env, records[..i + 1]) == FullTableEvents(env, records[..i]) + FullTableRecordEvents(env, records[i])
  {
    assert records[..i + 1][..i] == records[..i];
  }

  lemma FullTableRecordFacts(env: Env, record: Json)
    ensures EmittedCount(FullTableRecordEvents(env, record)) == if env.selected then 1 else 0
    ensures ChildOnly(FullTableRecordEvents(env, record)) == ChildEvents(env.childIds, record)
  {
    var own: seq<Event> := if env.selected then [Emitted(env.hooks.transform(record))] else [];
    var children := ChildEvents(env.childIds, record);
    EmittedCountAppend(own, children);
    ChildEventsEmitNothing(env.childIds, record);
    ChildOnlyAppend(own, children);
    ChildOnlyOfChildEvents(env.childIds, record);
    assert ChildOnly(own) == [];
    assert EmittedCount(own) == if env.selected then 1 else 0;
  }

  /**
   * The full-table loop writes and counts every record when selected and none
   * otherwise, with no test on any bookmark, and hands each record to each child.
   */
  lemma {:induction false} FullTableWritesEveryRecord(env: Env, records: seq<Json>)
    ensures EmittedCount(FullTableEvents(env, records)) == if env.selected then |records| else 0
    ensures ChildOnly(FullTableEvents(env, records)) == FullTableChildEvents(env.childIds, records)
    decreases |records|
  {
    if |records| > 0 {
      var n := |records| - 1;
      var init := FullTableEvents(env, records[..n]);
      FullTableWritesEveryRecord(env, records[..n]);
      assert FullTableEvents(env, records) == init + FullTableRecordEvents(env, records[n]);
      EmittedCountAppend(init, FullTableRecordEvents(env, records[n]));
      ChildOnlyAppend(init, FullTableRecordEvents(env, records[n]));
      FullTableRecordFacts(env, records[n]);
    }
  }

  /** Each record handed to each child, record by record. */
  function FullTableChildEvents(childIds: seq<string>, records: seq<Json>): seq<Event>
    decreases |records|
  {
    if |records| == 0 then [] else FullTableChildEvents(childIds, records[..|records| - 1]) + ChildEvents(childIds, records[|records| - 1])
  }
}
