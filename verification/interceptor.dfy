/** One intercepted inference call (`patched_inference`) as a step function
    over the per-instance bookkeeping, and sequences of such calls.

    The tracking backend is abstracted away: the ambient active run, the run
    id the callback resolves after `flush_tracker`, the autologging settings,
    whether the instance accepts new attributes (`_update_langchain_model_config`),
    the fresh `uuid4().hex` token and the original function's result are all
    inputs; the backend writes (`set_tag`, `log_model`, `log_table`) are
    returned as an event trace.
 */
module Interceptor {
  import opened Values
  import opened InputExtractor
  import opened OutputCombiner
  import opened CallbackInjector

  /** The attributes autologging attaches to a model instance: `Some`/`true`
      means the attribute is set (`hasattr`). */
  datatype State = State(runId: Option<string>, sessionId: Option<string>, modelLogged: bool)

  /** A model instance nothing has been attached to yet. */
  const Fresh: State := State(None, None, false)

  /** The `langchain` autologging configuration read during the call; `tags`
      is what `_resolve_extra_tags` returns, in iteration order. */
  datatype Settings = Settings(
    logModels: bool,
    logInputExamples: bool,
    logModelSignatures: bool,
    logInferenceHistory: bool,
    registeredModelName: Option<string>,
    tags: seq<(string, string)>)

  /** Everything one intercepted call depends on besides the instance state. */
  datatype Invocation = Invocation(
    fn: string,
    call: Call,
    settings: Settings,
    firstParam: Option<string>,  // first parameter of the inference method's signature
    observer: Value,             // the freshly built callback handler
    ambient: Option<string>,     // `mlflow.active_run()`'s run id
    resolved: string,            // `mlflow_callback.mlflg.run_id` after the flush
    mutable: bool,               // `_update_langchain_model_config(self)`
    token: string,               // `uuid.uuid4().hex`
    result: Value)               // what the original function returns

  /** The writes to the tracking backend. */
  datatype Event =
    | SetTag(run: string, key: string, value: string)
    | LogModel(run: string, inputExample: Value, registeredModelName: Option<string>)
    | LogTable(run: string, record: Record, file: string)

  const HistoryFile: string := "inference_history.json"

  /** Why the intercepted call raised: the injection raised, its `None` result
      could not be unpacked (unknown entry point), `self.session_id` was read
      while unset, or the combiner raised. */
  datatype StepError =
    | InjectFailed(e: InjectError)
    | NotUnpackable
    | SessionUnbound
    | CombineFailed(c: CombineError)

  /** The outcome of one call: the new instance state, the backend writes, the
      run id the callback was built with, the call forwarded to the original
      function (if it was reached) and what the patched function returns or
      raises. */
  datatype StepResult = StepResult(
    state: State,
    events: seq<Event>,
    passedRunId: Option<string>,
    forwarded: Option<Call>,
    outcome: Result<Value, StepError>)

  /** The run id handed to the callback: the instance's bound run, else the
      ambient active run, else none (lines 161-163). */
  function PassedRunId(s: State, ambient: Option<string>): Option<string>
  {
    if s.runId.Some? then s.runId else ambient
  }

  /** One `set_tag` per resolved tag, against the resolved run. */
  function TagEvents(run: string, tags: seq<(string, string)>): (evs: seq<Event>)
    ensures |evs| == |tags|
    ensures forall i :: 0 <= i < |tags| ==> evs[i] == SetTag(run, tags[i].0, tags[i].1)
  {
    if |tags| == 0 then [] else [SetTag(run, tags[0].0, tags[0].1)] + TagEvents(run, tags[1..])
  }

  /** Whether this call logs the model (line 183-184). */
  predicate LogsModel(s: State, inv: Invocation)
  {
    inv.settings.logModels && !s.modelLogged && inv.fn != RetrieveFn
  }

  /** Binds the run and session ids only where they are not set yet
      (lines 223-227). */
  function Bind(s: State, run: string, token: string): State
  {
    s.(runId := if s.runId.Some? then s.runId else Some(run),
       sessionId := if s.sessionId.Some? then s.sessionId else Some(token))
  }

  /** One intercepted call. */
  function Step(s: State, inv: Invocation): (r: StepResult)
    // the callback gets the bound run id, else the ambient run's, else none
    ensures s.runId.Some? ==> r.passedRunId == s.runId
    ensures s.runId.None? ==> r.passedRunId == inv.ambient
    // nothing that is set is ever unset or overwritten
    ensures s.runId.Some? ==> r.state.runId == s.runId
    ensures s.sessionId.Some? ==> r.state.sessionId == s.sessionId
    ensures s.modelLogged ==> r.state.modelLogged
    // without mutation the instance is left as it was
    ensures !inv.mutable ==> r.state == s
    // the patched function returns the original result unchanged, if anything
    ensures r.outcome.Ok? ==> r.outcome.value == inv.result
    // a call that never reaches the original function writes and binds nothing
    ensures r.forwarded.None? ==> r.state == s && r.events == [] && r.outcome.Err?
  {
    var passed := PassedRunId(s, inv.ambient);
    match Inject(inv.fn, inv.observer, inv.call)
    case Raised(e) => StepResult(s, [], passed, None, Err(InjectFailed(e)))
    case FellThrough => StepResult(s, [], passed, None, Err(NotUnpackable))
    case Injected(call) =>
      var run := inv.resolved;
      var st := inv.settings;
      var logs := LogsModel(s, inv);
      var example :=
        if logs && st.logInputExamples then OrNone(ExtractInput(inv.fn, inv.firstParam, call)) else NoneValue;
      var modelEvents :=
        if logs then TagEvents(run, st.tags) + [LogModel(run, example, st.registeredModelName)] else [];
      var s1 := if logs && inv.mutable then s.(modelLogged := true) else s;
      var s2 := if inv.mutable then Bind(s1, run, inv.token) else s1;
      if !st.logInferenceHistory then
        StepResult(s2, modelEvents, passed, Some(call), Ok(inv.result))
      else
        var input := if example.NoneValue? then OrNone(ExtractInput(inv.fn, inv.firstParam, call)) else example;
        if s2.sessionId.None? then
          StepResult(s2, modelEvents, passed, Some(call), Err(SessionUnbound))
        else
          match Combine(input, inv.result, s2.sessionId.value, inv.fn)
          case Err(e) => StepResult(s2, modelEvents, passed, Some(call), Err(CombineFailed(e)))
          case Ok(rec) =>
            StepResult(s2, modelEvents + [LogTable(run, rec, HistoryFile)], passed, Some(call), Ok(inv.result))
  }

  /** A sequence of calls on one instance: the final state and every backend
      write, in order. */
  function Run(s: State, invs: seq<Invocation>): (State, seq<Event>)
    decreases |invs|
  {
    if |invs| == 0 then (s, [])
    else
      var r := Step(s, invs[0]);
      var rest := Run(r.state, invs[1..]);
      (rest.0, r.events + rest.1)
  }

  /** The number of `log_model` writes in a trace. */
  function ModelLogs(evs: seq<Event>): nat
  {
    if |evs| == 0 then 0 else (if evs[0].LogModel? then 1 else 0) + ModelLogs(evs[1..])
  }

  /* ----- one call ----- */

  /** With mutation permitted, a call that reaches the original function binds
      the resolved run id and the fresh token where nothing was bound, and marks
      the model logged exactly when it logged it. */
  lemma StepBinds(s: State, inv: Invocation)
    requires inv.mutable && Step(s, inv).forwarded.Some?
    ensures Step(s, inv).state.runId == Some(if s.runId.Some? then s.runId.value else inv.resolved)
    ensures Step(s, inv).state.sessionId == Some(if s.sessionId.Some? then s.sessionId.value else inv.token)
    ensures Step(s, inv).state.modelLogged == (s.modelLogged || LogsModel(s, inv))
  {
  }

  /** The model is logged (once, after its tags) exactly when logging is on,
      the instance is not marked, the entry point is not retrieval and the
      original function was reached; a retrieval call never logs it. */
  lemma {:induction false} StepModelLogs(s: State, inv: Invocation)
    ensures ModelLogs(Step(s, inv).events) == if LogsModel(s, inv) && Step(s, inv).forwarded.Some? then 1 else 0
    ensures inv.fn == RetrieveFn ==> ModelLogs(Step(s, inv).events) == 0
  {
    var r := Step(s, inv);
    if LogsModel(s, inv) && r.forwarded.Some? {
      var tags := TagEvents(inv.resolved, inv.settings.tags);
      var m := LogModel(inv.resolved, r.events[|tags|].inputExample, inv.settings.registeredModelName);
      NoModelLogsInTags(inv.resolved, inv.settings.tags);
      assert r.events[..|tags| + 1] == tags + [m];
      ModelLogsAppend(tags, [m]);
      if inv.settings.logInferenceHistory && r.outcome.Ok? {
        ModelLogsAppend(tags + [m], [r.events[|r.events| - 1]]);
        assert r.events == tags + [m] + [r.events[|r.events| - 1]];
      } else {
        assert r.events == tags + [m];
      }
    } else if r.events != [] {
      assert r.forwarded.Some? && |r.events| == 1 && r.events[0].LogTable?;
    }
  }

  lemma {:induction false} ModelLogsAppend(a: seq<Event>, b: seq<Event>)
    ensures ModelLogs(a + b) == ModelLogs(a) + ModelLogs(b)
  {
    if |a| > 0 {
      assert (a + b)[1..] == a[1..] + b;
      ModelLogsAppend(a[1..], b);
    } else {
      assert a + b == b;
    }
  }

  lemma {:induction false} NoModelLogsInTags(run: string, tags: seq<(string, string)>)
    ensures ModelLogs(TagEvents(run, tags)) == 0
  {
    if |tags| > 0 {
      NoModelLogsInTags(run, tags[1..]);
      assert TagEvents(run, tags)[1..] == TagEvents(run, tags[1..]);
    }
  }

  /** The tags are written only in the call that logs the model: a call that
      writes any `set_tag` is one that passed the model-logging gate and logs
      the model in that same call. */
  lemma StepTagsOnlyWithModel(s: State, inv: Invocation)
    ensures (exists e :: e in Step(s, inv).events && e.SetTag?) ==> LogsModel(s, inv) && ModelLogs(Step(s, inv).events) == 1
  {
    StepModelLogs(s, inv);
  }

  /** Reading `self.session_id` at line 239 raises exactly when history logging
      is on and no session id is bound after the call's own binding step. */
  lemma StepSessionUnbound(s: State, inv: Invocation)
    requires inv.settings.logInferenceHistory && Step(s, inv).forwarded.Some?
    ensures Step(s, inv).state.sessionId.None? <==> Step(s, inv).outcome == Err(SessionUnbound)
  {
  }

  /** An instance that never accepts new attributes has no session id, so every
      call that reaches the original function with history logging on raises. */
  lemma ImmutableHistoryRaises(inv: Invocation)
    requires !inv.mutable && inv.settings.logInferenceHistory && Step(Fresh, inv).forwarded.Some?
    ensures Step(Fresh, inv).outcome == Err(SessionUnbound)
  {
  }

  /** The original function is reached exactly when injection succeeds, and it
      receives the injected call; an unknown entry point fails on unpacking the
      injector's `None`; without history logging a reached call returns the
      original result. */
  lemma StepForwardsInjectedCall(s: State, inv: Invocation)
    ensures Step(s, inv).forwarded.Some? <==> Inject(inv.fn, inv.observer, inv.call).Injected?
    ensures Inject(inv.fn, inv.observer, inv.call).Injected?
            ==> Step(s, inv).forwarded == Some(Inject(inv.fn, inv.observer, inv.call).call)
    ensures !Supported(inv.fn) ==> Step(s, inv).outcome == Err(NotUnpackable)
    ensures Step(s, inv).forwarded.Some? && !inv.settings.logInferenceHistory ==> Step(s, inv).outcome == Ok(inv.result)
  {
  }

  /** Injecting the observer does not disturb the input the history records:
      extraction sees the same value before and after injection. */
  lemma InjectKeepsInput(fn: string, firstParam: Option<string>, observer: Value, call: Call)
    requires Inject(fn, observer, call).Injected?
    ensures ExtractInput(fn, firstParam, Inject(fn, observer, call).call) == ExtractInput(fn, firstParam, call)
  {
  }

  /** Every table written is aligned, goes to `inference_history.json` of the
      resolved run and carries the instance's session id. */
  lemma StepHistoryRecords(s: State, inv: Invocation)
    ensures forall e :: e in Step(s, inv).events && e.LogTable? ==>
              && e.run == inv.resolved && e.file == HistoryFile && Aligned(e.record)
              && Step(s, inv).state.sessionId == Some(e.record.sessionId)
  {
  }

  /** With history logging on and a session bound, the table written combines
      the input extracted from the call's arguments (the same value before and
      after the observer is injected; in the source, read after the original
      has returned) with the original result; the call raises exactly when that
      combination fails. */
  lemma StepLogsExtractedInput(s: State, inv: Invocation)
    requires inv.settings.logInferenceHistory
    requires Step(s, inv).forwarded.Some? && Step(s, inv).state.sessionId.Some?
    ensures var r := Step(s, inv);
            var c := Combine(OrNone(ExtractInput(inv.fn, inv.firstParam, inv.call)), inv.result, r.state.sessionId.value, inv.fn);
            && (r.outcome.Ok? <==> c.Ok?)
            && (c.Ok? ==> r.events[|r.events| - 1] == LogTable(inv.resolved, c.value, HistoryFile))
            && (c.Err? ==> r.outcome == Err(CombineFailed(c.error)))
  {
    InjectKeepsInput(inv.fn, inv.firstParam, inv.observer, inv.call);
  }

  /* ----- sequences of calls ----- */

  /** Once the model is marked logged, no later call logs it. */
  lemma {:induction false} NoModelLogsOnceMarked(s: State, invs: seq<Invocation>)
    requires s.modelLogged
    ensures ModelLogs(Run(s, invs).1) == 0
    decreases |invs|
  {
    if |invs| > 0 {
      var r := Step(s, invs[0]);
      StepModelLogs(s, invs[0]);
      NoModelLogsOnceMarked(r.state, invs[1..]);
      ModelLogsAppend(r.events, Run(r.state, invs[1..]).1);
    }
  }

  /** Once the model is marked logged, no later call writes its tags again. */
  lemma {:induction false} NoTagsOnceMarked(s: State, invs: seq<Invocation>)
    requires s.modelLogged
    ensures forall e :: e in Run(s, invs).1 ==> !e.SetTag?
    decreases |invs|
  {
    if |invs| > 0 {
      var r := Step(s, invs[0]);
      StepTagsOnlyWithModel(s, invs[0]);
      NoTagsOnceMarked(r.state, invs[1..]);
      assert Run(s, invs).1 == r.events + Run(r.state, invs[1..]).1;
    }
  }

  /** With mutation permitted on every call, the model is logged at most once
      per instance, and never again once marked. */
  lemma {:induction false} ModelLoggedAtMostOnce(s: State, invs: seq<Invocation>)
    requires forall i :: 0 <= i < |invs| ==> invs[i].mutable
    ensures ModelLogs(Run(s, invs).1) <= if s.modelLogged then 0 else 1
    decreases |invs|
  {
    if |invs| > 0 {
      var r := Step(s, invs[0]);
      StepModelLogs(s, invs[0]);
      ModelLogsAppend(r.events, Run(r.state, invs[1..]).1);
      if ModelLogs(r.events) == 1 {
        StepBinds(s, invs[0]);
        NoModelLogsOnceMarked(r.state, invs[1..]);
      } else {
          ModelLoggedAtMostOnce(r.state, invs[1..]);
      }
    }
  }

  /** Without mutation the marker is never set, so every eligible call logs the
      model again: two `invoke` calls log it twice. */
  lemma ImmutableLogsTwice(inv: Invocation)
    requires inv.fn == InvokeFn && !inv.mutable && inv.settings.logModels
    requires !inv.settings.logInferenceHistory && inv.settings.tags == []
    requires GetOrNone(inv.call.kwargs, "config").NoneValue?
    ensures ModelLogs(Run(Fresh, [inv, inv]).1) == 2
  {
    var r := Step(Fresh, inv);
    assert r.state == Fresh;
    assert r.events == [LogModel(inv.resolved, r.events[0].inputExample, inv.settings.registeredModelName)];
    assert [inv, inv][1..] == [inv];
    assert [inv][1..] == [];
    assert Run(Fresh, [inv]).1 == r.events + [];
    assert Run(Fresh, [inv, inv]).1 == r.events + r.events;
    ModelLogsAppend(r.events, r.events);
  }

  /** A bound run id survives any sequence of calls and is what every call
      hands to its callback. */
  lemma {:induction false} RunIdNeverOverwritten(s: State, invs: seq<Invocation>)
    requires s.runId.Some?
    ensures Run(s, invs).0.runId == s.runId
    ensures forall i :: 0 <= i < |invs| ==> Step(RunState(s, invs[..i]), invs[i]).passedRunId == s.runId
    decreases |invs|
  {
    if |invs| > 0 {
      var r := Step(s, invs[0]);
      RunIdNeverOverwritten(r.state, invs[1..]);
      forall i | 0 <= i < |invs|
        ensures Step(RunState(s, invs[..i]), invs[i]).passedRunId == s.runId
      {
        if i > 0 {
          assert invs[..i][1..] == invs[1..][..i - 1];
          assert invs[i] == invs[1..][i - 1];
        }
      }
    }
  }

  /** The state after a prefix of calls. */
  function RunState(s: State, invs: seq<Invocation>): State
  {
    Run(s, invs).0
  }

  /** A bound session id likewise survives any sequence of calls. */
  lemma {:induction false} SessionIdNeverOverwritten(s: State, invs: seq<Invocation>)
    requires s.sessionId.Some?
    ensures Run(s, invs).0.sessionId == s.sessionId
    decreases |invs|
  {
    if |invs| > 0 {
      SessionIdNeverOverwritten(Step(s, invs[0]).state, invs[1..]);
    }
  }

  /** The first call on a fresh instance with no active run lets the callback
      open a run ("r1"); the instance keeps "r1" and the fresh session token,
      and the second call hands "r1" to its callback and leaves both as they
      are. */
  lemma TwoCallScenario(first: Invocation, second: Invocation)
    requires first.ambient == None && first.resolved == "r1" && first.mutable
    requires Inject(first.fn, first.observer, first.call).Injected?
    ensures Step(Fresh, first).passedRunId == None
    ensures Step(Fresh, first).state.runId == Some("r1")
    ensures Step(Fresh, first).state.sessionId == Some(first.token)
    ensures Step(Step(Fresh, first).state, second).passedRunId == Some("r1")
    ensures Step(Step(Fresh, first).state, second).state.runId == Some("r1")
    ensures Step(Step(Fresh, first).state, second).state.sessionId == Some(first.token)
  {
  }
}
