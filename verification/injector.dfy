/** Attaching the autologging observer to an inference call
    (`_inject_mlflow_callback`).

    `invoke` carries its callbacks inside the `config` mapping (a
    `RunnableConfig`, which is a plain dictionary); `__call__` and
    `get_relevant_documents` take a top-level `callbacks` keyword. The Python
    code appends to the caller's list in place; here the updated keyword map
    is returned instead. Only the keyword arguments are inspected: a `config`
    or `callbacks` passed positionally is not seen (the source leaves this as
    a to-do at line 98).
 */
module CallbackInjector {
  import opened Values

  /** What the Python function does: return the updated pair, fall off the end
      (returning `None`), or raise because the existing configuration is not a
      dictionary or the existing callbacks are not a list. */
  datatype Injection = Injected(call: Call) | FellThrough | Raised(error: InjectError)

  datatype InjectError = ConfigNotMapping | CallbacksNotList

  /** The keyword argument the entry point reads its callbacks from. */
  function CallbackKey(fn: string): string
  {
    if fn == InvokeFn then "config" else "callbacks"
  }

  /** `kwargs.get(key, None)`. */
  function GetOrNone(m: map<string, Value>, key: string): Value
  {
    if key in m then m[key] else NoneValue
  }

  /** A `callbacks` entry read with `get("callbacks", [])`: absent means the
      empty list, a list is taken as is, anything else has no `append`. */
  function CallbackList(m: map<string, Value>): Option<seq<Value>>
  {
    if "callbacks" !in m then Some([])
    else if m["callbacks"].List? then Some(m["callbacks"].items)
    else None
  }

  /** The keyword callbacks of a call: the callbacks held in its keyword
      arguments, read as the entry point reads them; `None` when the stored
      value cannot be extended. A reading independent of how the observer is
      inserted. Callbacks passed positionally are not part of it. */
  function KeywordCallbacks(fn: string, kwargs: map<string, Value>): Option<seq<Value>>
  {
    if fn == InvokeFn then
      match GetOrNone(kwargs, "config")
      case NoneValue => Some([])
      case Dict(cfg) => CallbackList(cfg)
      case _ => None
    else CallbackList(kwargs)
  }

  /** Appends `observer` to the call's callbacks for the supported entry points. */
  function Inject(fn: string, observer: Value, call: Call): (r: Injection)
    // only the three entry points are handled; other names fall through
    ensures r.FellThrough? <==> !Supported(fn)
    // positional arguments are never touched
    ensures r.Injected? ==> r.call.args == call.args
    // the callback slot is the only keyword written
    ensures r.Injected? ==> r.call.kwargs.Keys == call.kwargs.Keys + {CallbackKey(fn)}
    ensures r.Injected? ==> forall k :: k in call.kwargs && k != CallbackKey(fn) ==> r.call.kwargs[k] == call.kwargs[k]
    // without a configuration `invoke` gets a fresh one holding just the observer
    ensures fn == InvokeFn && GetOrNone(call.kwargs, "config").NoneValue?
            ==> r == Injected(Call(call.args, call.kwargs["config" := Dict(map["callbacks" := List([observer])])]))
  {
    if fn == InvokeFn then
      match GetOrNone(call.kwargs, "config")
      case NoneValue =>
        Injected(Call(call.args, call.kwargs["config" := Dict(map["callbacks" := List([observer])])]))
      case Dict(cfg) =>
        (match CallbackList(cfg)
         case None => Raised(CallbacksNotList)
         case Some(cbs) =>
           Injected(Call(call.args, call.kwargs["config" := Dict(cfg["callbacks" := List(cbs + [observer])])])))
      case _ => Raised(ConfigNotMapping)
    else if fn == CallFn || fn == RetrieveFn then
      match CallbackList(call.kwargs)
      case None => Raised(CallbacksNotList)
      case Some(cbs) => Injected(Call(call.args, call.kwargs["callbacks" := List(cbs + [observer])]))
    else FellThrough
  }

  /** The observer ends up last in the keyword callbacks, after the previous
      keyword callbacks in their order; injection fails exactly when the
      existing keyword callbacks cannot be extended. */
  lemma InjectAppendsObserver(fn: string, observer: Value, call: Call)
    requires Supported(fn)
    ensures Inject(fn, observer, call).Injected? <==> KeywordCallbacks(fn, call.kwargs).Some?
    ensures Inject(fn, observer, call).Injected?
            ==> KeywordCallbacks(fn, Inject(fn, observer, call).call.kwargs)
                == Some(KeywordCallbacks(fn, call.kwargs).value + [observer])
  {
    if fn == InvokeFn && GetOrNone(call.kwargs, "config").NoneValue? {
      assert [] + [observer] == [observer];
    }
  }

  /** Inside an existing `invoke` configuration only the `callbacks` entry
      changes. */
  lemma InjectKeepsConfig(observer: Value, call: Call, cfg: map<string, Value>)
    requires "config" in call.kwargs && call.kwargs["config"] == Dict(cfg)
    requires CallbackList(cfg).Some?
    ensures Inject(InvokeFn, observer, call).Injected?
    ensures var cfg' := Inject(InvokeFn, observer, call).call.kwargs["config"];
            && cfg'.Dict?
            && cfg'.entries.Keys == cfg.Keys + {"callbacks"}
            && forall k :: k in cfg && k != "callbacks" ==> cfg'.entries[k] == cfg[k]
  {
  }

  /** For the legacy entry points the new `callbacks` keyword is the old list
      (or the empty one) with the observer appended. */
  lemma InjectLegacyCallbacks(fn: string, observer: Value, cbs: seq<Value>, call: Call)
    requires fn == CallFn || fn == RetrieveFn
    requires "callbacks" !in call.kwargs ==> cbs == []
    requires "callbacks" in call.kwargs ==> call.kwargs["callbacks"] == List(cbs)
    ensures Inject(fn, observer, call) == Injected(Call(call.args, call.kwargs["callbacks" := List(cbs + [observer])]))
  {
  }

  /** A configuration passed positionally, `invoke("hi", {"callbacks": [h]})`,
      is not seen: a fresh keyword `config` holding only the observer is added
      beside it, so the call carries a configuration twice and `h` is not
      among the keyword callbacks. */
  lemma PositionalConfigIgnored(observer: Value, h: Value)
    ensures var positional := Dict(map["callbacks" := List([h])]);
            var r := Inject(InvokeFn, observer, Call([Str("hi"), positional], map[]));
            && r.Injected?
            && r.call.args == [Str("hi"), positional]
            && r.call.kwargs == map["config" := Dict(map["callbacks" := List([observer])])]
            && KeywordCallbacks(InvokeFn, r.call.kwargs) == Some([observer])
  {
  }
}
