/** Recovering the logical "input" of an intercepted inference call
    (`_get_input_data_from_function`).

    `inspect.signature` is abstracted as `firstParam`: the name of the first
    parameter of the bound inference method, or `None` when it has none
    (where Python's `next(iter(...))` raises `StopIteration`). Every failure
    is soft: the function logs a warning and returns nothing, modelled as
    `None`.
 */
module InputExtractor {
  import opened Values

  /** The name-to-parameter table of the supported entry points. */
  function InputParam(fn: string): Option<string>
  {
    if fn == CallFn then Some("inputs")
    else if fn == InvokeFn then Some("input")
    else if fn == RetrieveFn then Some("query")
    else None
  }

  /** The table covers exactly the supported entry points. */
  lemma InputParamCoversSupported(fn: string)
    ensures Supported(fn) <==> InputParam(fn).Some?
  {
  }

  /** The argument a Python call binds to parameter `p` when `p` is the
      callee's first parameter: the keyword if given, else the first
      positional argument. */
  predicate BindsFirst(p: string, call: Call, v: Value)
  {
    if p in call.kwargs then v == call.kwargs[p]
    else |call.args| > 0 && v == call.args[0]
  }

  /** The input of the call, if it can be recovered. */
  function ExtractInput(fn: string, firstParam: Option<string>, call: Call): (r: Option<Value>)
    // unsupported entry point
    ensures !Supported(fn) ==> r == None
    // the guard: the mapped name must be literally the first parameter
    ensures Supported(fn) && firstParam != InputParam(fn) ==> r == None
    // neither the keyword nor a positional argument is there (`args[0]` raises)
    ensures (forall p :: InputParam(fn) == Some(p) ==> p !in call.kwargs) && |call.args| == 0 ==> r == None
    // otherwise the value bound to the first parameter is returned
    ensures r.Some? ==> Supported(fn) && firstParam == InputParam(fn) && BindsFirst(firstParam.value, call, r.value)
  {
    match InputParam(fn)
    case None => None
    case Some(p) =>
      if firstParam != Some(p) then None
      else if p in call.kwargs then Some(call.kwargs[p])
      else if |call.args| > 0 then Some(call.args[0])
      else None
  }

  /** The three failure cases are the only ones: whenever the entry point is
      supported, the guard holds and some argument is there, extraction
      succeeds. */
  lemma ExtractSucceedsWhenBound(fn: string, firstParam: Option<string>, call: Call)
    requires Supported(fn) && firstParam == InputParam(fn)
    requires firstParam.value in call.kwargs || |call.args| > 0
    ensures ExtractInput(fn, firstParam, call).Some?
    ensures BindsFirst(firstParam.value, call, ExtractInput(fn, firstParam, call).value)
  {
  }

  /** The keyword argument takes precedence: positional arguments do not
      change the result once the keyword is present. */
  lemma KeywordTakesPrecedence(fn: string, firstParam: Option<string>, args1: seq<Value>, args2: seq<Value>, kwargs: map<string, Value>)
    requires Supported(fn) && firstParam == InputParam(fn) && firstParam.value in kwargs
    ensures ExtractInput(fn, firstParam, Call(args1, kwargs)) == ExtractInput(fn, firstParam, Call(args2, kwargs)) == Some(kwargs[firstParam.value])
  {
  }

  /** `invoke(input="hello")` yields "hello"; `__call__({"inputs": "x"})`
      yields the dictionary; an unknown entry point yields nothing. */
  lemma ExtractExamples()
    ensures ExtractInput(InvokeFn, Some("input"), Call([], map["input" := Str("hello")])) == Some(Str("hello"))
    ensures ExtractInput(CallFn, Some("inputs"), Call([Dict(map["inputs" := Str("x")])], map[]))
            == Some(Dict(map["inputs" := Str("x")]))
    ensures ExtractInput("stream", Some("input"), Call([Str("x")], map[])) == None
  {
  }
}
