/** The Python values that the LangChain autologging layer inspects, and the
    failure-carrying wrappers used by the rest of the model.

    Only the distinctions the autologging code actually tests are kept:
    `is None`, `isinstance(_, str)`, `isinstance(_, dict)`,
    `isinstance(_, list)`, and the `page_content`/`metadata` attributes of a
    retrieved document. Everything else (numbers, tuples, callback handler
    objects, ...) is an opaque `Object`.
 */
module Values {

  /** An optional value: a Python attribute or lookup that may be absent. */
  datatype Option<+T> = None | Some(value: T)

  /** A value or the error a Python function would have raised instead. */
  datatype Result<+T, +E> = Ok(value: T) | Err(error: E)

  /** A Python value. Dictionary keys are strings and their order is not kept. */
  datatype Value =
    | NoneValue
    | Str(s: string)
    | Dict(entries: map<string, Value>)
    | List(items: seq<Value>)
    | Doc(pageContent: string, metadata: map<string, Value>)
    | Object(id: nat)

  /** The names of the three inference entry points that autologging patches. */
  const CallFn: string := "__call__"
  const InvokeFn: string := "invoke"
  const RetrieveFn: string := "get_relevant_documents"

  /** The entry points autologging patches; every other name is unsupported. */
  predicate Supported(fn: string)
  {
    fn == CallFn || fn == InvokeFn || fn == RetrieveFn
  }

  /** A positional/keyword argument pair as passed to an inference function. */
  datatype Call = Call(args: seq<Value>, kwargs: map<string, Value>)

  /** Python collapses "no result" and "the result is None" into one value. */
  function OrNone(o: Option<Value>): Value
  {
    match o
    case None => NoneValue
    case Some(v) => v
  }
}
