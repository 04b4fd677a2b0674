# LangChain autologging: call interception and run bookkeeping

This project models the core of MLflow's LangChain autologging in Dafny: `mlflow/langchain/_langchain_autolog.py`. When autologging is on, every call to a chain's `invoke`, `__call__` or `get_relevant_documents` goes through `patched_inference`, which does four things:

- It attaches an MLflow callback handler to the call. The handler goes into the `config` mapping for `invoke` and into the `callbacks` keyword for the other two.
- It decides which run the handler logs into.
- It logs the model, with its tags, at most once per chain instance that accepts new attributes. Otherwise every eligible call logs it again.
- It writes the call's input and output to `inference_history.json`.

The model has five modules, one per component:

- `Values`: the Python values the code inspects. These are `None`, strings, dictionaries, lists, retrieved documents and opaque objects. The module also defines `Option`, `Result`, the argument pair `Call` and the three entry-point names.
- `InputExtractor`: `_get_input_data_from_function`. It maps each entry point to its input parameter and checks that parameter against the method's first parameter. The keyword argument wins over the first positional argument. Every failure is soft (`None`).
- `OutputCombiner`: `_combine_input_and_output`. It first rewrites retrieved documents into `{page_content, metadata}` rows. It then dispatches on the shape of the input and raises a length or type error where the source does.
- `CallbackInjector`: `_inject_mlflow_callback`, returning the updated keyword map instead of mutating it.
- `Interceptor`: `patched_inference` as a step function. It takes an instance state `{runId, sessionId, modelLogged}` to a new state. It also returns the trace of backend writes (`SetTag`, `LogModel`, `LogTable`), the run id handed to the callback, the call forwarded to the original function, and the returned or raised outcome. `Run` folds `Step` over a sequence of calls, so properties across calls ("logged at most once", "never overwritten") can be stated.

Several things are inputs to each call rather than modelled behaviour:

- the tracking backend: the active run and the run id the callback resolves after `flush_tracker`;
- the autologging settings;
- the result of `_update_langchain_model_config` (the `mutable` flag);
- the fresh `uuid4().hex` token;
- the first parameter of the method's signature;
- the original function's result.

Three behaviours of the code are kept exactly as written:

- For an entry point other than the three supported ones, `_inject_mlflow_callback` falls off its end and returns `None`. `patched_inference` then fails when it unpacks that `None` at line 169, before the original function runs. `Step` returns `Err(NotUnpackable)` for it; it is not a no-op.
- Line 239 reads `self.session_id`. That attribute is unset when the instance has never accepted new attributes. This is the error `SessionUnbound`, not a precondition. `StepSessionUnbound` states exactly when it occurs.
- Nothing inside `patched_inference` catches errors from the combiner. They are the call's outcome, raised after the state has been bound and the model logged.

## Model

| member | source | states |
|---|---|---|
| InputExtractor.ExtractInput | mlflow/langchain/_langchain_autolog.py:28-53 | no input for an unsupported name, for a first parameter that differs from the mapped name, and for a missing keyword with no positional arguments; any input returned is the value bound to the first parameter (the keyword if present, else `args[0]`) |
| InputExtractor.InputParamCoversSupported | mlflow/langchain/_langchain_autolog.py:29-35 | the name-to-parameter table has an entry exactly for the three supported entry points |
| InputExtractor.ExtractSucceedsWhenBound | mlflow/langchain/_langchain_autolog.py:38-41 | those three are the only failures: a supported name whose guard holds and that has an argument always yields it |
| InputExtractor.KeywordTakesPrecedence | mlflow/langchain/_langchain_autolog.py:41 | once the keyword is present, the positional arguments do not affect the result |
| InputExtractor.ExtractExamples | mlflow/langchain/_langchain_autolog.py:28-53 | `invoke(input="hello")` gives "hello"; `__call__` with a dictionary as first positional argument gives the dictionary; an unknown name gives nothing |
| OutputCombiner.DocsToRows | mlflow/langchain/_langchain_autolog.py:61 | each document becomes a `{page_content, metadata}` row, preserving length and order |
| OutputCombiner.DocsRowsRoundTrip | mlflow/langchain/_langchain_autolog.py:61 | reading the rows back gives exactly the original documents in order |
| OutputCombiner.RetrievedRows | mlflow/langchain/_langchain_autolog.py:60-61 | the rewrite succeeds exactly for a list of documents or an empty string or dictionary (which iterate as nothing) and otherwise raises; a list becomes exactly one `{page_content, metadata}` row per document in order, which reads back to its documents; an empty string or dictionary becomes the empty list |
| OutputCombiner.Combine | mlflow/langchain/_langchain_autolog.py:56-78 | every record produced has input and output columns of equal length and the given session id; it succeeds exactly when the shaped output and the input are `Combinable` |
| OutputCombiner.CombineWithoutInput | mlflow/langchain/_langchain_autolog.py:62-66 | for every entry point, with no input the record has only the output after the retrieval rewrite: kept as is when it is a list or dictionary, otherwise wrapped into a one-element list |
| OutputCombiner.CombineSingleInput | mlflow/langchain/_langchain_autolog.py:67-68 | for every entry point, a single string or dictionary input gives one-element input and output columns, even when the (rewritten) output is already a list |
| OutputCombiner.CombineBatchInput | mlflow/langchain/_langchain_autolog.py:69-77 | for every entry point, an all-string or all-dictionary list input (the empty list included) succeeds exactly when the (rewritten) output is a list of equal length, both unchanged; otherwise a length error |
| OutputCombiner.CombineUnsupportedInput | mlflow/langchain/_langchain_autolog.py:78 | any other input shape (a mixed list, a document, an opaque value) raises "Unsupported input type" |
| OutputCombiner.CombineRetrieval | mlflow/langchain/_langchain_autolog.py:60-61 | for a retrieval call the output column holds exactly the `{page_content, metadata}` rows of the documents, one per document in order, from which the documents read back |
| OutputCombiner.CombineExamples | mlflow/langchain/_langchain_autolog.py:56-78 | ("hi","bye") gives one-element columns; ["a","b"] against ["c"] is a length error; with no input a dictionary output is not wrapped; a mixed list is unsupported |
| CallbackInjector.Inject | mlflow/langchain/_langchain_autolog.py:97-116 | only the three entry points are handled and other names fall through; positional arguments never change; the callback slot is the only keyword written; `invoke` without a config gets one holding exactly `[observer]` |
| CallbackInjector.InjectAppendsObserver | mlflow/langchain/_langchain_autolog.py:99-115 | the keyword callbacks are the previous keyword callbacks in order with the observer appended last; injection fails exactly when the existing keyword value cannot be extended |
| CallbackInjector.PositionalConfigIgnored | mlflow/langchain/_langchain_autolog.py:98-111 | a `config` passed positionally is not seen: a fresh keyword `config` holding only the observer is added beside it, so the positional callbacks are not among the keyword callbacks |
| CallbackInjector.InjectKeepsConfig | mlflow/langchain/_langchain_autolog.py:106-110 | inside an existing `invoke` config only the `callbacks` entry changes |
| CallbackInjector.InjectLegacyCallbacks | mlflow/langchain/_langchain_autolog.py:112-116 | for `__call__` and `get_relevant_documents` the new `callbacks` is the old list (or the empty one) plus the observer |
| Interceptor.TagEvents | mlflow/langchain/_langchain_autolog.py:206-210 | one `set_tag` per resolved tag, in order, against the callback's run |
| Interceptor.Step | mlflow/langchain/_langchain_autolog.py:161-242 | the callback gets the bound run id, else the active run's, else none; a bound run id, session id or logged marker is never unset or overwritten; without mutation the state is untouched; any value returned is the original result; a call that never reaches the original function writes and binds nothing |
| Interceptor.StepBinds | mlflow/langchain/_langchain_autolog.py:219-227 | with mutation permitted, the resolved run id and the fresh token are bound where nothing was bound, and the marker is set exactly when the model was logged |
| Interceptor.StepModelLogs | mlflow/langchain/_langchain_autolog.py:183-220 | a call logs the model once exactly when model logging is on, the instance is unmarked, the entry point is not retrieval and the original function was reached; a retrieval call never logs it |
| Interceptor.StepTagsOnlyWithModel | mlflow/langchain/_langchain_autolog.py:183-218 | a call writes a `set_tag` only if it passed the model-logging gate of line 183, and then it logs the model exactly once in that same call |
| Interceptor.StepSessionUnbound | mlflow/langchain/_langchain_autolog.py:223-239 | with history logging on, a call that reaches the original raises on reading `self.session_id` exactly when no session id is bound after its own binding step |
| Interceptor.ImmutableHistoryRaises | mlflow/langchain/_langchain_autolog.py:223-239 | on an instance that never accepts new attributes, every call that reaches the original with history logging on raises on the unset session id |
| Interceptor.StepForwardsInjectedCall | mlflow/langchain/_langchain_autolog.py:169-171 | the original function is reached exactly when injection succeeds, with the injected call; an unknown entry point raises on unpacking; without history logging the original result is returned |
| Interceptor.InjectKeepsInput | mlflow/langchain/_langchain_autolog.py:169-193 | extracting the input after the observer was injected gives the same value as before |
| Interceptor.StepHistoryRecords | mlflow/langchain/_langchain_autolog.py:229-240 | every history table written is aligned, goes to `inference_history.json` of the callback's run and carries the instance's session id |
| Interceptor.StepLogsExtractedInput | mlflow/langchain/_langchain_autolog.py:232-240 | the history row combines the input, as the call holds it after the original returns, with the original result; the call raises exactly when that combination fails |
| Interceptor.NoModelLogsOnceMarked | mlflow/langchain/_langchain_autolog.py:183 | once the instance is marked, no later call logs the model |
| Interceptor.NoTagsOnceMarked | mlflow/langchain/_langchain_autolog.py:183-210 | once the instance is marked, no later call writes the model's tags again |
| Interceptor.ModelLoggedAtMostOnce | mlflow/langchain/_langchain_autolog.py:183-220 | across any sequence of calls with mutation permitted, the model is logged at most once, and not at all if already marked |
| Interceptor.ImmutableLogsTwice | mlflow/langchain/_langchain_autolog.py:219-220 | without mutation the marker is never set, so two eligible calls log the model twice |
| Interceptor.RunIdNeverOverwritten | mlflow/langchain/_langchain_autolog.py:161-163 | a bound run id survives any sequence of calls and is the run id every call hands to its callback |
| Interceptor.SessionIdNeverOverwritten | mlflow/langchain/_langchain_autolog.py:226-227 | a bound session id survives any sequence of calls |
| Interceptor.TwoCallScenario | mlflow/langchain/_langchain_autolog.py:223-227 | a first call with no active run that resolves "r1" binds "r1" and the fresh token; a second call hands "r1" to its callback and keeps both |

## Left out

- Version gate (lines 21-24, 154-159): a warning-only comparison against packaged version metadata.
- `_MLflowLangchainCallback`, `ExceptionSafeAbstractClass` and `flush_tracker`. The callback appears only as an opaque `observer` value and as the run id it resolves after the flush (`Invocation.resolved`). The metrics it logs during the call are not modelled.
- Tracking-backend calls (`active_run`, `get_tracking_uri`, `get_autologging_config`, `_resolve_extra_tags`, `set_tag`, `log_model`, `log_table`). These are inputs or trace events. Their own failures, which propagate in the source, are not modelled. Neither is an exception raised by the original inference function.
- Interceptor.Step: the original function's effects on its own arguments are not modelled. Arguments are immutable values here. In the source the input is extracted and deep-copied only after the original returns (lines 193 and 234 follow line 171). A dictionary or list input that the original changes in place is therefore logged, and used as the input example, in its changed form.
- `_update_langchain_model_config` (lines 81-94): a pydantic import and config change. It is the boolean `Invocation.mutable`, and the same value is used for both of its calls (lines 219 and 223).
- `_wrap_func_with_run` (lines 119-125): unused by the modelled code.
- `disable_autologging`: re-entrant suppression is a scoped global flag about nested calls, so nested instrumented calls are not modelled.
- `uuid.uuid4()`, `inspect.signature`, `deepcopy` and logging. They become a token input, the `firstParam` input and the identity on immutable values; warnings and info messages are dropped. `Settings.logModelSignatures` only selects an info message, so it has no effect in the model.
- CallbackInjector.Inject: only keyword arguments are inspected, as in the source (line 98 leaves positional arguments as a to-do). A `config` or `callbacks` passed positionally is therefore not extended, and the call then carries that slot twice. Python would refuse that call with a duplicate-argument error when it reaches line 171, but the model forwards it and does not represent the failure. The source also appends to the caller's own list in place, so the caller's `config`/`callbacks` object is changed as well. The model returns a new keyword map and does not model this aliasing. A `callbacks` value that is a callback manager rather than a list is treated as non-extendable.
- Values: Python dictionaries are modelled with string keys and without key order, and tuples or other iterables are opaque objects. The retrieval rewrite therefore treats every non-list, non-empty output as not iterable into documents.
- `mlflow/models/evaluation/__init__.py`: re-exports only, no logic.
