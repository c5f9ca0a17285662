# whiskerrag types: splitter configuration and storage plugin lifecycle

A Dafny model of two pieces of the whiskerrag type library.

- **Splitter configuration** (`SplitterConfig`, `SplitterProperties`).
  A splitter configuration tells an external chunking engine how to cut a
  document into chunks. There is a base configuration and four document
  types: Markdown, PDF, plain text and JSON. The model has a closed sum type
  `SplitConfig` with one alternative per type. Each alternative carries the
  shared `chunkSize` / `chunkOverlap` fields and its own fields.
  `Make` is the validating constructor. It takes raw fields in which any
  field may be absent, fills in the declared defaults, and returns either
  the configuration or the list of violated rules. Validation has two
  stages, like the pydantic models:
  1. Field checks. Required fields must be present, `chunk_size >= 1`,
     `chunk_overlap >= 0`, and for JSON `split_level >= 1`. Every failing
     field check is reported.
  2. Only when stage 1 passes, the model validators run:
     `chunk_overlap < chunk_size`, then, for JSON only, `array_handling`
     must be "split" or "merge".
  The reference predicate `Valid` states the invariants declaratively. The
  lemmas tie `Make` to it.
- **Plugin lifecycle guard** (`PluginLifecycle`, `LifecycleProperties`).
  A storage plugin starts uninitialized. `EnsureInitialized` runs the
  backend's `init()` only while the plugin is uninitialized. It sets the
  flag only after `init()` has returned. When `init()` raises, the flag
  stays unset and the same error is re-raised. `init()` is backend code, so
  its outcome on each call is a free parameter; every property holds for
  every choice. A call records its observable actions as events
  (`InitStarted`, `InitReturned`, `InitRaised`, `FlagSet`), so the order
  "flag set only after `init()` returned" can be stated. `Run` folds a
  sequence of calls. `CallRepeatedly` is a caller looping over calls.
- **Plugin operation surface** (`PluginContract`). These are the abstract
  storage operations, at signature level: the declared return shape of each
  one. The model records which point lookups may return `None` (task and
  tenant) and which must return an entity (knowledge, space and chunk).

Two details of the source the model keeps:
- Markdown `separators` and `split_regex` are declared `Optional[...]` but
  have no default. Under pydantic v2 this makes them required, though they
  may be given as null. So a Markdown configuration built only from
  defaults is rejected with two `Missing` errors.
- `get_chunk_list` returns a plain list, not a page. The other list
  operations return pages.

## Model

| member | source | states |
|---|---|---|
| SplitterConfig.Make | src/whiskerrag_types/model/splitter.py:6-78 | Construction succeeds exactly when the required fields are present and the filled-in configuration satisfies `Valid`. On success it returns the filled-in fields unchanged: same document type, every supplied field as given. On failure the error list is non-empty, and every error in it names a check that really fails (`CorrectReport`): a field error only for its own failing field, a cross-field error only once every field check passed. No error appears twice: each failing check is reported once. Each field-bound error and each missing-field error appears exactly when that check fails. The overlap error appears exactly when every field check passed and the overlap is not below the size. The array-handling error is reported alone, exactly for a JSON input whose other rules hold and whose mode is not "split" or "merge". |
| SplitterConfig.Fill | src/whiskerrag_types/model/splitter.py:9-71 | Filling in defaults keeps the document type and every supplied field exactly as given, and every absent field takes its declared default (1500, 150, `split_by_page` false, `keep_layout` true, `extract_images` false, "text", keep-separator false, `strip_whitespace` false, split level 1, `preserve_structure` true, "split", no key filters). Together these determine the result. |
| SplitterConfig.ToRaw | src/whiskerrag_types/model/splitter.py:6-78 | Round trip: a configuration re-supplied with every field given is complete and fills back to itself. |
| SplitterConfig.FieldErrors | src/whiskerrag_types/model/splitter.py:9-61 | The field-level stage reports no error exactly when the required fields are present and `chunk_size >= 1`, `chunk_overlap >= 0` and (JSON) `split_level >= 1` hold after defaults. It never reports the same check twice. |
| SplitterConfig.ModelError | src/whiskerrag_types/model/splitter.py:12-78 | The two after-validators pass exactly when overlap < size and, for JSON, `array_handling` is "split" or "merge". With the field bounds met, passing them is being `Valid`. The overlap validator runs first: its error is reported exactly when overlap >= size. Once the overlap rule is met, any failure is the array-handling error naming the given mode, and it only arises for JSON. |
| SplitterConfig.Validate | src/whiskerrag_types/model/splitter.py:12-78 | Validating a typed configuration succeeds exactly when it is `Valid`, and then returns the configuration itself. |
| SplitterProperties.BaseAcceptedIff | src/whiskerrag_types/model/splitter.py:9-16 | A base configuration is accepted iff `chunk_size >= 1`, `chunk_overlap >= 0` and overlap < size. With both bounds met, an overlap at or above the size fails with the overlap error alone. |
| SplitterProperties.AcceptedKeepsOverlapBelowSize | src/whiskerrag_types/model/splitter.py:9-16 | Any accepted configuration of any type has `0 <= chunk_overlap < chunk_size`, hence `chunk_size >= 1`. |
| SplitterProperties.DefaultsAccepted | src/whiskerrag_types/model/splitter.py:9-71 | The defaults (1500, 150) satisfy the base invariant. The base, PDF, text and JSON types are accepted with no field supplied, and they yield exactly the declared defaults. |
| SplitterProperties.MarkdownRequiresItsFields | src/whiskerrag_types/model/splitter.py:19-23 | With nothing supplied, Markdown fails with both fields reported missing. With both supplied (null allowed) and default base fields, it is accepted unchanged. |
| SplitterProperties.JsonArrayHandlingRule | src/whiskerrag_types/model/splitter.py:65-78 | With the other fields valid, a JSON configuration is accepted iff `array_handling` is "split" or "merge". Otherwise the only error names the rejected value. |
| SplitterProperties.JsonSplitLevelBound | src/whiskerrag_types/model/splitter.py:59-61 | Any `split_level` below 1 fails, whatever else is given, with the split-level bound reported. |
| SplitterProperties.JsonNeedsBothRules | src/whiskerrag_types/model/splitter.py:56-78 | A JSON configuration is accepted iff the inherited base invariant, its split-level bound and its array-handling rule all hold. |
| SplitterProperties.PdfTableModeUnchecked | src/whiskerrag_types/model/splitter.py:30-40 | Whether a PDF configuration is accepted depends on the base fields only. Any `table_extract_mode` string is accepted. |
| SplitterProperties.TextKeepSeparatorUnchecked | src/whiskerrag_types/model/splitter.py:43-53 | Whether a text configuration is accepted depends on the base fields only. Every `keep_separator` value (a flag, "start", "end") is accepted. |
| SplitterProperties.ValidationKeepsFields | src/whiskerrag_types/model/splitter.py:12-78 | The validators return the configuration they were given. Whatever construction accepts passes validation again with the same result, and re-supplying the accepted configuration's fields keeps each of them as it was. |
| PluginLifecycle.New | src/whiskerrag_types/interface/db_engine_plugin_interface.py:25-30 | A freshly constructed plugin is not initialized. |
| PluginLifecycle.IsInitialized | src/whiskerrag_types/interface/db_engine_plugin_interface.py:43-45 | `is_initialized` is a read of the state, so it has no effect. It is false exactly in the state a fresh plugin starts in. |
| PluginLifecycle.EnsureInitialized | src/whiskerrag_types/interface/db_engine_plugin_interface.py:32-41 | `init()` is started iff the plugin is uninitialized. An initialized plugin is left as it is, with no events. Afterwards the plugin is initialized iff it was before or `init()` succeeded. The flag is set iff `init()` ran and succeeded, and then only right after `InitReturned`. The call raises iff `init()` ran and failed; it raises the same error and leaves the flag unset. |
| PluginLifecycle.Run | src/whiskerrag_types/interface/db_engine_plugin_interface.py:32-45 | A sequence of calls yields one result and one attempted flag per call. An initialized plugin stays initialized. |
| PluginLifecycle.CallRepeatedly | src/whiskerrag_types/interface/db_engine_plugin_interface.py:32-41 | After N calls on a fresh plugin, it is initialized iff some `init()` succeeded. If so, `init()` ran exactly up to and including the first success, with every earlier run failing. If not, every call ran `init()`. |
| LifecycleProperties.InitializedCallsAreNoOps | src/whiskerrag_types/interface/db_engine_plugin_interface.py:32-33 | Once initialized, any number of further calls run nothing, raise nothing and leave the state unchanged. |
| LifecycleProperties.AttemptsUntilFirstSuccess | src/whiskerrag_types/interface/db_engine_plugin_interface.py:32-41 | From an uninitialized plugin, call i runs `init()` iff every earlier run failed. Failures are retried, and after the first success `init()` never runs again. |
| LifecycleProperties.InitializedIffSomeSuccess | src/whiskerrag_types/interface/db_engine_plugin_interface.py:30-45 | After any sequence of calls, `is_initialized` is true iff it was at the start or some run of `init()` succeeded. |
| LifecycleProperties.FlagSetOnlyAfterInitReturned | src/whiskerrag_types/interface/db_engine_plugin_interface.py:36-37 | In every trace, each flag-set event comes immediately after an `init()`-returned event. |
| LifecycleProperties.FlagSetAtMostOnce | src/whiskerrag_types/interface/db_engine_plugin_interface.py:30-45 | The flag is set at most once in any trace, and never when the plugin was already initialized. So once set it is never set again. That the flag never reverts is stated by `PluginLifecycle.Run` and `LifecycleProperties.InitializedCallsAreNoOps`. |
| LifecycleProperties.FailuresPropagate | src/whiskerrag_types/interface/db_engine_plugin_interface.py:39-41 | A call raises iff it ran `init()` and `init()` failed, and it raises that same error. |
| LifecycleProperties.RetryAfterFailure | src/whiskerrag_types/interface/db_engine_plugin_interface.py:33-41 | After a failed first attempt, the plugin is still uninitialized and the next call starts `init()` again. |
| PluginContract.ReturnShape | src/whiskerrag_types/interface/db_engine_plugin_interface.py:47-203 | Point lookups return one entity, and among them exactly the task and tenant lookups may return `None`. A single entity or `None` is declared exactly for those lookups and for the tenant save and delete. A list or `None` is declared exactly for the space delete and the chunk and task cascade deletes. Paged results are declared exactly for the knowledge, space, task and tenant listings. `get_chunk_list` returns a plain chunk list. |
| PluginContract.PointLookupReply | src/whiskerrag_types/interface/db_engine_plugin_interface.py:72-193 | When the key is absent, a point lookup raises NotFound exactly for knowledge, space and chunk. Task and tenant lookups return `None` instead. Every successful reply fits the declared return shape, and it carries an entity iff one was stored. |
| PluginContract.NullableLookupsAreTaskAndTenant | src/whiskerrag_types/interface/db_engine_plugin_interface.py:72-193 | Among point lookups, the signature allows `None` iff the entity is a task or a tenant. The others are declared to return exactly one entity. |

## Left out

- Concurrency: the model is sequential. Two concurrent first calls of
  `ensure_initialized` can both run `init()` in the source, and that race is
  not modelled. "At most once" is shown for sequential calls only.
- The async/await suspension of `ensure_initialized` and `init()` is not
  modelled. Each call is one atomic step.
- Logging (`logger.info` / `logger.error`) and the `settings` object are
  injected I/O collaborators. They are not modelled.
- PluginLifecycle.EnsureInitialized: assumes the three logger calls inside
  the `try` never raise. If the "initializing" log raised, the call would
  raise without running `init()`. If the "initialized" log raised, the call
  would raise with the flag already set. If the error log raised, its error
  would replace the one from `init()`. The contract and
  `LifecycleProperties.FailuresPropagate` hold only under this assumption.
- SplitterProperties.AcceptedKeepsOverlapBelowSize: holds at construction
  time only. The configuration classes do not enable `validate_assignment`,
  so a field of a built configuration can later be reassigned (for example
  `chunk_overlap = 9999`) without the validators running again. The model
  treats configurations as immutable values and does not model reassignment.
- `init()`, `cleanup()`, `get_db_client()` and every CRUD, search, pagination
  and cascade-delete operation are abstract, with no body in the source. Only
  their declared return shapes are modelled (`PluginContract.ReturnShape`).
  What the data operations do is backend-defined.
- PluginContract.PointLookupReply: the source only declares non-optional
  return types for knowledge, space and chunk lookups. The `NotFound` error
  models "cannot return `None`, so must raise". The actual exception type is
  backend-defined.
- Pydantic mechanics are not modelled: type coercion (for example
  bool-like strings for `keep_separator`), JSON parsing, and error message
  text. Raw fields arrive already typed. `keep_separator` is the
  `KeepSeparator` union of a flag, "start" and "end".
- SplitterConfig.Make: the order of the two model validators (overlap first,
  then array handling) is a modelling choice. When both fail, only the
  overlap error is reported.
- The entity models (Knowledge, Chunk, Task, Tenant, Space, RetrievalChunk,
  page parameters and responses) are not part of this model. Only their
  kinds appear.
