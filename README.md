# Memoizable operations in Legion's physical tracing

This project models `MemoizableOp<OP>`, the part of the Legion runtime that decides, for each operation issued inside a trace, whether its dependence analysis runs normally, is recorded into a physical template, or is skipped because a recorded template is replayed.

An operation carries two fields, `memo_state` (`NO_MEMO`, `MEMO_REQ`, `RECORD`, `REPLAY`) and `tpl`, a reference to a physical template.

- `initialize_memoizable` resets both fields.
- `invoke_memoize_operation` asks the mapper whether to memoize. It tells the mapper whether the operation is traced. It rejects a request to memoize an untraced operation. Otherwise it hands the answer to `set_memoize`.
- `set_memoize` moves `NO_MEMO` to `MEMO_REQ` only when memoization was asked for and neither `Runtime::no_tracing` nor `Runtime::no_physical_tracing` is set.
- `execute_dependence_analysis` leaves a `NO_MEMO` operation to the base analysis. A `MEMO_REQ` operation takes the trace's current template, starting one (and putting the trace into recording) when there is none. If that template is replaying, the operation moves to `REPLAY`, registers as physical-only with its generation, resolves speculation and runs the replay analysis, and the base analysis is skipped. Otherwise it moves to `RECORD` and runs the base analysis.
- `get_trace_local_id` returns the operation's trace-local id with the default `DomainPoint`.

Files:

- `wrappers.dfy`: `Option`, `Result` and `Outcome`.
- `memo_spec.dfy` (module `MemoSpec`): the state machine as values. Each step is a function. `Run` applies a sequence of calls to an operation's fields, and lemmas state what holds after any such sequence.
- `tracing.dfy` (module `Tracing`): the trace and its physical trace. They are reduced to the state the operation reads or changes: the trace's mode, and the store's current template, next template id and set of replaying templates.
- `memoizable_op.dfy` (module `Memoizable`): the class `MemoOp`, whose methods update `memoState` and `tpl` in place and are proved against `MemoSpec`. A ghost `log` records, in order, every call that changes the trace or the store or runs an analysis (`set_state_record`, `start_new_template`, `register_physical_only`, `resolve_speculation`, `replay_analysis`, the base analysis); the read-only queries (`get_physical_trace`, `get_current_template`, `is_replaying`, `is_recording`) are not logged. Three client methods play out one operation that records and a later one that replays: `NewRequestedOp` builds a requested operation, `RecordFirst` runs the recording one, and `RecordThenReplay` runs both.

The `DEBUG_LEGION` assertions become preconditions. The assertion at `legion_ops.inl:50` becomes the state precondition of the analysis. The ones at `:55-56` say that a requested operation has a trace; the physical trace is a non-null reference by its type. The assertions at `:69` and `:80` follow from the precondition `ModeAgrees` on the trace's mode and from `StoreValid`, and stay in the method as proved `assert`s. The assertion at `:121` is the precondition of `SetMemoize`. `REPORT_LEGION_ERROR` at `:108-111` becomes a `Fail(InvalidPhysicalTracing)` outcome that leaves the state as it was.

Three intended invariants are checked less strictly by the code than one might expect, and the model follows the code:

- The state checks are meant to hold in every run, but the code checks them only under `DEBUG_LEGION`. The model makes them preconditions.
- The analysis is meant to run once per operation, but the code's assertion admits a repeated call while the state is `NO_MEMO`, and `Run` admits it too.
- `MEMO_REQ` is meant to imply that the operation has a trace. `set_memoize` does not check this; only the mapper path does. `MapperRunKeepsTrace` proves the invariant for runs that request memoization only through the mapper. `DirectSetMemoizeUntraced` shows that a direct `set_memoize(true)` on an untraced operation reaches `MEMO_REQ`, and that the following analysis then fails its trace assertion.

## Model

| member | source | states |
|---|---|---|
| `Memoizable.MemoOp.InitializeMemoizable` | runtime/legion/legion_ops.inl:37-42 | afterwards the state is `NoMemo` and there is no template, so the fields are consistent |
| `Memoizable.MemoOp.SetMemoize` | runtime/legion/legion_ops.inl:117-125 | from `NoMemo`, the state becomes `MemoReq` exactly when memoize is true and both kill switches are off, and stays `NoMemo` otherwise, with no error; only `memoState` may change, so `tpl` is untouched |
| `MemoSpec.SetMemoizeState` | runtime/legion/legion_ops.inl:123-124 | the state after `set_memoize` is `MemoReq` exactly when memoize is set and neither switch is on, and `NoMemo` in every other case |
| `Memoizable.MemoOp.InvokeMemoizeOperation` | runtime/legion/legion_ops.inl:98-113 | the mapper gets `traced = (trace != null)` and an output preset to "do not memoize"; the method fails with `InvalidPhysicalTracing` and leaves the state unchanged exactly when an untraced operation is asked to memoize; otherwise the new state is what `Invoke` gives |
| `MemoSpec.Invoke` | runtime/legion/legion_ops.inl:101-112 | fails exactly when the operation is untraced and the mapper answers memoize; it yields `MemoReq` exactly when the operation is traced, the mapper says memoize and both switches are off; any other success leaves `NoMemo` |
| `MemoSpec.Started` | runtime/legion/legion_ops.inl:63 | the new template becomes the store's current one; in a valid store it stays valid and the new template is not replaying |
| `MemoSpec.Analyse` | runtime/legion/legion_ops.inl:46-86 | `NoMemo` keeps fields and store and calls only the base analysis; `MemoReq` ends holding the store's current template, which is the existing one or a newly started one; the result is `Replay` exactly when that template is replaying and `Record` otherwise; the state only advances and never stays `MemoReq`; a valid store stays valid |
| `MemoSpec.AnalyseHookOrder` | runtime/legion/legion_ops.inl:58-85 | the calls are `set_state_record` then `start_new_template` when there is no current template, followed by `register_physical_only(gen)`, `resolve_speculation` and `replay_analysis` when replaying, or the base analysis otherwise |
| `MemoSpec.AnalyseHookCounts` | runtime/legion/legion_ops.inl:66-85 | a replaying operation never runs the base analysis and calls each replay hook once; every other path runs the base analysis exactly once and no replay hook |
| `Memoizable.MemoOp.ExecuteDependenceAnalysis` | runtime/legion/legion_ops.inl:46-86 | the new fields, the store and the appended calls are those `Analyse` gives for the old fields and store; the trace enters recording exactly when a template was started; consistency of the fields is preserved |
| `Memoizable.MemoOp.GetTraceLocalId` | runtime/legion/legion_ops.inl:90-94 | returns the operation's trace-local id with a zero-dimensional point; it reads only constant fields, so repeated calls agree |
| `MemoSpec.RunKeepsConsistent` | runtime/legion/legion_ops.inl:37-125 | starting from consistent fields, as after initialisation, and after any sequence of calls that passes its assertions, an operation holds a template exactly when it is in `Record` or `Replay` |
| `MemoSpec.RunOnlyAdvances` | runtime/legion/legion_ops.inl:50-124 | between initialisations the state only moves `NoMemo` to `MemoReq` to `Record` or `Replay`; `Record` and `Replay` are final; a template once held is never replaced |
| `MemoSpec.MapperRunKeepsTrace` | runtime/legion/legion_ops.inl:103-112 | when memoization is requested only through the mapper, an operation in `MemoReq` always has a trace |
| `MemoSpec.DirectSetMemoizeUntraced` | runtime/legion/legion_ops.inl:117-125 | `set_memoize(true)` on an untraced operation yields `MemoReq` with no template, and the analysis after it fails the trace assertion |
| `Memoizable.RecordThenReplay` | runtime/legion/legion_ops.inl:52-85 | in one trace, the first requested operation starts template 0 and ends in `Record`; once that template replays, a second requested operation ends in `Replay` on the same template; the first logs `set_state_record`, `start_new_template(0)` and the base analysis, the second `register_physical_only(2)`, `resolve_speculation` and `replay_analysis` and no base analysis |

## Left out

- Mapper lookup (`get_executing_processor`, `find_mapper`, `legion_ops.inl:105-107`) is a foreign call. The mapper is a parameter: a function from the input and the preset output to the output it leaves.
- The internals of the trace, the physical trace, the template, `replay_analysis`, `resolve_speculation` and the base `execute_dependence_analysis` are outside the model. Each call to them that changes state or runs an analysis is an entry in the ghost log; the read-only queries `get_physical_trace`, `get_current_template`, `is_replaying` and `is_recording` (`legion_ops.inl:58-59`, `:66`, `:69`, `:80`) are not logged, only their answers are used. Only the effects the operation depends on are modelled: the trace's mode and the store's current template.
- `register_physical_only` changes the trace's own bookkeeping. That change is not modelled; the call is only logged.
- The store's promise that a new template is not replaying is the `StoreValid` invariant of the stand-in store: every known template id is below the next one.
- `Tracing.PhysicalTrace.CompleteRecording` and `Tracing.Trace.SetStateReplay` stand in for the trace's move from recording to replay. That move happens outside the modelled file and is used only by the client methods.
- `REPORT_LEGION_ERROR` stops the process. The model returns a failure outcome with the state unchanged and does not model the abort.
- The C++ constructor (`legion_ops.inl:28-33`) leaves `memo_state` and `tpl` uninitialised until `initialize_memoizable`. The Dafny constructor starts them in the initialised state, because Dafny requires initial values.
- The trace, the generation and the trace-local id are constant fields. They are set when the operation is activated, which is outside the modelled file.
- `DomainPoint` is reduced to its coordinate list. The default point has dimension 0, and nothing else about it is modelled.
- The generation counter is an unbounded `nat`, because no arithmetic is done on it. The trace-local id keeps the 32-bit range of `unsigned`.
- Concurrency is not modelled, including the atomicity of the store's lookup-or-create. The source assumes that callers serialise access.
- `structured_proj_test_programs/current_optimum_angle/current_optimum_angle.cc` is an application test program for the runtime API. It is not part of this model.
