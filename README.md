# MCDReforged plugin installer: operation guard, fetch notices and debug logger

This project is a Dafny model of two parts of MCDReforged:

- **The plugin-installer command extension (`!!MCDR plugin` browse, checkupdate, install, refreshmeta).**
  - `OperationHolder` and `async_operation` make a single-operation guard. At most one guarded command runs on a background thread at a time. A request that arrives while one runs goes to a conflict callback instead of starting.
  - The conflict callback either invokes `install` again once the install handler agrees (`try_prepare_for_duplicated_input`), or replies "duplicated input" naming the running operation.
  - While catalogue metadata is fetched, a per-call `has_start_fetch` flag decides which fetch notices are sent.
  - On shutdown, the recorded thread is joined.
- **`MCDReforgedLogger`.**
  - It keeps a class-wide debug-option bitmask that `set_debug_options` rebuilds.
  - `should_log_debug` tests that mask, and it gates `mdebug` and `debug`.
  - `_log` adjusts `extra` and `stacklevel`.
  - `set_file` / `unset_file` keep at most one file handler.

Modules:

- `Optional` (optional.dfy): Python's `Optional`.
- `OperationGuard` (operation_guard.dfy): the holder as a class.
  - Thread start and thread end are separate method calls.
  - A ghost field `body` names the thread executing `run()`.
  - `Valid()` is the slot invariant: the lock is held exactly while a body runs, and then `thread` and `op_key` describe it.
- `PimCommand` (pim_command.dfy):
  - the guarded commands and the conflict resolver;
  - the fetch-notice callbacks, as a class with the flag, the replies sent and a ghost log of callbacks;
  - `Replies(events)`, the specification of the fetch-notice callbacks;
  - the shutdown join;
  - install suggestions.
- `DebugOptions` (debug_options.dfy): the pure rules of the logger.
  - A non-negative int used as a bitmask is the set of positions of its 1 bits: `|` is union, and `& ... != 0` is a non-empty intersection.
  - The `DebugOption` enum is a catalogue from upper-case name to the one bit of its mask. It must contain `ALL`. The enum's source is not part of this model, so the bit values are left abstract.
- `McdrLogger` (logger.dfy): the logger, its handlers and the shared mask as classes. Records handed to the standard logger are appended to `emitted`.

Two facts about the source shape the model:

- The conflict resolver (plugin_command_pim.py:219-221) checks only that the *requested* command is install. Whether the running operation is an install, and whether it can take the input, is left to the install handler's `try_prepare_for_duplicated_input`, whose answer is a parameter here (`installAccepts`).
- `thread` and `op_key` are recorded only *after* `thread.start()` (plugin_command_pim.py:56-58). See Findings.

## Model

| member | source | states |
|---|---|---|
| `OperationGuard.Escaping` | mcdreforged/plugin/builtin/mcdr/commands/plugin_command_pim.py:46-53 | nothing escapes `run()` iff the body returned or raised `OuterReturn`; any other exception escapes unchanged |
| `OperationGuard.OperationHolder.constructor` | mcdreforged/plugin/builtin/mcdr/commands/plugin_command_pim.py:31-35 | a new holder is idle (lock free, no thread, no key) and satisfies the slot invariant |
| `OperationGuard.OperationHolder.TryStart` | mcdreforged/plugin/builtin/mcdr/commands/plugin_command_pim.py:42-64 | keeps the slot invariant; lock held: the holder is unchanged, nothing is launched, and the conflict callback gets the running key, the running thread and the new key; lock free: the thread is started and recorded with `op_key = key` and returned; launch failure: the lock is released, the holder is idle and the exception is re-raised |
| `OperationGuard.OperationHolder.Acquire` | mcdreforged/plugin/builtin/mcdr/commands/plugin_command_pim.py:43 | the non-blocking acquire succeeds iff the lock was free; afterwards it is held; a failed acquire changes nothing |
| `OperationGuard.OperationHolder.StartThread` | mcdreforged/plugin/builtin/mcdr/commands/plugin_command_pim.py:55-56 | starting the thread makes it the running body and touches neither `thread` nor `op_key` |
| `OperationGuard.OperationHolder.Record` | mcdreforged/plugin/builtin/mcdr/commands/plugin_command_pim.py:57-58 | sets `thread` and `op_key` and leaves the lock alone |
| `OperationGuard.OperationHolder.Finish` | mcdreforged/plugin/builtin/mcdr/commands/plugin_command_pim.py:45-53 | however the body ends, the holder is back in its initial state (lock released, `thread = op_key = None`); only `OuterReturn` is swallowed |
| `OperationGuard.FastFinishAsWritten` | mcdreforged/plugin/builtin/mcdr/commands/plugin_command_pim.py:54-59 | in the source's order, a body that ends before lines 57-58 run leaves the lock free while `thread` and `op_key` still name the finished operation |
| `OperationGuard.FastFinishAtomic` | mcdreforged/plugin/builtin/mcdr/commands/plugin_command_pim.py:54-59 | when start and record are one step, the same fast body leaves the holder with the lock free and both fields `None` |
| `OperationGuard.GuardLifecycle` | mcdreforged/plugin/builtin/mcdr/commands/plugin_command_pim.py:42-64 | a start on an idle guard runs; a second start while it runs is skipped with the running key and thread; after any ending of the body, a failed launch is reported and the following start succeeds (no deadlock) |
| `PimCommand.ResolveConflict` | mcdreforged/plugin/builtin/mcdr/commands/plugin_command_pim.py:214-224 | the install handler is consulted iff the requested command is install; install is invoked again, with no reply, iff it is install and the handler accepts; otherwise exactly one `duplicated_input` reply naming `<running op_key>.name` |
| `PimCommand.Invoke` | mcdreforged/plugin/builtin/mcdr/commands/plugin_command_pim.py:226-246 | a guarded command is skipped iff an operation runs; it then leaves the holder unchanged and goes to the resolver with the running key; otherwise it starts under its own key and records the started thread, the one shutdown later joins, or releases the guard when the launch fails |
| `PimCommand.DuplicatedRequests` | mcdreforged/plugin/builtin/mcdr/commands/plugin_command_pim.py:219-224 | while an install runs, a second install that the handler agrees to is invoked again without a reply, and a browse gets `duplicated_input` naming `install.name` |
| `PimCommand.OnMcdrStop` | mcdreforged/plugin/builtin/mcdr/commands/plugin_command_pim.py:174-176 | a join with timeout `CONFIRM_WAIT_TIMEOUT + 1` is requested iff a thread is recorded; under the slot invariant, iff an operation runs, and then it joins the running body's thread |
| `PimCommand.SuggestPluginIds` | mcdreforged/plugin/builtin/mcdr/commands/plugin_command_pim.py:114-117 | the suggestions are exactly the catalogue plugin ids plus `*` |
| `PimCommand.AppendEvent` | mcdreforged/plugin/builtin/mcdr/commands/plugin_command_pim.py:191-206 | one more callback sets the flag only if it is a start callback, and adds only its own replies |
| `PimCommand.FetchNotices.constructor` | mcdreforged/plugin/builtin/mcdr/commands/plugin_command_pim.py:206 | each `get_cata_meta` call starts with `has_start_fetch = False` and no replies |
| `PimCommand.FetchNotices.OnStartFetch` | mcdreforged/plugin/builtin/mcdr/commands/plugin_command_pim.py:192-195 | the flag becomes the argument; `fetch_start` is sent iff it is true |
| `PimCommand.FetchNotices.OnDone` | mcdreforged/plugin/builtin/mcdr/commands/plugin_command_pim.py:197-201 | an error always sends `fetch_failed` with it; without an error `fetch_done` is sent iff the flag is set |
| `PimCommand.FetchNotices.OnBlocked` | mcdreforged/plugin/builtin/mcdr/commands/plugin_command_pim.py:203-204 | always sends `fetch_block_wait` |
| `PimCommand.FetchStartIff` | mcdreforged/plugin/builtin/mcdr/commands/plugin_command_pim.py:192-195 | `fetch_start` is among the replies iff some start callback got `True` |
| `PimCommand.FetchDoneNeedsStart` | mcdreforged/plugin/builtin/mcdr/commands/plugin_command_pim.py:197-201 | `fetch_done` is never sent, and the flag is never set, unless a start callback got `True` in this call |
| `PimCommand.FailuresReported` | mcdreforged/plugin/builtin/mcdr/commands/plugin_command_pim.py:197-199 | `fetch_failed(e)` is sent iff a done callback carried error `e` |
| `PimCommand.BlockWaitPerBlocked` | mcdreforged/plugin/builtin/mcdr/commands/plugin_command_pim.py:203-204 | exactly one `fetch_block_wait` is sent per blocked callback |
| `PimCommand.ParticipationReplies` | mcdreforged/plugin/builtin/mcdr/commands/plugin_command_pim.py:191-212 | a fetching caller gets start then done (or failed); a waiting caller gets the wait notice, plus the failure only when there is one |
| `DebugOptions.UpperChar` | mcdreforged/logging/logger.py:67 | ASCII lower-case letters map to their upper-case letters; every other character is kept |
| `DebugOptions.Upper` | mcdreforged/logging/logger.py:67 | `key.upper()` restricted to ASCII: the length is kept and each character is upper-cased by `UpperChar` |
| `DebugOptions.ShouldLogDebug` | mcdreforged/logging/logger.py:71-77 | with no option: true iff the mask has the `ALL` bit; with an option: true iff it has the `ALL` bit or that option's bit |
| `DebugOptions.ShouldLogDebugMonotone` | mcdreforged/logging/logger.py:74-77 | adding bits to the mask never turns a true answer false |
| `DebugOptions.AllIsNoOption` | mcdreforged/logging/logger.py:103 | asking with `DebugOption.ALL` is the same as asking with no option |
| `DebugOptions.GatesByBits` | mcdreforged/logging/logger.py:93-105 | `mdebug` emits iff `no_check`, or DEBUG is enabled, or the mask has the `ALL` or the option's bit; `debug` emits exactly when an unchecked `mdebug` without option would |
| `DebugOptions.LogKwargs` | mcdreforged/logging/logger.py:80-88 | `TypeError` iff `stacklevel=None` is passed, or `extra=None` is passed to a logger with a plugin id; otherwise `stacklevel` is raised by exactly 1 (absent becomes 2), and `extra` gets the plugin id under `plugin_id` only when the logger has one, with its other keys kept, and is passed on as given otherwise |
| `DebugOptions.FirstUnknown` | mcdreforged/logging/logger.py:65-67 | finds the first entry that is true and whose upper-cased key names no option: every entry before it can be applied, and the one at it raises `KeyError` |
| `DebugOptions.ItemsMaskBits` | mcdreforged/logging/logger.py:62-68 | a bit is in the rebuilt mask iff some entry set to true names the option owning it |
| `DebugOptions.AnnouncementsCount` | mcdreforged/logging/logger.py:65-69 | one announcement record per entry set to true |
| `McdrLogger.IndexOf` | mcdreforged/logging/logger.py:127 | the position of the first occurrence of a handler in the list |
| `McdrLogger.Without` | mcdreforged/logging/logger.py:127 | `removeHandler` removes the first occurrence of a present handler and keeps the other handlers in their order; an absent handler leaves the list as it is |
| `McdrLogger.WithoutDistinct` | mcdreforged/logging/logger.py:126-127 | removing a handler keeps every other handler and adds none; from a list without repeats it removes the handler entirely and keeps the list without repeats |
| `McdrLogger.FileHandlersCount` | mcdreforged/logging/logger.py:113-118 | a list without repeats whose only file handler is `f` holds exactly one file handler if `f` is in it, otherwise none |
| `McdrLogger.Handler.Console` | mcdreforged/logging/logger.py:56 | the console handler is not a file handler |
| `McdrLogger.Handler.File` | mcdreforged/logging/logger.py:116 | a file handler for the given path, open |
| `McdrLogger.DebugFlags.constructor` | mcdreforged/logging/logger.py:49 | the class mask starts at 0 |
| `McdrLogger.Logger.constructor` | mcdreforged/logging/logger.py:51-60 | a new logger has level INFO, only the console handler, no file handler |
| `McdrLogger.Logger.SetLevel` | mcdreforged/logging/logger.py:60 | sets the level and nothing else |
| `McdrLogger.Logger.Log` | mcdreforged/logging/logger.py:80-91 | hands exactly one record to the standard logger, with the keyword arguments `LogKwargs` gives, or none and a `TypeError` when `LogKwargs` raises |
| `McdrLogger.Logger.Mdebug` | mcdreforged/logging/logger.py:93-99 | appends one DEBUG record with `stacklevel + 1` iff the `mdebug` gate holds, otherwise nothing |
| `McdrLogger.Logger.Debug` | mcdreforged/logging/logger.py:101-105 | when DEBUG is enabled or the mask has the `ALL` bit, appends one DEBUG record, or raises `TypeError` on an explicit `None` keyword; otherwise does nothing |
| `McdrLogger.Logger.SetDebugOptions` | mcdreforged/logging/logger.py:62-69 | the previous mask is discarded; it becomes the OR of the masks of the entries set to true before the first unknown key, each announced once in order; an unknown key set to true raises `KeyError` with the upper-cased key |
| `McdrLogger.Logger.UnsetFile` | mcdreforged/logging/logger.py:120-129 | afterwards there is no file handler installed or recorded; a present one is removed and closed; with none it changes nothing (idempotent) |
| `McdrLogger.Logger.SetFile` | mcdreforged/logging/logger.py:107-118 | any previous file handler is removed and closed; a new, open one for the path is appended, so exactly one file handler is installed |

## Findings

| source | as written | input that shows it | evidently intended | confidence | as-written member | corrected member |
|---|---|---|---|---|---|---|
| mcdreforged/plugin/builtin/mcdr/commands/plugin_command_pim.py:54-59 | the background thread is started (line 56) before `thread` and `op_key` are recorded (lines 57-58) | a guarded body that ends at once (for example it raises `OuterReturn`) and whose `finally` block runs before the calling thread reaches line 57 | whenever the lock is free the slot is `thread = op_key = None`, so a later conflict or shutdown never sees a finished operation (`OperationGuard.FastFinishAtomic` shows the corrected step on the same input) | not executed; needs that thread schedule | `OperationGuard.FastFinishAsWritten` | `OperationGuard.OperationHolder.TryStart` |

## Left out

- Real threads, the lock's blocking behaviour, preemption and `Thread.join` timing are not modelled. Start, record and finish are explicit method calls. `TryStart` makes start-and-record one atomic step. The source's split order is modelled separately by `Acquire`, `StartThread` and `Record`.
- `OperationGuard.OperationHolder.TryStart`: records `thread`/`op_key` together with the start. The source's order lets a fast body leave stale values behind a released lock (see Findings).
- The catalogue metadata holder (`PersistCatalogueMetaRegistryHolder`) is not part of this model. This covers its TTL, single-flight fetching, persistence, `init`/`terminate`, and the registry that `get_cata_meta` returns. Only the callbacks it makes are modelled, as event sequences. `PimCommand.Participation` assumes the order in which `get_registry_blocked` calls them: start, then blocked for a waiter, then done. That order is not derived from any source in this model.
- The browse, check-update and install handlers are external collaborators, and so is the translator. `try_prepare_for_duplicated_input` enters only through its boolean answer. Replies are translation keys, not text.
- `PimCommand.ResolveConflict`: after a hand-off, the install command is invoked again through the guard. The model stops at the decision, because what that second call meets depends on the install handler.
- `PimCommand.OnMcdrStop`: models only the guard part. The metadata holder's `terminate` and the install handler's `on_mcdr_stop` are external. `CONFIRM_WAIT_TIMEOUT` comes from pim_utils, which is not part of this model, so it is a parameter.
- The command tree construction (`get_command_child_nodes`) is not modelled. It is wiring into the command framework. Only the install suggestion set is modelled.
- `DebugOptions.UpperChar`: upper-cases ASCII letters only and keeps every other character. Python's `str.upper` also maps other Unicode letters (é becomes É).
- `DebugOptions.Upper`: handles ASCII letters only, so it always keeps the length. Python's `str.upper` also maps other Unicode letters, and some of them change the length (ß becomes SS, ŉ becomes ʼN).
- `DebugOptions.DebugEnabled`: compares DEBUG against the logger's own level. `logging.disable` and level inheritance from parent loggers are not modelled.
- Handlers, formatters, colour control, file rotation and directory creation are library wrappers and I/O. Of a handler, only whether it is the file handler, its path and whether it was closed are kept.
- `DebugOptions.LogKwargs`: returns a new `extra`. The source updates the caller's `extra` dict in place, and that aliasing is not modelled. The `msg` and `*args` formatting of records is not modelled either.
- The command-line entry points (cli/cmd_pim.py, cli/cli_entry.py) are not modelled: they are argument parsing, zip and temp-file handling, and pip subprocesses.
