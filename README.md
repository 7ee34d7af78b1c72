# App process handle, modelled in Dafny

The `app` package provides `App`, a handle that holds a process's environment list, a
cancellable context and an exit hook. It has three behaviours:

- **Logger.** A logger is created lazily. `Logger()` makes it on first use and always returns
  the same instance. `Exit(code)` shuts it down and forgets it before handing control to the
  exit handler.
- **Error channel.** `Errors()` returns a channel of capacity 1. `HandleError(e)` sends `e`
  on it once and then closes it.
- **Environment lookup.** `LookupEnv(key)` looks for an entry `KEY=VALUE` in the environment
  list. The source races one goroutine per entry.

Each method is modelled as one atomic step on the handle's fields. In the source, the
mutexes guard only the check-and-create of the logger and of the channel, and the logger's
teardown. The send and close in `HandleError`, the read of the channel in `Errors`, the call
of the exit handler and all of `LookupEnv` run outside any lock. Atomicity there is an
assumption of the model.

The project has four modules:

- `Env` (env.dfy): the lookup.
  - `Matches` is a reference definition of "entry defines key with value", independent of
    how the entry is split.
  - `Admissible` is the set of results `LookupEnv` may return. With duplicate keys, any
    defining entry may win.
  - `SplitOnce` models `strings.SplitN(line, "=", 2)`.
  - `Lookup` is a sequential scan, proved to return an admissible result.
- `Channels` (channels.dfy): Go's semantics for send, close and receive on a buffered
  channel.
  - These are pure step functions on the channel state: the buffer and the closed flag.
  - `SingleShot` is the invariant that makes the error channel deliver at most once.
  - `ErrorChannel` is the channel object, shared by reference like a Go channel. Its
    methods are proved against the step functions.
- `App` (app.dfy): the handle itself.
  - `App` is a class. Its fields `logger` and `errch` (unexported in Go) start as `null`
    (Go's nil) and are created on demand.
  - `Errors` returns a receive-only channel in Go, so only `HandleError` sends on it or
    closes it. The model enforces this through the invariant `Valid()`: a ghost field
    `delivered` records that `HandleError` has sent, and the channel must be closed exactly
    when `delivered` holds. A caller that closes or sends on the channel itself breaks
    `Valid()`, and later calls on the handle no longer verify.
  - `LoggerBase` stands for `*gomol.Base`. It keeps only its template and its
    `initialized` flag.
  - `Exit` returns the trace of what it does: `ShutdownLoggers`, `CallHandler(code)`,
    `OsExit(code)` and `Panicked(msg)`. So "the logger is shut down before the handler
    runs" is a statement about order.
- `Scenarios` (scenarios.dfy): replays the Exit, Logger, Errors, HandleError and LookupEnv
  tests of app/app_test.go against the model. It also asserts a few further consequences
  the tests do not check: Exit without a handler, a receive on an open, empty channel, and
  a logger that was shut down from outside.

The logger and the error channel are classes, not values, because in Go they are
references. `Logger()` and `Errors()` return the stored pointer or channel, so every caller
gets the same object. The tests compare results with `assert.Equal`: for channels that is
identity, and for `*gomol.Base` it is deep equality, which identity implies. A caller that
still holds the logger also sees it uninitialised after `Exit` (app/app_test.go:75).

When several entries define the key, the source returns the value of whichever goroutine
sends first, so the result is a race. The model keeps that freedom: `Admissible` allows the
value of every defining entry. `Lookup` happens to return the first.

## Model

| member | source | states |
|---|---|---|
| `Env.SplitOnce` | app/app.go:159 | the result has one part exactly when the line holds no `=` (the part is then the whole line); otherwise it has two parts, the first without `=`, and joining them with `=` gives back the line |
| `Env.SplitOnceMatches` | app/app.go:159-160 | splitting an entry at its first `=` gives `[key, value]` exactly when the entry defines `key` with `value` |
| `Env.MatchesFunctional` | app/app.go:159-161 | an entry defines a given key with at most one value |
| `Env.Lookup` | app/app.go:144-175 | the scan returns an admissible result: `("", false)` if the context was cancelled or no entry defines the key, otherwise `true` with the value of some defining entry |
| `Env.FoundIff` | app/app.go:159-161 | `(v, true)` is a possible result exactly when the context was not cancelled and some entry, split at its first `=`, is `[key, v]` |
| `Env.NotFoundIff` | app/app.go:168-174 | not found is a possible result exactly when the value is `""` and either the context was cancelled or no entry's key part equals `key`; entries without `=` never count, and an empty environment never finds anything |
| `Env.UniqueKeyDetermined` | app/app.go:159-173 | when exactly one entry defines the key, the only possible result is that entry's value with `true` |
| `Env.AnyDefinitionAdmissible` | app/app.go:161 | with duplicate keys, every defining entry's value is a possible result; which sender wins is not fixed |
| `Env.KeyWithSeparatorNeverFound` | app/app.go:159-160 | a key that itself contains `=` is never found |
| `Env.ValueMayHoldSeparator` | app/app.go:159 | `A=b=c` splits into `A` and `b=c`, and looking up `A` in `["A=b=c"]` can only give `("b=c", true)` |
| `Env.DiffersFromKey` | app/app.go:160 | an entry that differs from the key at some position within the key's length does not define the key |
| `Channels.FirstHandleErrorDelivers` | app/app.go:136-140 | on a fresh channel, send-then-close completes and leaves the channel closed, holding exactly the error sent |
| `Channels.SendThenCloseSingleShot` | app/app.go:136-140 | from any single-shot state, send-then-close never blocks, always leaves the channel closed and single-shot, completes exactly when the channel was open, and otherwise panics with "send on closed channel" and changes nothing |
| `Channels.SecondHandleErrorPanics` | app/app.go:138 | after any first send-then-close, a second one panics because it sends on a closed channel, and the state does not change |
| `Channels.RecvSingleShot` | app/app.go:130-133 | a receive keeps the channel single-shot, and on a closed channel it never blocks and the channel stays closed |
| `Channels.DrainedStaysDrained` | app/app_test.go:151-157 | every one of any number of receives on a closed, drained channel gives nil and false |
| `Channels.ReceivesAfterHandleError` | app/app_test.go:143-157 | after one HandleError(e) on a fresh channel, the first receive gives `(e, true)` and every later receive gives `(nil, false)` |
| `Channels.ErrorChannel.constructor` | app/app.go:125 | make(chan error, 1) is an open, empty channel |
| `Channels.ErrorChannel.Send` | app/app.go:138 | the outcome and the new state are those of Go's send step, and the buffer stays within its capacity |
| `Channels.ErrorChannel.Close` | app/app.go:139 | the outcome and the new state are those of Go's close step |
| `Channels.ErrorChannel.Receive` | app/app_test.go:144-152 | the received value, its `ok` flag and the new state are those of Go's receive step |
| `App.TemplateFor` | app/app.go:86-89 | the template always ends with the log template, and has the timestamp prefix (and nothing else before it) exactly when Stderr is the real standard error |
| `App.LoggerBase.constructor` | app/app.go:96-110 | a new logger base carries the template it was given and is not yet initialised |
| `App.LoggerBase.InitLoggers` | app/app.go:114 | afterwards the logger is initialised |
| `App.LoggerBase.ShutdownLoggers` | app/app.go:56 | afterwards the logger is no longer initialised |
| `App.ExitHandsOffOnce` | app/app.go:64-69 | Exit hands control away exactly once, with exactly `code`: to the handler if one is set, otherwise to os.Exit |
| `App.ShutdownBeforeHandOff` | app/app.go:53-62 | the logger is shut down exactly when it existed and was initialised, at most once, and as the first step, before any hand-off |
| `App.ExitPanicsIffHandlerReturns` | app/app.go:66-69 | Exit ends with the panic "exit handler returned" exactly when the handler returns, and panics at no earlier step |
| `App.App.constructor` | app/app_test.go:19-31 | a handle built from explicit values has those values, no logger and no error channel |
| `App.App.Exit` | app/app.go:52-70 | afterwards the logger slot is nil; a logger that existed is no longer initialised; the trace is the one `ExitTrace` gives for "an initialised logger existed", the handler kind and `code` |
| `App.App.Logger` | app/app.go:73-118 | the slot holds the returned logger. If a logger existed, it is returned untouched. Otherwise a fresh, initialised logger is created with the template for this handle's Stderr |
| `App.App.EnsureErrorChannel` | app/app.go:120-127 | afterwards a channel exists; an existing one is kept, and otherwise a fresh, empty, open one is made |
| `App.App.Errors` | app/app.go:130-133 | it returns the handle's channel: the existing one if any, otherwise a freshly made, empty, open one; every call returns the same channel |
| `App.App.HandleError` | app/app.go:136-140 | the outcome and the channel's new state are those of send-then-close on the existing channel, or on a fresh one; it never blocks, always leaves the channel closed, and records that an error was delivered |
| `App.App.LookupEnv` | app/app.go:144-175 | the result is admissible for the handle's environment, the key and the context's cancellation at the time of the call |

## Left out

- `New` (app/app.go:38-48) only binds `os.Args`, `os.Environ()`, the OS stdio handles and
  `os.Exit`. It is not part of this model. `Arguments`, `Stdin` and `Stdout` are not fields
  of the model, because no modelled operation uses them.
- `Stderr` is reduced to one fact: whether it is the real standard error
  (`stderrIsOsStderr`). That fact is all the code decides on.
- gomol and gomol-console are foreign libraries. The model leaves out their configuration:
  colourised console, the `filename`/`lineno`/`seq` attributes and the queue size of 10000.
  It also leaves out message formatting and the byte-exact log output. The errors the source
  discards at app/app.go:84, 91, 94, 110 and 114 are not modelled. A logger is reduced to
  its template and its `initialized` flag.
- A failure of `ShutdownLoggers` inside `Exit` (app/app.go:56-58) happens inside gomol and is
  not modelled. In the model, shutdown always succeeds.
- An exit handler is reduced to whether it returns (`Diverging` or `Returning`). What a
  diverging handler or os.Exit does after being called is outside the model: in the trace
  they are the final event.
- Mutexes, goroutines, `sync.WaitGroup` and the unbuffered result channel of `LookupEnv` are
  not modelled. Each method is one atomic step, and the lookup is a sequential scan.
- App.App.LookupEnv: cancellation is a snapshot taken at the call (`contextCancelled`). In
  the source, a context cancelled part-way through the search can also make the call return
  `("", false)` even though some entry defines the key. The model does not admit that
  result.
- With duplicate keys, the source's second sender blocks forever on app/app.go:161, so its
  goroutine and the closer goroutine leak. The model has no goroutines and does not show
  this.
- `Blocks` / `WouldBlock` stand for an operation that waits for another goroutine. The model
  has no other goroutine, so it treats such an operation as blocked for good.
- App.App.HandleError: the send and close at app/app.go:138-139 hold no lock, so two
  concurrent calls can interleave. The second send can block until the first close and then
  panic with "send on closed channel". Or a reader can drain the channel between the two
  calls, so the second send completes and its close panics with "close of closed channel".
  The model runs each call atomically and rules out both. Its promise that HandleError
  never blocks and panics only with "send on closed channel" holds only under that
  assumption.
- Environment entries are modelled as `seq<char>`, while Go strings are byte strings.
  Splitting at the first `=` and comparing keys give the same result on valid UTF-8, but
  entries that are not valid UTF-8 (which `os.Environ` can return) cannot be represented.
- `TestNew` (app/app_test.go:33-53) is not replayed, because it reads the real process
  environment through `New`.
- The benchmark (app/app_test.go:192-206) is not modelled.
