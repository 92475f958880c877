# Pulsy health monitor: a Dafny model

Pulsy probes HTTP endpoints periodically. Each endpoint (a *monitor*) gets one
loop, `watchMonitor`. The loop does a GET and sorts the outcome into one of
three kinds: a transport error, a response other than 200, or a 200 response.
It then updates a consecutive-failure counter and a health state (INIT,
ERROR, PENDING or OK). It calls the notifiers only on a confirmed edge:
entering ERROR, or leaving ERROR for OK. Every probe's result record goes to
every writer.

This project models that loop and its fan-out. It also models the notifier
factory and the two loaders that turn configuration entries into monitors and
notifiers.

Modules:

- `Wrappers`: `Option` and `Result`.
- `Message` (message/message.go, writer/writer.go): the result record and the
  writer identities.
- `Notifier` (notifier/notifier.go): the notifier kinds, the default
  notifier's `Notify`, and `MakeNotifierFactory`.
  - The closure the factory returns is represented by the datatype `Factory`.
    Calling the closure is `Build`.
  - The type assertion `options[key].(string)` panics when the key is
    missing or not a string. That panic is modelled as `Err(TypeAssertion(key))`.
- `Monitor` (monitor/monitor.go): the `state` enumeration and `String`, and
  the `Monitor` class.
  - `Next` is one loop iteration written as a pure transition:
    (retry budget, URL, previous state, counter, probe) goes to (new state,
    new counter, notify?, record, backoff sleep?, closing sleep?).
  - The probe is an input: the formatted start time, the elapsed nanoseconds,
    and either `TransportError(text)` or `Response(code, statusText)`.
- `Watcher` (monitor/monitor.go): the `Watcher` class.
  - The class holds a trace `events` of `Request`, `Sleep`, `Notified` and
    `Written` entries.
  - It has methods `CallNotifiers`, `CallWriters` and `WatchMonitor`. The
    loop body is split into `Iterate`, `Fail` and `Succeed`.
  - `Run` is the loop's specification over a sequence of ticks. A tick is
    either `Cancelled` (what `isDone` observes) or one `Attempt`. An attempt
    carries the probe and the answers the webhook notifiers would give.
- `Config` (config/config.go): `LoadMonitors` and `LoadNotifiers`. Both take
  the already-read entries as a parameter.

Three behaviours of the code that are easy to misread:

- **When the backoff sleep happens.** The code sleeps "to give the service a
  breath" *after* the request, not before it. So after a failure from INIT or
  OK, the next request follows immediately, with no sleep between the two.
  After a success from PENDING or ERROR, two intervals pass before the next
  request. `RequestsBackToBackOnlyAfterFirstFailure` states this exactly.
- **Writers.** The code hands records to writers in detached goroutines and
  ignores their errors. It does not call them synchronously.
- **Retry budget.** The code accepts any integer, including a negative one,
  and so does the model. With a negative budget every failure is a confirmed
  outage.

## Model

| member | source | states |
|---|---|---|
| Monitor.Code | monitor/monitor.go:18-25 | states are numbered by `iota` in declaration order: INIT 0, ERROR 1, PENDING 2, OK 3; so a zero-valued monitor is in INIT |
| Monitor.StateString | monitor/monitor.go:27-38 | the text is "UNKNOWN STATE" exactly for INIT, which has no case of its own |
| Monitor.CodeAndStringAreInjective | monitor/monitor.go:18-38 | distinct states have distinct values and distinct texts |
| Monitor.Monitor.constructor | monitor/monitor.go:40-48 | URL, timeout, retry budget and interval are as given; status and error text are empty; the state is INIT |
| Monitor.Failed | monitor/monitor.go:113-136 | a probe is a success exactly when it is a response with code 200; a transport error (line 113) and any other status (line 136) are failures |
| Monitor.Next | monitor/monitor.go:105-170 | one iteration never yields INIT and always lands in a state consistent with its counter (OK ⇒ 0, PENDING ⇒ 1..Retry, ERROR ⇒ > Retry); it notifies iff the move is an edge (into ERROR from elsewhere, or ERROR→OK); it backs off iff the previous state was ERROR or PENDING; it ends with a sleep iff it succeeded; the record has status "ERROR" or "OK", the monitor's URL, the probe's timestamp, the error or status text, and the elapsed time truncated to whole milliseconds |
| Monitor.NextCounter | monitor/monitor.go:113-158 | a failure (transport error or non-200) adds exactly one to the counter, and the new state is ERROR iff the counter now exceeds Retry; a 200 response resets the counter to 0 and gives OK |
| Monitor.NextFollowsTable | monitor/monitor.go:105-170 | from any consistent (state, counter) pair, the new state and the notify decision agree with the written-out transition table (INIT/PENDING/OK/ERROR × success/failure within budget/failure over budget) |
| Monitor.RequestsBackToBackOnlyAfterFirstFailure | monitor/monitor.go:105-172 | no sleep separates a request from the next one iff it failed after INIT or OK; two sleeps separate them iff it succeeded after PENDING or ERROR |
| Notifier.Notify | notifier/notifier.go:18-21 | the default notifier never returns an error |
| Notifier.MakeNotifierFactory | notifier/notifier.go:25-45 | "telegram" selects the Telegram closure, "discord" the Discord closure, and every other name the default closure; `SelectionByName` states what each builds |
| Notifier.Build | notifier/notifier.go:28-43 | a closure returns a notifier iff every option it reads is present and a string; otherwise it panics on an option it reads that is missing or not a string; `BuildKeepsRequiredOptions` adds that the notifier keeps exactly those values |
| Notifier.BuildKeepsRequiredOptions | notifier/notifier.go:25-45 | the selected factory succeeds iff every option it reads ("chat_id" and "token" for telegram, "webhook" for discord, none otherwise) is present and a string; the notifier then keeps exactly those option values |
| Notifier.BuildPanicNamesMissingOption | notifier/notifier.go:27-39 | a panic names an option the selected kind reads that is missing or not a string |
| Notifier.FactoryRoundTrip | notifier/notifier.go:25-45 | every notifier is rebuilt exactly by the factory that its kind's name selects, applied to the options it keeps |
| Notifier.SelectionByName | notifier/notifier.go:25-45 | "telegram" yields a Telegram notifier and "discord" a Discord notifier; any other name, the empty string included, yields the default notifier whatever the options are |
| Watcher.NotifyFromCallsEachOnce | monitor/monitor.go:193-199 | every notifier is called exactly once, in slice order, with the record; its own reply is recorded, and the calls to the others do not depend on it |
| Watcher.WriteFromHandsEachTheRecord | monitor/monitor.go:201-205 | each writer is handed the record exactly once |
| Watcher.Watcher.CallNotifiers | monitor/monitor.go:193-199 | the trace grows by exactly one `Notified` entry per notifier, in order; an entry records the error, and later notifiers are still called |
| Watcher.Watcher.CallWriters | monitor/monitor.go:201-205 | the trace grows by exactly one `Written` entry per writer, each with the record |
| Watcher.Run | monitor/monitor.go:79-174 | from a consistent (state, counter) pair the loop ends consistent; it stops because of cancellation iff a `Cancelled` tick occurs; it ends in INIT iff it started there and made no probe, so INIT is never re-entered |
| Watcher.CountIteration | monitor/monitor.go:101-172 | one iteration makes exactly one request, one writer call per writer, one notifier call per notifier or none, and as many sleeps as `SleepsBeforeNextRequest` says |
| Watcher.RunRequestsEveryProbe | monitor/monitor.go:95-174 | over a run, the number of requests equals the number of attempts before the first cancellation |
| Watcher.RunWritesEveryProbe | monitor/monitor.go:95-174 | over a run with n probes before cancellation and k writers, there are exactly n·k writer calls, whether or not any alert fired |
| Watcher.AlertsAlternate | monitor/monitor.go:113-169 | every notifier receives outage ("ERROR") and recovery ("OK") alerts strictly alternately; the first is an outage unless the run starts in ERROR |
| Watcher.FlappingIsSilent | monitor/monitor.go:113-169 | with a retry budget of at least 1, outcomes that never fail twice in a row keep the state out of ERROR and never notify |
| Watcher.ScenarioThreeFailures | monitor/monitor.go:113-153 | with budget 2, three failures from INIT give PENDING, PENDING, ERROR, and only the third notifies |
| Watcher.ScenarioRecovery | monitor/monitor.go:157-169 | from a confirmed outage one success gives OK, resets the counter and notifies once with status "OK" |
| Watcher.ScenarioZeroBudget | monitor/monitor.go:113-130 | with budget 0 the first failure is already ERROR, with a notification |
| Watcher.StoreAt | monitor/monitor.go:70 | a slice element assignment succeeds iff the index is below the slice's length (0 for a nil slice), replacing that element alone; otherwise it is an index-out-of-range panic carrying the index and length |
| Watcher.WritersAsWritten | monitor/monitor.go:69-71 | the guard as written: a non-nil slice passes unchanged; on a nil slice it stores into index 0 through `StoreAt`, and `NilWritersPanic` derives that this always panics |
| Watcher.NilWritersPanic | monitor/monitor.go:69-71 | as written, the guard panics exactly when the writers slice is nil, with index 0 out of range for length 0, because its only branch stores into that nil slice |
| Watcher.DefaultWriters | monitor/monitor.go:69-71 | as intended, a nil writers slice becomes the console writer alone; any non-nil slice, an empty one included, is kept unchanged, agreeing with the code as written wherever that does not panic; the result is empty only for an explicitly empty slice |
| Watcher.Watcher.constructor | monitor/monitor.go:50-71 | the watcher keeps its monitors and notifiers, its writers are defaulted as intended, and its trace is empty |
| Watcher.Watcher.Fail | monitor/monitor.go:113-155 | a failed iteration enters ERROR when the counter exceeds Retry, otherwise PENDING; it calls the notifiers only when entering ERROR from another state, then hands the record to the writers |
| Watcher.Watcher.Succeed | monitor/monitor.go:157-172 | a successful iteration enters OK, calls the notifiers only when leaving ERROR, hands the record to the writers, then sleeps one interval |
| Watcher.Watcher.Iterate | monitor/monitor.go:101-172 | one loop pass changes the monitor's state and the counter exactly as `Next` says, and appends exactly that iteration's events |
| Watcher.Watcher.WatchMonitor | monitor/monitor.go:79-174 | for one of the watcher's own monitors (the source only runs the loop on them), the loop starts at INIT with counter 0; its final state, trace and stop reason are those of `Run`; the final state is consistent with the counter; it is INIT iff no probe was made |
| Config.LoadMonitors | config/config.go:70-82 | one distinct, fresh monitor per entry, in order; URL, timeout, retry and interval are copied unchanged; runtime fields are at zero values (state INIT) |
| Config.LoadNotifiers | config/config.go:84-91 | when every entry builds, one notifier per entry, in order, and entry i is what its name's factory builds from its options; otherwise the panic of the first entry that fails to build |

## Findings

| source | as written | input that shows it | evidently intended | confidence | as-written member | corrected member |
|---|---|---|---|---|---|---|
| monitor/monitor.go:69-71 | when the writers slice is nil, `Watch` assigns the console writer to element 0 of that nil slice | a `Watcher` whose `Writers` field is left unset | install a one-element slice holding the console writer when the slice is nil; a non-nil slice, even an empty one, is left as given, as the guard tests only for nil | high, not executed | Watcher.NilWritersPanic | Watcher.DefaultWriters |

## Left out

- Concurrency and lifecycle are left out: goroutines, `sync.WaitGroup`, `context`, `listenForInterrupt`, `Watch`'s loop spawning, `Stop`, and the `recover`-and-restart in `watchMonitor`. Cancellation is only the `Cancelled` tick, which the loop checks before each probe. A restarted loop would simply be a fresh `WatchMonitor` call starting at INIT.
- The loop in the source runs until it observes cancellation. `WatchMonitor` runs over a finite sequence of ticks: a `Cancelled` tick is that exit, and running out of ticks means the observation window closed.
- The HTTP client, `res.StatusCode`, `time.Now`, `time.Since` and `time.Sleep` are left out. Their results are inputs: the outcome, the elapsed nanoseconds, and a `Sleep(interval)` trace entry. RFC 3339 formatting of the start time is left out; the formatted text is an input.
- `json.Marshal` of the record is left out. Writers receive the record itself, which stands for its JSON encoding.
- The Discord and Telegram `Notify` bodies (HTTP POSTs) are left out. What each POST returns is an input, one per notifier and iteration. A missing reply means success.
- A failed `.(string)` assertion panics in Go with a runtime type-assertion error that does not carry the option key. `TypeAssertion(key)` records the key only to tell which assertion failed.
- Logging to stderr is left out: the default notifier's print (notifier/notifier.go:19) and the notification-failure print (monitor/monitor.go:196). The error a `Notified` entry records stands for the second.
- The SQLite writer and the console writer are left out. A writer is only an identity that receives records.
- `ReadConfig` and main.go are left out. They are CLI parsing, file loading and process wiring. main.go:25 builds a `[]io.Writer` where the field's type is `[]writer.Writer`; this is not part of the model.
- The loaders' initial slice capacity is left out. It is an allocation hint with no observable effect.
- Nil entries in the configuration slices, which would fault when dereferenced, are left out.
- The `retryCounter` is an unbounded `nat`. Go's `int` would wrap after 2^63 consecutive failures.
- `status` and `errorMsg` in `Monitor` are kept, but the source never writes them. `timeout` is only used by the HTTP client.
- Watcher.Watcher.CallWriters: the trace lists the writers in slice order, but the source launches one goroutine per writer, so only "each writer receives the record exactly once" carries over, not the order or completion of the writes.
- Watcher.WriteFromHandsEachTheRecord: the index order of the entries is the model's; as with `CallWriters`, only one delivery per writer is claimed for the source.
