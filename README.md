# socket_io — a verified model of the reconnecting socket wrapper

`SocketIo` wraps one TCP socket and adds automatic reconnection with
exponential backoff. It also re-emits the socket's events
(`connect`, `close`, `data`, `error`, `idle`, `destroy`, `tryReconnect`).
This project models the wrapper's own logic in Dafny:

- the `retry` record (`retries`, `max`, `interval`, `wait`, `waiting`);
- the flags `connected`, `$reconnect` and `$timeout`;
- every step that changes them: `reconnect()`, the timer callback
  `tryConnect`, `doReconnect`, and the `close`, `error` and `timeout`
  handlers installed by `_setup`;
- the `finish` completion of `connect`;
- the argument resolution of `connect`;
- the type check of `send`.

The transport socket, the event emitter and the timer are abstract:

- A call made on the transport is an entry appended to `calls`.
- An emitted event is an entry appended to `events`.
- A user callback that is invoked is an entry appended to `invocations`.
- A scheduled reconnect timer adds one to `pendingTimers`. `FireTimer`
  runs one of them.
- An event the transport delivers to the wrapper is a method: `OnConnect`,
  `OnClose`, `OnData`, `OnError` or `OnTimeout`.

Files:

- `common.dfy` (module `Common`): `Option`, the wrapper's errors and their
  messages, and JavaScript truthiness for numbers and strings.
- `retries.dfy` (module `Retries`): the retry record, the constructor's
  defaults, the backoff `interval * 2^retries`, and the steps that change the
  record. It also proves what a run looks like when every attempt fails.
- `connect_args.dfy` (module `ConnectArgs`): the scan over `connect`'s
  arguments, written as a loop and proved against "last argument of each
  kind", and the fallback to the stored port and host.
- `socket_io.dfy` (module `SocketIo`): the class `SocketIo` with its fields and
  operations, the one-shot listeners on the transport, and `send`'s check.
- `scenarios.dfy` (module `Scenarios`): short runs of the class, proved from
  the method contracts alone.

Quirks of the code that the model keeps:

- The reset listener in `doReconnect` is registered under `'conncet'`. The
  transport never emits that name, so a connection clears the counters only
  through `finish`. One-shot listeners are kept as (event name, handler)
  pairs, and `OnConnect` fires only those registered under `"connect"`.
- The retry cap is checked after the increment: `tryConnect` gives up when
  `retries >= max` (lib/socket_io.js:108), and `retries` was already raised
  when the timer was set (line 117). Starting from zero, a server that never
  accepts sees `max - 1` redials and then the "maximum retries" error. After
  that error `waiting` stays set, so `reconnect()` does nothing until an
  error handler clears `waiting`.
- `send` rejects buffers. Line 191 tests the unassigned local `buff`, not
  `data`, so only strings are written. With no callback, the rejection is a
  call of `undefined`, which throws a `TypeError` (line 194).
- The error handler clears `waiting` before it calls `reconnect()` (lines
  67-69). With auto-reconnect on, an error therefore always schedules another
  timer, even while one is still pending. For this reason pending timers are
  counted, not kept as one flag (`Scenarios.ErrorsStackTimers`).
- The `close` handler tests `self.socket` (line 57). The socket is never null
  after construction, so only `$reconnect` decides.
- `destroy()` does not clear the socket reference (lines 172-184). Its
  listeners stay, and a later `close` still reconnects
  (`Scenarios.CloseAfterDestroy`).
- `destroy()` cancels no timer. A reconnect timer set before it still fires
  afterwards. It ends and closes handle 0 a second time, builds socket 1 and
  dials it (`Scenarios.DestroyThenTimerRedials`).
- `finish` resets the counter but cancels no timer (lines 154-158). A
  connection that succeeds while a timer is pending is torn down when the
  timer fires (`Scenarios.TimerTearsDownConnection`).
- `doReconnect` builds the new socket from `self.options`, which is never
  assigned (line 96; the options are stored as `$options`, line 36).
  `NewSocket` therefore carries no options.

`Dial(h, port, host)` stands for `connect(port, host, finish)` when `port` is
`Some`, and for `connect(host, finish)` when it is `None`. The invariant
`Valid()` keeps a stored port non-zero, so `Some` holds exactly when the
source's `this.port` is truthy.

## Model

| member | source | states |
|---|---|---|
| `Common.MaxRetriesMessage` | lib/socket_io.js:109-110 | the give-up error reads "Did not reconnect after maximum retries: " followed by the cap and a full stop; with the default cap it is exactly "…: 10." |
| `Retries.InitialRetry` | lib/socket_io.js:21-26 | the counter starts at 0 and `waiting` is false; a falsy `maxRetries` (absent or 0) gives 10 and a falsy `retryInterval` gives 5000; the first `wait` equals the interval; the record satisfies the backoff invariant |
| `Retries.Pow2` | lib/socket_io.js:116 | the power of two used by the backoff is at least 1 |
| `Retries.BackoffWait` | lib/socket_io.js:116 | with a positive interval the wait is at least the interval, and a non-zero interval never gives a zero wait |
| `Retries.ReconnectStep` | lib/socket_io.js:84-117 | while `waiting` the record is returned unchanged; otherwise `wait` becomes `interval * 2^retries` of the old count and the count goes up by one; `waiting` is set either way; `max` and `interval` are unchanged; the invariant "`wait` is the backoff of the attempt before the current count" is preserved |
| `Retries.GivesUp` | lib/socket_io.js:108 | the timer gives up when `retries >= max`: always when the cap is not positive, and with a positive cap only after at least one attempt |
| `Retries.ErrorStep` | lib/socket_io.js:67 | the error handler clears `waiting` and changes no other field |
| `Retries.FinishStep` | lib/socket_io.js:154-156 | `finish` clears `waiting` and sets the counter to 0; `wait`, `max` and `interval` are unchanged |
| `Retries.FailingRun` | lib/socket_io.js:64-121 | a run of failed attempts announces at least one wait, and the first is the backoff of the current count |
| `Retries.FailingRunWaits` | lib/socket_io.js:107-121 | when every attempt fails, the run announces `max - retries` waits (at least one), and the k-th wait is `interval * 2^(retries + k)` |
| `Retries.FreshRunRedials` | lib/socket_io.js:107-117 | from the constructor's record with a positive cap, exactly `max - 1` redials happen before the "maximum retries" error, with waits `interval * 2^k` |
| `Retries.BackoffIncreasing` | lib/socket_io.js:116 | with a positive interval, each backoff wait is strictly longer than every earlier one |
| `ConnectArgs.LastIndex` | lib/socket_io.js:132-147 | a found position is within the arguments and holds an argument of the given kind |
| `ConnectArgs.LastIndexIsLast` | lib/socket_io.js:132-147 | no argument after the found position has that kind, and nothing is found exactly when no argument has that kind |
| `ConnectArgs.BadCount` | lib/socket_io.js:143-145 | the number of bad arguments is at most the number of arguments |
| `ConnectArgs.BadCountZero` | lib/socket_io.js:143-145 | no argument is bad exactly when every argument is a number, a string or a function |
| `ConnectArgs.ScanOneMore` | lib/socket_io.js:132-147 | one more argument becomes the last of its own kind and leaves the other kinds' last values alone; only a value of another type adds a bad argument |
| `ConnectArgs.ScanArgs` | lib/socket_io.js:132-147 | the `forEach` loop leaves the last number as the port, the last string as the host, the last function as the callback, and counts the other values |
| `ConnectArgs.ResolveEndpoint` | lib/socket_io.js:150-151 | a truthy argument port wins, otherwise the stored port is kept, so 0 counts as absent; the host is the argument host, else the stored host, else `127.0.0.1`, and is never empty; a non-zero stored port gives a non-zero result |
| `ConnectArgs.ConnectAnyOrder` | lib/socket_io.js:132-147 | any ordering of one port, one host and one callback resolves to that port, host and callback, with no bad-argument error |
| `ConnectArgs.RedialKeepsEndpoint` | lib/socket_io.js:150-151 | `connect()` with no arguments, as `doReconnect` calls it, dials the stored port and the stored host, or `127.0.0.1` when no truthy host is stored |
| `SocketIo.Fired` | lib/socket_io.js:154-159 | every one-shot listener that fires on an event is registered under that event name, and no more fire than are registered |
| `SocketIo.Remaining` | lib/socket_io.js:154-159 | every one-shot listener left after an event is registered under another name, and no more remain than are registered |
| `SocketIo.FiredAndRemainingMembers` | lib/socket_io.js:154-159 | a listener fires exactly when it is registered under the emitted name, and stays exactly when it is registered under another name |
| `SocketIo.FiredPlusRemaining` | lib/socket_io.js:154-159 | each registered one-shot listener either fires or stays registered; none is lost |
| `SocketIo.UserCallbacks` | lib/socket_io.js:157 | the fired listeners invoke at most one user callback each |
| `SocketIo.UserCallbacksInvoke` | lib/socket_io.js:154-158 | every `finish` listener that holds a callback invokes it with no error, and nothing else is invoked |
| `SocketIo.RegisterKeepsRegistered` | lib/socket_io.js:159-165 | registering a `finish` under `connect` or the reset under `conncet` keeps every listener under its own handler's name |
| `SocketIo.ResetNeverFires` | lib/socket_io.js:98-101 | because its event name is misspelt, the counter reset of `doReconnect` never fires on a `connect` event and stays registered; only `finish` listeners fire, and what stays is still well registered |
| `SocketIo.Repeat` | lib/socket_io.js:143-145 | one "Bad argument" event per offending argument |
| `SocketIo.CloseEvent` | lib/socket_io.js:51-55 | `close` is re-emitted with the `hadError` flag; the detail is passed on exactly when `hadError` is set |
| `SocketIo.Classify` | lib/socket_io.js:186-195 | data is written exactly when it is a string, unchanged; every other value, a buffer included, is rejected with "illegal parameter type" when a callback is given, and throws exactly when there is none |
| `SocketIo.SocketIo.constructor` | lib/socket_io.js:10-39 | a socket is created exactly when no options object is passed, and the single argument is then the options; otherwise the given socket is wrapped; the retry record takes its defaults; a truthy port or host is kept; `$reconnect` is copied; the wrapper starts connected with empty traces |
| `SocketIo.SocketIo.Reconnect` | lib/socket_io.js:81-122 | while `waiting`, nothing changes: no event and no timer; otherwise `wait` is `interval * 2^old retries`, the counter goes up by one, `waiting` is set, and exactly one `tryReconnect` event with that wait is emitted and one timer is added |
| `SocketIo.SocketIo.FireTimer` | lib/socket_io.js:107-113 | with `retries >= max`, only the "maximum retries" error is emitted: no socket change, no dial, and `waiting` stays set; otherwise `doReconnect` runs; one pending timer is used up either way |
| `SocketIo.SocketIo.DoReconnect` | lib/socket_io.js:88-105 | the old socket is ended and closed and its listeners dropped; a fresh socket is created with the misspelt reset listener; the stored endpoint is dialled; the retry record is unchanged |
| `SocketIo.SocketIo.Connect` | lib/socket_io.js:124-166 | one "Bad argument" error per bad argument; the stored port and host become the resolved endpoint; `finish` is registered with the last callback; `connected` is set; exactly one dial of the resolved endpoint; no other field changes |
| `SocketIo.SocketIo.OnConnect` | lib/socket_io.js:44-46 | `connect` is re-emitted; if any `finish` is pending, the counter and `waiting` are cleared and each user callback is invoked; the fired listeners are dropped and the misspelt one stays |
| `SocketIo.SocketIo.OnClose` | lib/socket_io.js:48-58 | `connected` is cleared; `close` is re-emitted, with the flag and detail only when `hadError`; with `$reconnect` set, `reconnect()` runs with its guard |
| `SocketIo.SocketIo.OnData` | lib/socket_io.js:60-62 | the chunk is re-emitted unchanged |
| `SocketIo.SocketIo.OnError` | lib/socket_io.js:64-73 | `connected` and `waiting` are cleared; with `$reconnect` set, the counter always goes up and a `tryReconnect` is emitted; otherwise the error, or "Unknown error", is emitted |
| `SocketIo.SocketIo.OnTimeout` | lib/socket_io.js:75-78 | `idle` is emitted, and the idle timer is re-armed with the stored duration exactly when that duration is truthy |
| `SocketIo.SocketIo.SetIdle` | lib/socket_io.js:199-202 | the transport's idle timer is armed with the duration, and the duration is stored |
| `SocketIo.SocketIo.SetKeepAlive` | lib/socket_io.js:168-170 | the arguments go to the transport unchanged |
| `SocketIo.SocketIo.Send` | lib/socket_io.js:186-197 | a string gives exactly one write, with the callback or none; any other value gives no write, and either one callback invocation with "illegal parameter type" or, with no callback, a throw and nothing else |
| `SocketIo.SocketIo.Destroy` | lib/socket_io.js:172-184 | the transport is ended and closed and `destroy` is emitted; the socket reference is not cleared |
| `Scenarios.ErrorsStackTimers` | lib/socket_io.js:64-73 | two errors in a row with auto-reconnect give two pending timers and waits 5000 and 10000 |
| `Scenarios.CloseWhileWaiting` | lib/socket_io.js:48-58 | a close while a reconnect is pending adds no timer and no `tryReconnect` event |
| `Scenarios.GiveUpAfterMaxRetries` | lib/socket_io.js:107-113 | with `maxRetries` 2, one redial happens and then the "maximum retries" error; a later `reconnect()` does nothing |
| `Scenarios.CloseAfterDestroy` | lib/socket_io.js:172-184 | after `destroy()`, a close still schedules a reconnect |
| `Scenarios.HostCallbackPort` | lib/socket_io.js:132-147 | the arguments `"example.com"`, a callback and `8080` resolve to that host, callback and port, with no bad argument |
| `Scenarios.ConnectResetsCounter` | lib/socket_io.js:154-158 | `connect("example.com", cb, 8080)` dials port 8080 on example.com, and the connection clears the counter and calls `cb` |
| `Scenarios.DestroyThenTimerRedials` | lib/socket_io.js:172-184 | a timer set before `destroy()` still fires: the destroyed socket 0 is ended and closed again, socket 1 is built and dialled |
| `Scenarios.ConnectWhileTimerPending` | lib/socket_io.js:154-158 | a connection made while a timer is pending clears the counter and `waiting`, and the timer stays pending |
| `Scenarios.TimerTearsDownConnection` | lib/socket_io.js:107-113 | the pending timer then still fires and replaces the socket that has just connected |

## Left out

- Transport socket operations (`connect`, `write`, `end`, `destroy`,
  `setTimeout`, `setKeepAlive`, construction) are foreign I/O. Each is a
  `calls` entry; their behaviour is not modelled.
- Time and `setTimeout` are not modelled. A timer is a counter, and
  `FireTimer` is an explicit step. The delay itself is not modelled.
- Event emitter machinery is left out. This covers listener fan-out to
  external listeners, `removeAllListeners()` in `destroy()`, and the throw
  on an `error` event with no listener. Emitted events are a trace. Because
  of this the trace does not show that the `destroy` event, emitted after
  the wrapper's listeners are removed, reaches no one.
- The re-registration of the last external `error` listener on the
  transport (lib/socket_io.js:160-163) is left out, because the listener
  registry is not modelled.
- `Math.pow` floating point is left out. The backoff is the exact integer
  `interval * 2^retries`, so precision loss past 2^53 is not modelled.
- `parseInt` on the constructor's port is left out. The option is taken as
  an already parsed `Option<int>`. `NaN` as a falsy number is not modelled.
- The `Buffer` conversion in `send` is left out. A write records the string
  itself, not its bytes.
- The try/catch in `destroy()` is left out. Transport errors during teardown
  are not modelled.
- The `connect` event re-emit and the `data` forwarding are modelled only as
  trace entries. No other code depends on them.
- `new SocketIo(sock)` with a transport socket as the only argument is not
  modelled separately. The code reads that socket as the options object
  (line 14) and builds a new socket. A net socket carries none of the
  recognised option fields, so this is `BuildSocket` with empty options
  (`NoOptions`).
- `new SocketIo(undefined, opts)` is left out. It throws in `_setup`
  (line 44) because there is no socket to listen on, and `Construction`
  always has a socket to wrap or build.
