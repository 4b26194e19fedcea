/** The reconnecting socket wrapper. The transport, the event emitter and the
    timer are abstract: calls made on the transport are appended to `calls`,
    emitted events to `events`, user callbacks invoked to `invocations`, and a
    scheduled reconnect timer is a count that `FireTimer` consumes. Events the
    transport delivers to the wrapper are the `On...` methods. */
module SocketIo {
  import opened Common
  import opened Retries
  import opened ConnectArgs

  /** A transport socket, identified by the order in which it was obtained. */
  type Handle = nat

  /** The event name the transport uses for an established connection. */
  const ConnectName := "connect"
  /** The event name under which `doReconnect` registers its counter reset
      (misspelt in the wrapper, so the transport never emits it). */
  const ResetName := "conncet"

  /** Calls made on the transport socket. */
  datatype Call =
    | NewSocket(h: Handle)                                   // a fresh transport socket
    | Dial(h: Handle, port: Option<int>, host: string)        // connect(port, host, finish) or connect(host, finish)
    | Write(h: Handle, text: string, callback: Option<CallbackId>) // write(Buffer(text), callback)
    | End(h: Handle)
    | ForceClose(h: Handle)                                  // the transport's destroy()
    | ArmTimeout(h: Handle, ms: int)                         // setTimeout(ms), the idle timer
    | KeepAlive(h: Handle, args: seq<Arg>)

  /** Events the wrapper emits to its own listeners. */
  datatype Event =
    | EmitConnect
    | EmitClose(hadError: bool, detail: Option<Error>)
    | EmitData(chunk: Bytes)
    | EmitError(err: Error)
    | EmitIdle
    | EmitDestroy
    | EmitTryReconnect(wait: int)

  /** A user callback invoked with an optional error. */
  datatype Invocation = Invoke(callback: CallbackId, err: Option<Error>)

  /** The constructor's options; `port` is already parsed to an integer. */
  datatype Options = Options(port: Option<int>, host: Option<string>, reconnect: bool,
                             maxRetries: Option<int>, retryInterval: Option<int>)

  /** A one-shot listener on the transport socket: `finish` from `connect`, or the
      counter reset from `doReconnect` (which would clear `waiting` and `retries`). */
  datatype Handler = Finish(callback: Option<CallbackId>) | ResetCounters
  datatype Listener = Listener(event: string, handler: Handler)

  /** The name each kind of one-shot listener is registered under. */
  function EventOf(h: Handler): string {
    match h
    case Finish(_) => ConnectName
    case ResetCounters => ResetName
  }

  /** The one-shot listeners that fire when the transport emits `name`, in order. */
  function Fired(ls: seq<Listener>, name: string): (r: seq<Listener>)
    ensures |r| <= |ls|
    ensures forall i :: 0 <= i < |r| ==> r[i].event == name
  {
    if |ls| == 0 then []
    else Fired(ls[..|ls| - 1], name) + (if ls[|ls| - 1].event == name then [ls[|ls| - 1]] else [])
  }

  /** The one-shot listeners still registered after `name` was emitted. */
  function Remaining(ls: seq<Listener>, name: string): (r: seq<Listener>)
    ensures |r| <= |ls|
    ensures forall i :: 0 <= i < |r| ==> r[i].event != name
  {
    if |ls| == 0 then []
    else Remaining(ls[..|ls| - 1], name) + (if ls[|ls| - 1].event != name then [ls[|ls| - 1]] else [])
  }

  /** The listeners that fire are exactly the registered ones under `name`, and
      those that stay are exactly the registered ones under other names. */
  lemma {:induction false} FiredAndRemainingMembers(ls: seq<Listener>, name: string)
    ensures forall l :: l in Fired(ls, name) <==> l in ls && l.event == name
    ensures forall l :: l in Remaining(ls, name) <==> l in ls && l.event != name
  {
    if |ls| > 0 {
      var init := ls[..|ls| - 1];
      FiredAndRemainingMembers(init, name);
      assert ls == init + [ls[|ls| - 1]];
    }
  }

  /** Every listener fired by one emission either fires or stays: nothing is lost. */
  lemma {:induction false} FiredPlusRemaining(ls: seq<Listener>, name: string)
    ensures |Fired(ls, name)| + |Remaining(ls, name)| == |ls|
  {
    if |ls| > 0 {
      FiredPlusRemaining(ls[..|ls| - 1], name);
    }
  }

  /** The user callbacks the fired `finish` listeners invoke, in order, without error. */
  function UserCallbacks(fired: seq<Listener>): (r: seq<Invocation>)
    ensures |r| <= |fired|
  {
    if |fired| == 0 then []
    else UserCallbacks(fired[..|fired| - 1]) + CallbackOf(fired[|fired| - 1])
  }

  /** Each `finish` listener holding a callback invokes it, without error, and
      nothing else is invoked. */
  lemma {:induction false} UserCallbacksInvoke(fired: seq<Listener>)
    ensures forall v :: v in UserCallbacks(fired) ==>
      v.err == None && Listener(ConnectName, Finish(Some(v.callback))) in fired
    ensures forall c :: Listener(ConnectName, Finish(Some(c))) in fired ==> Invoke(c, None) in UserCallbacks(fired)
  {
    if |fired| > 0 {
      var init := fired[..|fired| - 1];
      UserCallbacksInvoke(init);
      assert fired == init + [fired[|fired| - 1]];
    }
  }

  /** The invocation one fired listener makes: a `finish` that holds a callback calls it. */
  function CallbackOf(l: Listener): seq<Invocation> {
    match l
    case Listener(name, Finish(Some(c))) => if name == ConnectName then [Invoke(c, None)] else []
    case _ => []
  }

  /** How the constructor is called. With a truthy second argument the first one
      is the socket to wrap. Otherwise the single argument (or `{}` when there is
      none) is the options object and a new socket is built from it. */
  datatype Construction = WrapSocket(given: Handle, options: Options) | BuildSocket(options: Options)

  /** The options of `new SocketIo()`: an empty object. */
  const NoOptions := Options(None, None, false, None, None)

  /** A listener sits under the name its kind is registered under. */
  predicate WellRegistered(l: Listener) {
    l.event == EventOf(l.handler)
  }

  predicate AllRegistered(ls: seq<Listener>) {
    forall i :: 0 <= i < |ls| ==> WellRegistered(ls[i])
  }

  /** Registering a listener under its own name keeps every listener well registered. */
  lemma RegisterKeepsRegistered(ls: seq<Listener>, l: Listener)
    requires AllRegistered(ls) && WellRegistered(l)
    ensures AllRegistered(ls + [l])
  {
    forall i | 0 <= i < |ls| + 1
      ensures WellRegistered((ls + [l])[i])
    {
      if i < |ls| {
        assert (ls + [l])[i] == ls[i];
      }
    }
  }

  /** The counter reset of `doReconnect` never fires: a `connect` emission fires
      only `finish` listeners, and every reset listener stays registered. */
  lemma ResetNeverFires(ls: seq<Listener>)
    requires AllRegistered(ls)
    ensures forall l :: l in Fired(ls, ConnectName) ==> l.handler.Finish?
    ensures forall l :: l in ls && l.handler.ResetCounters? ==> l in Remaining(ls, ConnectName)
    ensures AllRegistered(Remaining(ls, ConnectName))
  {
    FiredAndRemainingMembers(ls, ConnectName);
    forall l | l in ls
      ensures WellRegistered(l)
    {
      var i :| 0 <= i < |ls| && ls[i] == l;
    }
    var rest := Remaining(ls, ConnectName);
    forall i | 0 <= i < |rest|
      ensures WellRegistered(rest[i])
    {
      assert rest[i] in rest;
    }
  }

  /** `n` copies of event `e`. */
  function Repeat(e: Event, n: nat): (r: seq<Event>)
    ensures |r| == n && forall i :: 0 <= i < n ==> r[i] == e
  {
    if n == 0 then [] else Repeat(e, n - 1) + [e]
  }

  /** The close event: with the error flag and detail when the transport reports
      an error, plain otherwise. */
  function CloseEvent(hadError: bool, detail: Option<Error>): (e: Event)
    ensures e.EmitClose? && e.hadError == hadError
    ensures e.detail == if hadError then detail else None
  {
    if hadError then EmitClose(true, detail) else EmitClose(false, None)
  }

  /** What `send` does with its data: write it, hand the error to the callback,
      or throw because there is no callback to hand it to. */
  datatype SendAction = WriteText(text: string) | Reject(err: Error) | ThrowNoCallback

  /** The type check in `send`. Only a string is written: the second branch tests
      the still unassigned local `buff` instead of `data`, so a buffer falls
      through to the error like any other value. The error path calls the
      callback unconditionally, so without one it throws. */
  function Classify(data: Payload, callback: Option<CallbackId>): (a: SendAction)
    ensures a.WriteText? <==> data.Text?
    ensures a.WriteText? ==> a.text == data.s
    ensures a.Reject? <==> !data.Text? && callback.Some?
    ensures a.Reject? ==> a.err == IllegalParameterType
    ensures a.ThrowNoCallback? <==> !data.Text? && callback.None?
  {
    if data.Text? then WriteText(data.s)
    else if callback.Some? then Reject(IllegalParameterType)
    else ThrowNoCallback
  }

  /** The data given to `send`. */
  datatype Payload = Text(s: string) | Buffer(bytes: Bytes) | OtherValue

  class SocketIo {
    var socket: Handle
    var nextHandle: nat            // handles below this one have been handed out
    var connected: bool
    var retry: Retry
    var port: Option<int>
    var host: Option<string>
    var reconnectEnabled: bool     // `$reconnect`
    var idleTimeout: Option<int>   // `$timeout`
    var pendingTimers: nat         // reconnect timers scheduled and not yet fired
    var onceHandlers: seq<Listener> // one-shot listeners on the current socket
    var events: seq<Event>
    var calls: seq<Call>
    var invocations: seq<Invocation>

    ghost predicate Valid()
      reads this
    {
      && socket < nextHandle
      && (port.Some? ==> port.value != 0)
      && (host.Some? ==> host.value != "")
      && RetryInvariant(retry)
      && AllRegistered(onceHandlers)
    }

    /** Wraps the given socket, or builds a new one when no options object is
        passed as second argument; the retry record takes its defaults, the port
        and host are kept when truthy. */
    constructor (how: Construction)
      ensures Valid()
      ensures var options := how.options;
        && retry == InitialRetry(options.maxRetries, options.retryInterval)
        && port == (if TruthyNum(options.port) then options.port else None)
        && host == (if TruthyStr(options.host) then options.host else None)
        && reconnectEnabled == options.reconnect
      ensures idleTimeout == None && connected && pendingTimers == 0 && onceHandlers == []
      ensures events == [] && invocations == []
      ensures nextHandle == socket + 1
      ensures how.WrapSocket? ==> socket == how.given && calls == []
      ensures how.BuildSocket? ==> calls == [NewSocket(socket)]
    {
      var options := how.options;
      var h := if how.WrapSocket? then how.given else 0;
      socket := h;
      nextHandle := h + 1;
      calls := if how.WrapSocket? then [] else [NewSocket(h)];
      connected := true;
      retry := InitialRetry(options.maxRetries, options.retryInterval);
      port := if TruthyNum(options.port) then options.port else None;
      host := if TruthyStr(options.host) then options.host else None;
      reconnectEnabled := options.reconnect;
      idleTimeout := None;
      pendingTimers := 0;
      onceHandlers := [];
      events := [];
      invocations := [];
    }

    /** `reconnect()`: a no-op while `waiting`; otherwise one backoff step, one
        `tryReconnect` event carrying the new wait, and one more pending timer. */
    method Reconnect()
      requires Valid()
      modifies this
      ensures Valid()
      ensures retry == ReconnectStep(old(retry))
      ensures old(retry.waiting) ==> events == old(events) && pendingTimers == old(pendingTimers)
      ensures !old(retry.waiting) ==>
        && retry.wait == BackoffWait(old(retry.interval), old(retry.retries))
        && retry.retries == old(retry.retries) + 1
        && events == old(events) + [EmitTryReconnect(retry.wait)]
        && pendingTimers == old(pendingTimers) + 1
      ensures socket == old(socket) && nextHandle == old(nextHandle) && connected == old(connected)
      ensures port == old(port) && host == old(host) && onceHandlers == old(onceHandlers)
      ensures reconnectEnabled == old(reconnectEnabled) && idleTimeout == old(idleTimeout)
      ensures calls == old(calls) && invocations == old(invocations)
    {
      if retry.waiting {
        return;
      }
      retry := retry.(waiting := true);
      retry := retry.(wait := BackoffWait(retry.interval, retry.retries));
      retry := retry.(retries := retry.retries + 1);
      events := events + [EmitTryReconnect(retry.wait)];
      pendingTimers := pendingTimers + 1;
    }

    /** `tryConnect`, the timer callback: with the budget spent, the "maximum
        retries" error and nothing else (`waiting` stays set); otherwise `doReconnect`. */
    method FireTimer()
      requires Valid() && pendingTimers > 0
      modifies this
      ensures Valid()
      ensures pendingTimers == old(pendingTimers) - 1
      ensures retry == old(retry) && invocations == old(invocations)
      ensures GivesUp(old(retry)) ==>
        && events == old(events) + [EmitError(MaxRetries(retry.max))]
        && calls == old(calls) && socket == old(socket) && nextHandle == old(nextHandle)
        && port == old(port) && host == old(host) && onceHandlers == old(onceHandlers)
        && connected == old(connected)
      ensures !GivesUp(old(retry)) ==>
        var e := ResolveEndpoint(None, None, old(port), old(host));
        && events == old(events)
        && socket == old(nextHandle) && nextHandle == old(nextHandle) + 1
        && calls == old(calls) + RedialCalls(old(socket), socket, e)
        && port == e.port && host == Some(e.host) && connected
        && onceHandlers == [Listener(ResetName, ResetCounters), Listener(ConnectName, Finish(None))]
      ensures reconnectEnabled == old(reconnectEnabled) && idleTimeout == old(idleTimeout)
    {
      pendingTimers := pendingTimers - 1;
      if retry.retries >= retry.max {
        events := events + [EmitError(MaxRetries(retry.max))];
        return;
      }
      DoReconnect();
    }

    /** The transport calls of one `doReconnect`: tear down the old socket, make a
        new one, and dial the stored endpoint. */
    static function RedialCalls(oldSocket: Handle, newSocket: Handle, e: Endpoint): seq<Call> {
      [End(oldSocket), ForceClose(oldSocket), NewSocket(newSocket), Dial(newSocket, e.port, e.host)]
    }

    /** `doReconnect`: the old socket is ended, closed and stripped of its
        listeners, a new socket takes its place with the misspelt reset listener,
        and `connect()` is called with no arguments; the retry record, the timers,
        the callbacks invoked and the options stay as they were. */
    method DoReconnect()
      requires Valid()
      modifies this`socket, this`nextHandle, this`calls, this`onceHandlers
      modifies this`events, this`port, this`host, this`connected
      ensures Valid()
      ensures var e := ResolveEndpoint(None, None, old(port), old(host));
        && socket == old(nextHandle) && nextHandle == old(nextHandle) + 1
        && calls == old(calls) + RedialCalls(old(socket), socket, e)
        && port == e.port && host == Some(e.host) && connected
        && onceHandlers == [Listener(ResetName, ResetCounters), Listener(ConnectName, Finish(None))]
      ensures events == old(events)
    {
      calls := calls + [End(socket), ForceClose(socket)];
      onceHandlers := [];
      socket := nextHandle;
      nextHandle := nextHandle + 1;
      calls := calls + [NewSocket(socket)];
      onceHandlers := [Listener(ResetName, ResetCounters)];
      assert LastPort([]) == None && LastHost([]) == None;
      assert LastCallback([]) == None && BadCount([]) == 0;
      Connect([]);
    }

    /** `connect(...)`: scans the arguments, emits one "Bad argument" error per
        value of another type, stores the resolved endpoint, registers `finish`
        with the last callback, and dials the port (when truthy) and host; no other
        field changes. */
    method Connect(args: seq<Arg>)
      requires Valid()
      modifies this`events, this`port, this`host, this`onceHandlers, this`connected, this`calls
      ensures Valid()
      ensures var e := ResolveEndpoint(LastPort(args), LastHost(args), old(port), old(host));
        && port == e.port && host == Some(e.host)
        && calls == old(calls) + [Dial(socket, e.port, e.host)]
      ensures events == old(events) + Repeat(EmitError(BadArgument), BadCount(args))
      ensures onceHandlers == old(onceHandlers) + [Listener(ConnectName, Finish(LastCallback(args)))]
      ensures connected
    {
      var argPort, argHost, callback, bad := ScanArgs(args);
      var e := ResolveEndpoint(argPort, argHost, port, host);
      var dialPort := if TruthyNum(e.port) then e.port else None;
      assert dialPort == e.port;
      var finish := Listener(ConnectName, Finish(callback));
      RegisterKeepsRegistered(onceHandlers, finish);
      assert e.port.Some? ==> e.port.value != 0;
      assert AllRegistered(onceHandlers + [finish]);
      events, port, host, onceHandlers, connected, calls :=
        events + Repeat(EmitError(BadArgument), bad), e.port, Some(e.host),
        onceHandlers + [finish], true, calls + [Dial(socket, dialPort, e.host)];
    }

    /** The transport reports a connection: `connect` is re-emitted, then every
        pending `finish` fires, which clears `waiting` and `retries` and invokes
        its callback. The misspelt reset listener stays registered and silent. */
    method OnConnect()
      requires Valid()
      modifies this
      ensures Valid()
      ensures events == old(events) + [EmitConnect]
      ensures var fired := Fired(old(onceHandlers), ConnectName);
        && onceHandlers == Remaining(old(onceHandlers), ConnectName)
        && retry == (if |fired| > 0 then FinishStep(old(retry)) else old(retry))
        && invocations == old(invocations) + UserCallbacks(fired)
      ensures socket == old(socket) && nextHandle == old(nextHandle) && connected == old(connected)
      ensures port == old(port) && host == old(host) && calls == old(calls)
      ensures pendingTimers == old(pendingTimers)
      ensures reconnectEnabled == old(reconnectEnabled) && idleTimeout == old(idleTimeout)
    {
      var fired := Fired(onceHandlers, ConnectName);
      var rest := Remaining(onceHandlers, ConnectName);
      ResetNeverFires(onceHandlers);
      events := events + [EmitConnect];
      if |fired| > 0 {
        retry := FinishStep(retry);
      }
      invocations := invocations + UserCallbacks(fired);
      onceHandlers := rest;
    }

    /** The transport closed: `connected` is cleared, `close` is re-emitted, and
        with auto-reconnect on, `reconnect()` runs (a socket is always present). */
    method OnClose(hadError: bool, detail: Option<Error>)
      requires Valid()
      modifies this
      ensures Valid()
      ensures !connected
      ensures reconnectEnabled ==> retry == ReconnectStep(old(retry))
      ensures !reconnectEnabled ==> retry == old(retry)
      ensures events == old(events) + [CloseEvent(hadError, detail)] +
        (if reconnectEnabled && !old(retry.waiting) then [EmitTryReconnect(retry.wait)] else [])
      ensures pendingTimers == old(pendingTimers) + (if reconnectEnabled && !old(retry.waiting) then 1 else 0)
      ensures socket == old(socket) && nextHandle == old(nextHandle) && onceHandlers == old(onceHandlers)
      ensures port == old(port) && host == old(host) && calls == old(calls) && invocations == old(invocations)
      ensures reconnectEnabled == old(reconnectEnabled) && idleTimeout == old(idleTimeout)
    {
      connected := false;
      events := events + [CloseEvent(hadError, detail)];
      if reconnectEnabled {
        Reconnect();
      }
    }

    /** Data from the transport is re-emitted unchanged. */
    method OnData(chunk: Bytes)
      requires Valid()
      modifies this`events
      ensures events == old(events) + [EmitData(chunk)]
    {
      events := events + [EmitData(chunk)];
    }

    /** The transport failed: `connected` and `waiting` are cleared; with
        auto-reconnect on, `reconnect()` therefore always schedules a retry,
        otherwise the error (or the default one) is emitted. */
    method OnError(err: Option<Error>)
      requires Valid()
      modifies this
      ensures Valid()
      ensures !connected
      ensures reconnectEnabled ==>
        && retry == ReconnectStep(ErrorStep(old(retry)))
        && retry.retries == old(retry.retries) + 1
        && events == old(events) + [EmitTryReconnect(retry.wait)]
        && pendingTimers == old(pendingTimers) + 1
      ensures !reconnectEnabled ==>
        && retry == ErrorStep(old(retry))
        && events == old(events) + [EmitError(if err.Some? then err.value else UnknownError)]
        && pendingTimers == old(pendingTimers)
      ensures socket == old(socket) && nextHandle == old(nextHandle) && onceHandlers == old(onceHandlers)
      ensures port == old(port) && host == old(host) && calls == old(calls) && invocations == old(invocations)
      ensures reconnectEnabled == old(reconnectEnabled) && idleTimeout == old(idleTimeout)
    {
      connected := false;
      retry := retry.(waiting := false);
      if reconnectEnabled {
        Reconnect();
      } else {
        events := events + [EmitError(if err.Some? then err.value else UnknownError)];
      }
    }

    /** The idle timer expired: `idle` is emitted and the last duration given to
        `SetIdle` is applied again when it is truthy. */
    method OnTimeout()
      requires Valid()
      modifies this`events, this`calls
      ensures events == old(events) + [EmitIdle]
      ensures calls == old(calls) + (if TruthyNum(idleTimeout) then [ArmTimeout(socket, idleTimeout.value)] else [])
    {
      events := events + [EmitIdle];
      if TruthyNum(idleTimeout) {
        calls := calls + [ArmTimeout(socket, idleTimeout.value)];
      }
    }

    /** `setIdle(time)`: arms the transport's idle timer and remembers the duration. */
    method SetIdle(time: int)
      requires Valid()
      modifies this`calls, this`idleTimeout
      ensures calls == old(calls) + [ArmTimeout(socket, time)]
      ensures idleTimeout == Some(time)
    {
      calls := calls + [ArmTimeout(socket, time)];
      idleTimeout := Some(time);
    }

    /** `setKeepAlive(...)`: the arguments go to the transport unchanged. */
    method SetKeepAlive(args: seq<Arg>)
      requires Valid()
      modifies this`calls
      ensures calls == old(calls) + [KeepAlive(socket, args)]
    {
      calls := calls + [KeepAlive(socket, args)];
    }

    /** `send(data, callback)`: a string is written once with the callback, which
        may be absent; any other value, buffers included, invokes the callback with
        the type error and writes nothing, or throws when there is no callback. */
    method Send(data: Payload, callback: Option<CallbackId>) returns (thrown: bool)
      requires Valid()
      modifies this`calls, this`invocations
      ensures thrown <==> !data.Text? && callback.None?
      ensures data.Text? ==> calls == old(calls) + [Write(socket, data.s, callback)] && invocations == old(invocations)
      ensures !data.Text? && callback.Some? ==>
        calls == old(calls) && invocations == old(invocations) + [Invoke(callback.value, Some(IllegalParameterType))]
      ensures thrown ==> calls == old(calls) && invocations == old(invocations)
    {
      thrown := false;
      match Classify(data, callback) {
        case WriteText(text) => calls := calls + [Write(socket, text, callback)];
        case Reject(err) => invocations := invocations + [Invoke(callback.value, Some(err))];
        case ThrowNoCallback => thrown := true;
      }
    }

    /** `destroy()`: the transport is ended and closed and `destroy` is emitted.
        The socket reference is kept, so its listeners stay attached. */
    method Destroy()
      requires Valid()
      modifies this`calls, this`events
      ensures calls == old(calls) + [End(socket), ForceClose(socket)]
      ensures events == old(events) + [EmitDestroy]
    {
      calls := calls + [End(socket), ForceClose(socket)];
      events := events + [EmitDestroy];
    }
  }
}
