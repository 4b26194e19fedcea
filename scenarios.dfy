/** Short runs of the wrapper that show, from the methods' contracts alone, how
    the reconnect bookkeeping behaves across several steps. */
module Scenarios {
  import opened Common
  import opened Retries
  import opened ConnectArgs
  import opened SocketIo

  /** Two transport errors in a row schedule two reconnect timers: the error
      handler clears `waiting` before calling `reconnect()`, so the guard does
      not hold back the second one. */
  method ErrorsStackTimers() returns (s: SocketIo)
    ensures s.Valid() && s.pendingTimers == 2 && s.retry.retries == 2
    ensures s.events == [EmitTryReconnect(5000), EmitTryReconnect(10000)]
  {
    s := new SocketIo(WrapSocket(0, Options(None, None, true, None, None)));
    s.OnError(None);
    s.OnError(None);
  }

  /** A close while a reconnect is pending adds no timer and no event. */
  method CloseWhileWaiting() returns (s: SocketIo)
    ensures s.Valid() && s.pendingTimers == 1 && s.retry.retries == 1
    ensures s.events == [EmitTryReconnect(5000), EmitClose(false, None)]
  {
    s := new SocketIo(WrapSocket(0, Options(None, None, true, None, None)));
    s.OnError(None);
    s.OnClose(false, None);
  }

  /** With `maxRetries` 2 and a server that never answers: one redial, then the
      "maximum retries" error; `waiting` stays set, so a later `reconnect()`
      does nothing. */
  method GiveUpAfterMaxRetries() returns (s: SocketIo)
    ensures s.Valid() && s.pendingTimers == 0 && s.retry.waiting && s.retry.retries == 2
    ensures s.events == [EmitTryReconnect(100), EmitTryReconnect(200), EmitError(MaxRetries(2))]
    ensures s.calls == [End(0), ForceClose(0), NewSocket(1), Dial(1, Some(80), DefaultHost)]
  {
    s := new SocketIo(WrapSocket(0, Options(Some(80), None, true, Some(2), Some(100))));
    s.OnError(None);
    s.FireTimer();
    s.OnError(None);
    s.FireTimer();
    s.Reconnect();
  }

  /** `destroy()` keeps the socket and its listeners: a later close still
      schedules a reconnect when auto-reconnect is on. */
  method CloseAfterDestroy() returns (s: SocketIo)
    ensures s.Valid() && s.pendingTimers == 1
    ensures s.events == [EmitDestroy, EmitClose(false, None), EmitTryReconnect(5000)]
  {
    s := new SocketIo(WrapSocket(0, Options(None, None, true, None, None)));
    s.Destroy();
    s.OnClose(false, None);
  }

  /** The arguments of the scenario below resolve one by one: the host first,
      then the callback, then the port, and none of them is rejected. */
  lemma HostCallbackPort(args: seq<Arg>)
    requires args == [Str("example.com"), Fn(7), Num(8080)]
    ensures LastPort(args) == Some(8080) && LastHost(args) == Some("example.com")
    ensures LastCallback(args) == Some(7) && BadCount(args) == 0
  {
    var one := [Str("example.com")];
    assert LastHost(one) == Some("example.com");
    ScanOneMore(one, Fn(7));
    assert one + [Fn(7)] == [Str("example.com"), Fn(7)];
    ScanOneMore(one + [Fn(7)], Num(8080));
    assert one + [Fn(7)] + [Num(8080)] == args;
  }

  /** A successful connection clears the counter through `finish` and calls the
      user callback given to `connect`. */
  method ConnectResetsCounter() returns (s: SocketIo)
    ensures s.Valid() && s.retry.retries == 0 && !s.retry.waiting
    ensures s.invocations == [Invoke(7, None)]
    ensures s.calls == [Dial(0, Some(8080), "example.com")]
  {
    s := new SocketIo(WrapSocket(0, Options(None, None, true, None, None)));
    s.OnError(None);
    var args := [Str("example.com"), Fn(7), Num(8080)];
    HostCallbackPort(args);
    s.Connect(args);
    var ls := [Listener(ConnectName, Finish(Some(7)))];
    assert s.onceHandlers == ls;
    assert Fired(ls, ConnectName) == ls && Remaining(ls, ConnectName) == [];
    assert UserCallbacks(ls) == [Invoke(7, None)];
    s.OnConnect();
  }

  /** `destroy()` cancels nothing: a reconnect timer scheduled before it still
      fires afterwards, tears down the destroyed socket a second time, builds a
      new socket and dials it. */
  method DestroyThenTimerRedials() returns (s: SocketIo)
    ensures s.Valid() && s.pendingTimers == 0 && s.socket == 1
    ensures s.events == [EmitTryReconnect(5000), EmitDestroy]
    ensures s.calls == [End(0), ForceClose(0), End(0), ForceClose(0), NewSocket(1), Dial(1, None, DefaultHost)]
  {
    s := new SocketIo(WrapSocket(0, Options(None, None, true, None, None)));
    s.OnError(None);
    s.Destroy();
    s.FireTimer();
  }

  /** A connection that succeeds while a reconnect timer is pending: `finish`
      clears the counter, and the timer stays pending. */
  method ConnectWhileTimerPending() returns (s: SocketIo)
    ensures fresh(s) && s.Valid() && s.pendingTimers == 1 && s.retry.retries == 0 && !s.retry.waiting
    ensures s.retry.max == DefaultMaxRetries && s.socket == 0 && s.nextHandle == 1
    ensures s.port == Some(80) && s.host == Some(DefaultHost)
    ensures s.calls == [Dial(0, Some(80), DefaultHost)]
  {
    s := new SocketIo(WrapSocket(0, Options(Some(80), None, true, None, None)));
    s.OnError(None);
    assert LastPort([]) == None && LastHost([]) == None;
    assert LastCallback([]) == None && BadCount([]) == 0;
    s.Connect([]);
    var ls := [Listener(ConnectName, Finish(None))];
    assert s.onceHandlers == ls;
    assert Fired(ls, ConnectName) == ls && Remaining(ls, ConnectName) == [];
    s.OnConnect();
  }

  /** `finish` resets the counter but cancels nothing: the pending timer still
      fires and replaces the socket that has just connected. */
  method TimerTearsDownConnection() returns (s: SocketIo)
    ensures s.Valid() && s.pendingTimers == 0 && s.socket == 1 && s.retry.retries == 0
    ensures s.calls == [Dial(0, Some(80), DefaultHost), End(0), ForceClose(0), NewSocket(1), Dial(1, Some(80), DefaultHost)]
  {
    s := ConnectWhileTimerPending();
    RedialKeepsEndpoint(s.port, s.host);
    s.FireTimer();
  }
}
