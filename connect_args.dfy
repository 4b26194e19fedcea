/** How `connect` reads its positional arguments: each argument is sorted by its
    runtime type, the last number is the port, the last string the host, the
    last function the completion callback, and every other value is a bad
    argument. The result is then merged with the stored endpoint. */
module ConnectArgs {
  import opened Common

  const DefaultHost := "127.0.0.1"

  /** An argument value, by the runtime type `connect` switches on. */
  datatype Arg = Num(n: int) | Str(s: string) | Fn(callback: CallbackId) | Other

  datatype Kind = NumKind | StrKind | FnKind | OtherKind

  function KindOf(a: Arg): Kind {
    match a
    case Num(_) => NumKind
    case Str(_) => StrKind
    case Fn(_) => FnKind
    case Other => OtherKind
  }

  /** The position of the last argument of kind `k`, if there is one. */
  function LastIndex(args: seq<Arg>, k: Kind): (r: Option<nat>)
    ensures r.Some? ==> r.value < |args| && KindOf(args[r.value]) == k
  {
    if |args| == 0 then None
    else if KindOf(args[|args| - 1]) == k then Some(|args| - 1)
    else LastIndex(args[..|args| - 1], k)
  }

  /** No argument after the one LastIndex finds has kind `k`, and it finds none
      exactly when no argument has kind `k`. */
  lemma {:induction false} LastIndexIsLast(args: seq<Arg>, k: Kind)
    ensures LastIndex(args, k).Some? ==>
      forall j :: LastIndex(args, k).value < j < |args| ==> KindOf(args[j]) != k
    ensures LastIndex(args, k).None? <==> forall j :: 0 <= j < |args| ==> KindOf(args[j]) != k
  {
    if |args| > 0 && KindOf(args[|args| - 1]) != k {
      var init := args[..|args| - 1];
      LastIndexIsLast(init, k);
      assert forall j :: 0 <= j < |init| ==> init[j] == args[j];
    }
  }

  function LastPort(args: seq<Arg>): Option<int> {
    match LastIndex(args, NumKind)
    case None => None
    case Some(i) => Some(args[i].n)
  }

  function LastHost(args: seq<Arg>): Option<string> {
    match LastIndex(args, StrKind)
    case None => None
    case Some(i) => Some(args[i].s)
  }

  function LastCallback(args: seq<Arg>): Option<CallbackId> {
    match LastIndex(args, FnKind)
    case None => None
    case Some(i) => Some(args[i].callback)
  }

  /** The number of arguments that draw a "Bad argument to connect" error. */
  function BadCount(args: seq<Arg>): (n: nat)
    ensures n <= |args|
  {
    if |args| == 0 then 0
    else BadCount(args[..|args| - 1]) + (if args[|args| - 1].Other? then 1 else 0)
  }

  /** No argument is rejected exactly when every argument is a number, a string
      or a function. */
  lemma {:induction false} BadCountZero(args: seq<Arg>)
    ensures BadCount(args) == 0 <==> forall j :: 0 <= j < |args| ==> KindOf(args[j]) != OtherKind
  {
    if |args| > 0 {
      var init := args[..|args| - 1];
      BadCountZero(init);
      assert forall j :: 0 <= j < |init| ==> init[j] == args[j];
    }
  }

  /** One more argument: it is the last of its own kind, and the other kinds keep
      their last position and their bad count. */
  lemma ScanOneMore(args: seq<Arg>, a: Arg)
    ensures LastPort(args + [a]) == if a.Num? then Some(a.n) else LastPort(args)
    ensures LastHost(args + [a]) == if a.Str? then Some(a.s) else LastHost(args)
    ensures LastCallback(args + [a]) == if a.Fn? then Some(a.callback) else LastCallback(args)
    ensures BadCount(args + [a]) == BadCount(args) + if a.Other? then 1 else 0
  {
    assert (args + [a])[..|args|] == args;
  }

  /** The `forEach` over the arguments: the locals are overwritten one argument at a time. */
  method ScanArgs(args: seq<Arg>) returns (port: Option<int>, host: Option<string>, callback: Option<CallbackId>, bad: nat)
    ensures port == LastPort(args) && host == LastHost(args) && callback == LastCallback(args)
    ensures bad == BadCount(args)
  {
    port, host, callback, bad := None, None, None, 0;
    var i := 0;
    while i < |args|
      invariant 0 <= i <= |args|
      invariant port == LastPort(args[..i]) && host == LastHost(args[..i])
      invariant callback == LastCallback(args[..i]) && bad == BadCount(args[..i])
    {
      assert args[..i + 1] == args[..i] + [args[i]];
      ScanOneMore(args[..i], args[i]);
      match args[i] {
        case Num(n) => port := Some(n);
        case Str(s) => host := Some(s);
        case Fn(c) => callback := Some(c);
        case Other => bad := bad + 1;
      }
      i := i + 1;
    }
    assert args[..i] == args;
  }

  /** The endpoint `connect` stores after the scan: the port and host it keeps. */
  datatype Endpoint = Endpoint(port: Option<int>, host: string)

  /** `this.port = port || this.port; this.host = host || this.host || '127.0.0.1'`. */
  function ResolveEndpoint(port: Option<int>, host: Option<string>,
                           storedPort: Option<int>, storedHost: Option<string>): (e: Endpoint)
    ensures e.host != ""
    ensures TruthyNum(port) ==> e.port == port
    ensures !TruthyNum(port) ==> e.port == storedPort
    ensures TruthyStr(host) ==> e.host == host.value
    ensures !TruthyStr(host) && TruthyStr(storedHost) ==> e.host == storedHost.value
    ensures !TruthyStr(host) && !TruthyStr(storedHost) ==> e.host == DefaultHost
    ensures (storedPort.Some? ==> storedPort.value != 0) ==> (e.port.Some? ==> e.port.value != 0)
  {
    var p := if TruthyNum(port) then port else storedPort;
    var h := if TruthyStr(host) then host.value
             else if TruthyStr(storedHost) then storedHost.value
             else DefaultHost;
    Endpoint(p, h)
  }

  /** The port, host and callback do not depend on the order in which they are passed. */
  lemma ConnectAnyOrder(args: seq<Arg>, p: int, h: string, c: CallbackId)
    requires multiset(args) == multiset{Num(p), Str(h), Fn(c)}
    ensures LastPort(args) == Some(p) && LastHost(args) == Some(h) && LastCallback(args) == Some(c)
    ensures BadCount(args) == 0
  {
    assert forall a :: a in args <==> a == Num(p) || a == Str(h) || a == Fn(c) by {
      forall a ensures a in args <==> a in multiset(args) {}
    }
    assert Num(p) in args && Str(h) in args && Fn(c) in args;
    LastIndexIsLast(args, NumKind);
    LastIndexIsLast(args, StrKind);
    LastIndexIsLast(args, FnKind);
    BadCountZero(args);
    var ip := LastIndex(args, NumKind);
    var ih := LastIndex(args, StrKind);
    var ic := LastIndex(args, FnKind);
    assert args[ip.value] in args && args[ih.value] in args && args[ic.value] in args;
  }

  /** `connect()` with no arguments, as `doReconnect` calls it, dials the stored
      endpoint again; with no stored host it falls back to the default. */
  lemma RedialKeepsEndpoint(storedPort: Option<int>, storedHost: Option<string>)
    ensures ResolveEndpoint(LastPort([]), LastHost([]), storedPort, storedHost)
      == Endpoint(storedPort, if TruthyStr(storedHost) then storedHost.value else DefaultHost)
  {
  }
}
