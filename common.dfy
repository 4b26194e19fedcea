/** Values shared by the retry bookkeeping, the argument resolution of `connect`
    and the socket wrapper: optional values, JavaScript truthiness for the two
    kinds of value the wrapper tests, and the errors it raises. */
module Common {

  datatype Option<+T> = None | Some(value: T)

  /** A user callback, identified by an opaque number; invoking it is a trace entry. */
  type CallbackId = nat

  type Bytes = seq<bv8>

  /** The errors the wrapper creates itself, plus whatever the transport reports. */
  datatype Error =
    | UnknownError                 // the error handler's default when the transport gives none
    | BadArgument                  // an argument to `connect` that is neither number, string nor function
    | MaxRetries(max: int)         // the reconnect timer found the retry budget spent
    | IllegalParameterType         // `send` was given something it does not write
    | TransportError(text: string) // an error object coming from the transport

  /** The message each error carries. */
  function Message(e: Error): string {
    match e
    case UnknownError => "Unknown error occurred in ISocket"
    case BadArgument => "Bad argument to connect"
    case MaxRetries(max) => "Did not reconnect after maximum retries: " + IntToString(max) + "."
    case IllegalParameterType => "illegal parameter type"
    case TransportError(text) => text
  }

  function DigitChar(d: nat): char
    requires d < 10
  {
    ('0' as int + d) as char
  }

  function NatToString(n: nat): (s: string)
    ensures |s| >= 1
    decreases n
  {
    if n < 10 then [DigitChar(n)] else NatToString(n / 10) + [DigitChar(n % 10)]
  }

  function IntToString(n: int): string {
    if n < 0 then "-" + NatToString(-n) else NatToString(n)
  }

  /** The give-up error reads "Did not reconnect after maximum retries: N." with
      the cap written in decimal; with the default cap of 10 that is the text below. */
  lemma MaxRetriesMessage(max: int)
    ensures |Message(MaxRetries(max))| > |"Did not reconnect after maximum retries: ."|
    ensures Message(MaxRetries(max))[..41] == "Did not reconnect after maximum retries: "
    ensures Message(MaxRetries(max))[|Message(MaxRetries(max))| - 1] == '.'
    ensures Message(MaxRetries(10)) == "Did not reconnect after maximum retries: 10."
  {
    assert NatToString(10) == NatToString(1) + [DigitChar(0)];
  }

  /** A number is truthy when it is present and not zero (NaN is not modelled). */
  predicate TruthyNum(o: Option<int>) {
    o.Some? && o.value != 0
  }

  /** A string is truthy when it is present and not empty. */
  predicate TruthyStr(o: Option<string>) {
    o.Some? && o.value != ""
  }
}
