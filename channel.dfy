/** The Flutter method-channel protocol as both plugins see it: the arguments a
    call carries and the answers a caller receives through its result object. */
module Channel {

  datatype Option<T> = None | Some(value: T)

  /** Identifies the result object of one incoming call; every call has its own. */
  type CallerId = nat

  /** The values the plugins send back on success. */
  datatype Value = Bool(b: bool) | Str(s: string)

  /** `result.success(v)`, `result.error(code, message, null)` and
      `result.notImplemented()` (FlutterMethodNotImplemented on iOS). */
  datatype Answer =
    | Success(value: Value)
    | Error(code: string, message: string)
    | NotImplemented

  /** One answer delivered to one caller. A log of these, in the order they were
      sent, lets "answered once", "answered twice" and "never answered" be stated. */
  datatype Reply = Reply(to: CallerId, answer: Answer)

  /** One argument value as the standard codec decodes it. */
  datatype Arg =
    | StrArg(s: string)
    | StrListArg(items: seq<string>)
    | NullArg
    | OtherArg

  /** `call.arguments`: absent, a string-keyed map, or some other value. */
  datatype Args =
    | NoArguments
    | ArgMap(entries: map<string, Arg>)
    | OtherArguments

  datatype MethodCall = MethodCall(name: string, arguments: Args)

  /** The answers caller `c` received, in order. */
  function RepliesTo(log: seq<Reply>, c: CallerId): (answers: seq<Answer>)
    ensures |answers| <= |log|
    ensures forall r | r in log && r.to == c :: r.answer in answers
    ensures forall a | a in answers :: Reply(c, a) in log
  {
    if log == [] then []
    else
      var last := log[|log| - 1];
      RepliesTo(log[..|log| - 1], c) + (if last.to == c then [last.answer] else [])
  }

  /** What two stretches of the log deliver to `c` is the sum of the two. */
  lemma {:induction false} RepliesToAppend(a: seq<Reply>, b: seq<Reply>, c: CallerId)
    ensures RepliesTo(a + b, c) == RepliesTo(a, c) + RepliesTo(b, c)
    decreases |b|
  {
    if b == [] {
      assert a + b == a;
    } else {
      var b' := b[..|b| - 1];
      assert (a + b)[..|a + b| - 1] == a + b';
      assert (a + b)[|a + b| - 1] == b[|b| - 1];
      RepliesToAppend(a, b', c);
    }
  }
}
