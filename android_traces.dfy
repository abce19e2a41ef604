/** Sequences of events applied to the Android plugin: incoming calls and
    activity results, one after the other. These state what the single
    `pendingResult` field means for callers over time. */
module AndroidTraces {
  import opened Channel
  import opened AndroidModel

  /** An incoming method call (with its own fresh result object) or an activity result. */
  datatype Event =
    | Call(call: MethodCall, caller: CallerId, env: Env)
    | ActivityResult(requestCode: int, resultCode: int)

  predicate Possible(e: Event)
  {
    e.Call? ==> CallReadable(e.call)
  }

  predicate AllPossible(es: seq<Event>)
  {
    forall i | 0 <= i < |es| :: Possible(es[i])
  }

  /** No event in `es` is a call made with result object `c`. */
  predicate NotFrom(es: seq<Event>, c: CallerId)
  {
    forall i | 0 <= i < |es| :: !(es[i].Call? && es[i].caller == c)
  }

  function Step(s: Plugin, e: Event): Plugin
    requires Possible(e)
  {
    match e
    case Call(call, caller, env) => OnMethodCall(s, call, caller, env)
    case ActivityResult(requestCode, resultCode) => OnActivityResult(s, requestCode, resultCode).0
  }

  function Run(s: Plugin, es: seq<Event>): Plugin
    requires AllPossible(es)
    decreases |es|
  {
    if es == [] then s else Run(Step(s, es[0]), es[1..])
  }

  /** A save call with a JWT argument. */
  function SaveJwtCall(jwt: string): MethodCall
  {
    MethodCall("saveGoogleWalletPassWithJwt", ArgMap(map["jwt" := StrArg(jwt)]))
  }

  lemma SaveJwtStep(s: Plugin, jwt: string, c: CallerId, env: Env)
    ensures Possible(Call(SaveJwtCall(jwt), c, env))
    ensures Step(s, Call(SaveJwtCall(jwt), c, env)) == SavePassWithJwt(s, jwt, c, env)
  {
    assert StringArgument(SaveJwtCall(jwt).arguments, "jwt") == Some(jwt);
  }

  lemma RepliesToOne(c: CallerId, a: Answer)
    ensures RepliesTo([Reply(c, a)], c) == [a]
  {
    assert [Reply(c, a)][..0] == [];
  }

  lemma RepliesToTwo(log: seq<Reply>, c: CallerId, a1: Answer, a2: Answer)
    requires RepliesTo(log, c) == []
    ensures RepliesTo(log + [Reply(c, a1)] + [Reply(c, a2)], c) == [a1, a2]
  {
    RepliesToOne(c, a1);
    RepliesToAppend(log, [Reply(c, a1)], c);
    RepliesToOne(c, a2);
    RepliesToAppend(log + [Reply(c, a1)], [Reply(c, a2)], c);
  }

  /** One event answers only its own caller or the pending one, and can make
      pending only its own caller (or nobody). */
  lemma StepLeavesOthersAlone(s: Plugin, e: Event, c: CallerId)
    requires Possible(e) && s.pending != Some(c) && !(e.Call? && e.caller == c)
    ensures RepliesTo(Step(s, e).log, c) == RepliesTo(s.log, c)
    ensures Step(s, e).pending != Some(c)
  {
    var t := Step(s, e);
    var extra := t.log[|s.log|..];
    assert t.log == s.log + extra;
    assert forall i | 0 <= i < |extra| :: extra[i].to != c;
    RepliesToAppend(s.log, extra, c);
    if extra != [] {
      assert extra[..|extra| - 1] == [];
    }
  }

  /** A caller that is not pending and makes no further call is never answered again. */
  lemma {:induction false} UnansweredCallerStaysUnanswered(s: Plugin, es: seq<Event>, c: CallerId)
    requires AllPossible(es) && s.pending != Some(c) && NotFrom(es, c)
    ensures RepliesTo(Run(s, es).log, c) == RepliesTo(s.log, c)
    ensures Run(s, es).pending != Some(c)
    decreases |es|
  {
    if es != [] {
      StepLeavesOthersAlone(s, es[0], c);
      assert NotFrom(es[1..], c) by {
        forall i | 0 <= i < |es[1..]| ensures !(es[1..][i].Call? && es[1..][i].caller == c) {
          assert es[1..][i] == es[i + 1];
        }
      }
      UnansweredCallerStaysUnanswered(Step(s, es[0]), es[1..], c);
    }
  }

  /** Two save calls in a row: the second overwrites `pendingResult`, and the
      first caller, accepted without an answer, is then never answered at all,
      whatever activity results follow. */
  lemma OverwrittenCallerIsNeverAnswered(
    s: Plugin, first: CallerId, second: CallerId, jwt1: string, jwt2: string,
    env1: Env, env2: Env, rest: seq<Event>)
    requires first != second && RepliesTo(s.log, first) == []
    requires !(s.activity && env1.launch.LaunchThrows?)
    requires AllPossible(rest) && NotFrom(rest, first)
    ensures Step(s, Call(SaveJwtCall(jwt1), first, env1)).pending == Some(first)
    ensures RepliesTo(Step(s, Call(SaveJwtCall(jwt1), first, env1)).log, first) == []
    ensures AllPossible([Call(SaveJwtCall(jwt1), first, env1), Call(SaveJwtCall(jwt2), second, env2)] + rest)
    ensures RepliesTo(Run(s, [Call(SaveJwtCall(jwt1), first, env1), Call(SaveJwtCall(jwt2), second, env2)] + rest).log, first) == []
  {
    var e1 := Call(SaveJwtCall(jwt1), first, env1);
    var e2 := Call(SaveJwtCall(jwt2), second, env2);
    var es := [e1, e2] + rest;
    assert StringArgument(SaveJwtCall(jwt1).arguments, "jwt") == Some(jwt1);
    assert StringArgument(SaveJwtCall(jwt2).arguments, "jwt") == Some(jwt2);
    assert AllPossible(es) by {
      forall i | 0 <= i < |es| ensures Possible(es[i]) {
        if i >= 2 { assert es[i] == rest[i - 2]; }
      }
    }
    var s1 := Step(s, e1);
    assert s1.log == s.log;
    var s2 := Step(s1, e2);
    assert s2.pending == Some(second);
    RepliesToAppend(s1.log, s2.log[|s1.log|..], first);
    assert s2.log == s1.log + s2.log[|s1.log|..];
    assert es[1..] == [e2] + rest;
    assert ([e2] + rest)[1..] == rest;
    assert Run(s, es) == Run(s2, rest);
    UnansweredCallerStaysUnanswered(s2, rest, first);
  }

  /** The pending caller is answered by the first activity result with request
      code 1001, and by nothing that follows. */
  lemma {:induction false} PendingAnsweredExactlyOnce(s: Plugin, c: CallerId, resultCode: int, rest: seq<Event>)
    requires s.pending == Some(c)
    requires AllPossible(rest) && NotFrom(rest, c)
    ensures AllPossible([ActivityResult(SAVE_PASSES_REQUEST_CODE, resultCode)] + rest)
    ensures RepliesTo(Run(s, [ActivityResult(SAVE_PASSES_REQUEST_CODE, resultCode)] + rest).log, c)
            == RepliesTo(s.log, c) + [Success(Bool(resultCode == RESULT_OK))]
  {
    var e := ActivityResult(SAVE_PASSES_REQUEST_CODE, resultCode);
    var es := [e] + rest;
    assert AllPossible(es) by {
      forall i | 0 <= i < |es| ensures Possible(es[i]) {
        if i >= 1 { assert es[i] == rest[i - 1]; }
      }
    }
    var s1 := Step(s, e);
    assert s1.log == s.log + [Reply(c, Success(Bool(resultCode == RESULT_OK)))];
    RepliesToAppend(s.log, [Reply(c, Success(Bool(resultCode == RESULT_OK)))], c);
    RepliesToOne(c, Success(Bool(resultCode == RESULT_OK)));
    assert es[1..] == rest;
    UnansweredCallerStaysUnanswered(s1, rest, c);
  }

  /** When launching the save intent throws, the caller is answered with an error
      but stays pending, so the next activity result with code 1001 answers it a
      second time. */
  lemma FailedLaunchIsAnsweredTwice(s: Plugin, c: CallerId, jwt: string, message: string, env: Env, resultCode: int)
    requires s.activity && env.launch == LaunchThrows(message) && RepliesTo(s.log, c) == []
    ensures AllPossible([Call(SaveJwtCall(jwt), c, env), ActivityResult(SAVE_PASSES_REQUEST_CODE, resultCode)])
    ensures RepliesTo(Run(s, [Call(SaveJwtCall(jwt), c, env), ActivityResult(SAVE_PASSES_REQUEST_CODE, resultCode)]).log, c)
            == [Error("SAVE_JWT_ERROR", "Failed to save pass with JWT: " + message), Success(Bool(resultCode == RESULT_OK))]
  {
    var e1 := Call(SaveJwtCall(jwt), c, env);
    var e2 := ActivityResult(SAVE_PASSES_REQUEST_CODE, resultCode);
    var a1 := Error("SAVE_JWT_ERROR", "Failed to save pass with JWT: " + message);
    var a2 := Success(Bool(resultCode == RESULT_OK));
    var s1 := SavePassWithJwt(s, jwt, c, env);
    SaveJwtStep(s, jwt, c, env);
    assert s1.log == s.log + [Reply(c, a1)] && s1.pending == Some(c);
    var s2 := OnActivityResult(s1, SAVE_PASSES_REQUEST_CODE, resultCode).0;
    assert s2.log == s.log + [Reply(c, a1)] + [Reply(c, a2)];
    assert Run(s, [e1, e2]) == s2 by {
      assert [e1, e2][1..] == [e2];
      assert Run(s, [e1, e2]) == Run(s1, [e2]);
      assert [e2][1..] == [];
      assert Step(s1, e2) == s2;
      assert Run(s1, [e2]) == Run(s2, []);
    }
    RepliesToTwo(s.log, c, a1, a2);
  }
}
