/** The Android plugin (FlutterWalletCardPlugin.kt) as functions on its state.
    Every vendor call (Google Play Services, the file system, the activity
    manager) is an input carried by `Env`; what the plugin does with the
    outcome is modelled exactly. */
module AndroidModel {
  import opened Channel

  const SAVE_PASSES_REQUEST_CODE: int := 1001
  /** `Activity.RESULT_OK` of the Android framework. */
  const RESULT_OK: int := -1
  const SAVE_LINK_BASE: string := "https://pay.google.com/gp/v/save/"
  const SAVE_TO_WALLET_ACTION: string := "com.google.android.gms.wallet.SAVE_TO_WALLET"
  const INVALID_ARGUMENT: string := "INVALID_ARGUMENT"

  /** The intents the plugin builds. */
  datatype Intent =
    | SaveToWallet(extraKey: string, extraValue: string)  // action SAVE_TO_WALLET_ACTION, one string extra
    | ViewUri(uri: string)                                  // ACTION_VIEW on a URI

  /** An intent handed to the activity: `startActivityForResult` or `startActivity`. */
  datatype Launch = ForResult(intent: Intent, requestCode: int) | Started(intent: Intent)

  /** What `File(path).exists()` and `readText()` do. A file whose check or read
      throws is `Unreadable`, with the exception's message ("null" when it has none). */
  datatype FileState = Missing | Unreadable(message: string) | Readable(content: string)

  /** Whether the activity accepts an intent or throws (for instance
      ActivityNotFoundException), with the exception's message. */
  datatype LaunchOutcome = Launched | LaunchThrows(message: string)

  /** The Google Pay availability query: `getPaymentsClient` throws (no client
      is stored), or building or sending the `isReadyToPay` request throws after
      the client is stored, or the request completes with a possibly-null
      boolean, or its task fails with an ApiException. */
  datatype Readiness = ClientThrows | RequestThrows | ReadyToPay(isReady: Option<bool>) | ApiFailure

  /** The environment one call meets. */
  datatype Env = Env(file: FileState, launch: LaunchOutcome, readiness: Readiness, resolvable: bool)

  /** The plugin's fields: whether an activity is attached, whether a payments
      client was created, the pending result, and (for stating properties) every
      answer sent and every intent launched, in order. */
  datatype Plugin = Plugin(
    activity: bool,
    paymentsClient: bool,
    pending: Option<CallerId>,
    log: seq<Reply>,
    launched: seq<Launch>)

  /** The method names `onMethodCall` recognises. */
  const KNOWN_METHODS: set<string> := {
    "isGoogleWalletAvailable", "isGoogleWalletCardAdded", "addGoogleWalletCard",
    "viewGoogleWalletCard", "saveGoogleWalletPassWithJwt", "createGoogleWalletPassLink"}

  /** The string argument a method requires, if it requires one. */
  function RequiredKey(name: string): Option<string>
  {
    match name
    case "isGoogleWalletCardAdded" => Some("objectId")
    case "addGoogleWalletCard" => Some("path")
    case "viewGoogleWalletCard" => Some("objectId")
    case "saveGoogleWalletPassWithJwt" => Some("jwt")
    case _ => None
  }

  /** `call.argument<String>(key)` does not throw: the arguments are absent or a
      map, and the value under `key`, if any, is a string or null. */
  predicate ArgumentReadable(args: Args, key: string)
  {
    match args
    case NoArguments => true
    case ArgMap(entries) => key in entries ==> entries[key].StrArg? || entries[key].NullArg?
    case OtherArguments => false
  }

  /** `call.argument<String>(key)`: null when there are no arguments, the key is
      absent or maps to null. */
  function StringArgument(args: Args, key: string): Option<string>
    requires ArgumentReadable(args, key)
  {
    match args
    case ArgMap(entries) =>
      if key in entries && entries[key].StrArg? then Some(entries[key].s) else None
    case _ => None
  }

  /** The message of the INVALID_ARGUMENT error for a missing `key`. */
  function Required(key: string): string
  {
    key + " is required"
  }

  /** The calls `onMethodCall` can take without an exception escaping it. */
  predicate CallReadable(call: MethodCall)
  {
    RequiredKey(call.name).Some? ==> ArgumentReadable(call.arguments, RequiredKey(call.name).value)
  }

  /** The state after sending answer `a` to `caller`. */
  function Respond(s: Plugin, caller: CallerId, a: Answer): Plugin
  {
    s.(log := s.log + [Reply(caller, a)])
  }

  /** Every answer sent between `s` and `t` went to `caller`, and at most one was sent. */
  predicate AnswersOnly(s: Plugin, t: Plugin, caller: CallerId)
  {
    s.log <= t.log && |t.log| <= |s.log| + 1 &&
    forall i | |s.log| <= i < |t.log| :: t.log[i].to == caller
  }

  /** `checkGoogleWalletAvailability`. */
  function CheckGoogleWalletAvailability(s: Plugin, caller: CallerId, env: Env): (t: Plugin)
    ensures |t.log| == |s.log| + 1 && t.log[..|s.log|] == s.log
    ensures t.log[|s.log|].to == caller && t.log[|s.log|].answer.Success?
    ensures t.log[|s.log|].answer.value.Bool?
    ensures t.log[|s.log|].answer.value.b <==> s.activity && env.readiness == ReadyToPay(Some(true))
    ensures t.pending == s.pending && t.launched == s.launched && t.activity == s.activity
    ensures t.paymentsClient <==> s.paymentsClient || (s.activity && !env.readiness.ClientThrows?)
  {
    if !s.activity then
      // `activity!!` throws before the client is created; the catch answers false
      Respond(s, caller, Success(Bool(false)))
    else
      match env.readiness
      case ClientThrows => Respond(s, caller, Success(Bool(false)))
      case RequestThrows => Respond(s.(paymentsClient := true), caller, Success(Bool(false)))
      case ReadyToPay(isReady) =>
        var ready := match isReady case Some(b) => b case None => false;
        Respond(s.(paymentsClient := true), caller, Success(Bool(ready)))
      case ApiFailure => Respond(s.(paymentsClient := true), caller, Success(Bool(false)))
  }

  /** `checkCardAdded`: the Google Wallet API cannot tell, so the answer is always false. */
  function CheckCardAdded(s: Plugin, objectId: string, caller: CallerId): (t: Plugin)
    ensures t.log == s.log + [Reply(caller, Success(Bool(false)))]
    ensures t.pending == s.pending && t.launched == s.launched
    ensures t.activity == s.activity && t.paymentsClient == s.paymentsClient
  {
    Respond(s, caller, Success(Bool(false)))
  }

  /** `addCardToWallet`. */
  function AddCardToWallet(s: Plugin, filePath: string, caller: CallerId, env: Env): (t: Plugin)
    ensures AnswersOnly(s, t, caller) && t.activity == s.activity && t.paymentsClient == s.paymentsClient
    ensures env.file.Missing? ==>
      t == Respond(s, caller, Error("FILE_NOT_FOUND", "File does not exist: " + filePath))
    ensures env.file.Unreadable? ==>
      t == Respond(s, caller, Error("ADD_CARD_ERROR", "Failed to add card: " + env.file.message))
    // the caller is stored before the launch, and stays stored whatever the launch does
    ensures env.file.Readable? ==> t.pending == Some(caller)
    ensures env.file.Readable? && !s.activity ==> t.log == s.log && t.launched == s.launched
    ensures env.file.Readable? && s.activity && env.launch.Launched? ==>
      t.log == s.log &&
      t.launched == s.launched + [ForResult(SaveToWallet("json", env.file.content), SAVE_PASSES_REQUEST_CODE)]
    ensures env.file.Readable? && s.activity && env.launch.LaunchThrows? ==>
      t.launched == s.launched &&
      t.log == s.log + [Reply(caller, Error("ADD_CARD_ERROR", "Failed to add card: " + env.launch.message))]
  {
    match env.file
    case Missing => Respond(s, caller, Error("FILE_NOT_FOUND", "File does not exist: " + filePath))
    case Unreadable(message) => Respond(s, caller, Error("ADD_CARD_ERROR", "Failed to add card: " + message))
    case Readable(json) =>
      var s1 := s.(pending := Some(caller));
      if !s1.activity then s1  // `activity?.startActivityForResult` does nothing
      else
        match env.launch
        case Launched =>
          s1.(launched := s1.launched + [ForResult(SaveToWallet("json", json), SAVE_PASSES_REQUEST_CODE)])
        case LaunchThrows(message) => Respond(s1, caller, Error("ADD_CARD_ERROR", "Failed to add card: " + message))
  }

  /** The URI `viewCardInWallet` opens for `objectId`. */
  function ViewUriFor(objectId: string): string
  {
    "https://pay.google.com/gp/v/save/" + objectId
  }

  /** `viewCardInWallet`. */
  function ViewCardInWallet(s: Plugin, objectId: string, caller: CallerId, env: Env): (t: Plugin)
    ensures t.pending == s.pending && t.activity == s.activity && t.paymentsClient == s.paymentsClient
    ensures |t.log| == |s.log| + 1 && t.log[..|s.log|] == s.log && t.log[|s.log|].to == caller
    // true exactly when the view intent was started, and then it was started once
    ensures t.log[|s.log|].answer == Success(Bool(true)) <==> t.launched != s.launched
    ensures t.launched != s.launched ==> t.launched == s.launched + [Started(ViewUri(ViewUriFor(objectId)))]
    ensures !s.activity ==> t.log[|s.log|].answer == Error("VIEW_CARD_ERROR", "Failed to view card: null")
    ensures s.activity && !env.resolvable ==> t.log[|s.log|].answer == Success(Bool(false))
    ensures s.activity && env.resolvable && env.launch.Launched? ==>
      t.log[|s.log|].answer == Success(Bool(true))
    ensures s.activity && env.resolvable && env.launch.LaunchThrows? ==>
      t.launched == s.launched &&
      t.log[|s.log|].answer == Error("VIEW_CARD_ERROR", "Failed to view card: " + env.launch.message)
  {
    if !s.activity then
      // `activity!!` throws a NullPointerException whose message is null
      Respond(s, caller, Error("VIEW_CARD_ERROR", "Failed to view card: null"))
    else if env.resolvable then
      (match env.launch
       case Launched =>
         Respond(s.(launched := s.launched + [Started(ViewUri(ViewUriFor(objectId)))]), caller, Success(Bool(true)))
       case LaunchThrows(message) => Respond(s, caller, Error("VIEW_CARD_ERROR", "Failed to view card: " + message)))
    else
      Respond(s, caller, Success(Bool(false)))
  }

  /** `savePassWithJwt`. */
  function SavePassWithJwt(s: Plugin, jwt: string, caller: CallerId, env: Env): (t: Plugin)
    ensures AnswersOnly(s, t, caller) && t.activity == s.activity && t.paymentsClient == s.paymentsClient
    ensures t.pending == Some(caller)
    ensures !s.activity ==> t.log == s.log && t.launched == s.launched
    ensures s.activity && env.launch.Launched? ==>
      t.log == s.log &&
      t.launched == s.launched + [ForResult(SaveToWallet("jwt", jwt), SAVE_PASSES_REQUEST_CODE)]
    ensures s.activity && env.launch.LaunchThrows? ==>
      t.launched == s.launched &&
      t.log == s.log + [Reply(caller, Error("SAVE_JWT_ERROR", "Failed to save pass with JWT: " + env.launch.message))]
  {
    var s1 := s.(pending := Some(caller));
    if !s1.activity then s1
    else
      match env.launch
      case Launched =>
        s1.(launched := s1.launched + [ForResult(SaveToWallet("jwt", jwt), SAVE_PASSES_REQUEST_CODE)])
      case LaunchThrows(message) =>
        Respond(s1, caller, Error("SAVE_JWT_ERROR", "Failed to save pass with JWT: " + message))
  }

  /** The link `createPassLink` builds from the pass data: the save URL base
      followed by the `objectId` entry when it is a string, by "unknown" otherwise. */
  function PassLink(passData: map<string, Arg>): (link: string)
    ensures |SAVE_LINK_BASE| <= |link| && link[..|SAVE_LINK_BASE|] == SAVE_LINK_BASE
    ensures "objectId" in passData && passData["objectId"].StrArg? ==>
      link[|SAVE_LINK_BASE|..] == passData["objectId"].s
    ensures !("objectId" in passData && passData["objectId"].StrArg?) ==>
      link[|SAVE_LINK_BASE|..] == "unknown"
  {
    var objectId := if "objectId" in passData && passData["objectId"].StrArg? then passData["objectId"].s else "unknown";
    SAVE_LINK_BASE + objectId
  }

  /** The link `createPassLink` gives for a string `objectId` is the URI
      `viewCardInWallet` opens for the same id. */
  lemma PassLinkIsViewUri(passData: map<string, Arg>, objectId: string)
    requires "objectId" in passData && passData["objectId"] == StrArg(objectId)
    ensures PassLink(passData) == ViewUriFor(objectId)
  {
  }

  /** `createPassLink`. */
  function CreatePassLink(s: Plugin, passData: map<string, Arg>, caller: CallerId): (t: Plugin)
    ensures t.log == s.log + [Reply(caller, Success(Str(PassLink(passData))))]
    ensures t.pending == s.pending && t.launched == s.launched
    ensures t.activity == s.activity && t.paymentsClient == s.paymentsClient
  {
    Respond(s, caller, Success(Str(PassLink(passData))))
  }

  /** `onMethodCall`: validation and routing. */
  function OnMethodCall(s: Plugin, call: MethodCall, caller: CallerId, env: Env): (t: Plugin)
    requires CallReadable(call)
    ensures AnswersOnly(s, t, caller) && t.activity == s.activity
    ensures t.pending == s.pending || t.pending == Some(caller)
    ensures call.name !in KNOWN_METHODS ==> t == Respond(s, caller, NotImplemented)
    ensures RequiredKey(call.name).Some? && StringArgument(call.arguments, RequiredKey(call.name).value).None? ==>
      t == Respond(s, caller, Error(INVALID_ARGUMENT, Required(RequiredKey(call.name).value)))
    ensures call.name == "createGoogleWalletPassLink" && !call.arguments.ArgMap? ==>
      t == Respond(s, caller, Error(INVALID_ARGUMENT, "passData is required"))
    // a well-formed call reaches its handler
    ensures call.name == "isGoogleWalletAvailable" ==> t == CheckGoogleWalletAvailability(s, caller, env)
    ensures call.name == "isGoogleWalletCardAdded" && StringArgument(call.arguments, "objectId").Some? ==>
      t == CheckCardAdded(s, StringArgument(call.arguments, "objectId").value, caller)
    ensures call.name == "addGoogleWalletCard" && StringArgument(call.arguments, "path").Some? ==>
      t == AddCardToWallet(s, StringArgument(call.arguments, "path").value, caller, env)
    ensures call.name == "viewGoogleWalletCard" && StringArgument(call.arguments, "objectId").Some? ==>
      t == ViewCardInWallet(s, StringArgument(call.arguments, "objectId").value, caller, env)
    ensures call.name == "saveGoogleWalletPassWithJwt" && StringArgument(call.arguments, "jwt").Some? ==>
      t == SavePassWithJwt(s, StringArgument(call.arguments, "jwt").value, caller, env)
    ensures call.name == "createGoogleWalletPassLink" && call.arguments.ArgMap? ==>
      t == CreatePassLink(s, call.arguments.entries, caller)
    // only the two save handlers ever store a pending caller
    ensures t.pending != s.pending ==>
      call.name in {"addGoogleWalletCard", "saveGoogleWalletPassWithJwt"} &&
      StringArgument(call.arguments, RequiredKey(call.name).value).Some?
  {
    var args := call.arguments;
    match call.name
    case "isGoogleWalletAvailable" => CheckGoogleWalletAvailability(s, caller, env)
    case "isGoogleWalletCardAdded" =>
      (match StringArgument(args, "objectId")
       case Some(objectId) => CheckCardAdded(s, objectId, caller)
       case None => Respond(s, caller, Error(INVALID_ARGUMENT, Required("objectId"))))
    case "addGoogleWalletCard" =>
      (match StringArgument(args, "path")
       case Some(path) => AddCardToWallet(s, path, caller, env)
       case None => Respond(s, caller, Error(INVALID_ARGUMENT, Required("path"))))
    case "viewGoogleWalletCard" =>
      (match StringArgument(args, "objectId")
       case Some(objectId) => ViewCardInWallet(s, objectId, caller, env)
       case None => Respond(s, caller, Error(INVALID_ARGUMENT, Required("objectId"))))
    case "saveGoogleWalletPassWithJwt" =>
      (match StringArgument(args, "jwt")
       case Some(jwt) => SavePassWithJwt(s, jwt, caller, env)
       case None => Respond(s, caller, Error(INVALID_ARGUMENT, Required("jwt"))))
    case "createGoogleWalletPassLink" =>
      (match args
       case ArgMap(passData) => CreatePassLink(s, passData, caller)
       case _ => Respond(s, caller, Error(INVALID_ARGUMENT, "passData is required")))
    case _ => Respond(s, caller, NotImplemented)
  }

  /** `onActivityResult`: the new state and whether the request code was handled. */
  function OnActivityResult(s: Plugin, requestCode: int, resultCode: int): (r: (Plugin, bool))
    ensures r.1 <==> requestCode == SAVE_PASSES_REQUEST_CODE
    ensures !r.1 ==> r.0 == s
    ensures r.1 ==> r.0.pending == None && r.0.launched == s.launched && r.0.activity == s.activity
    ensures r.1 ==> r.0.paymentsClient == s.paymentsClient
    ensures r.1 && s.pending.None? ==> r.0.log == s.log
    ensures r.1 && s.pending.Some? ==>
      r.0.log == s.log + [Reply(s.pending.value, Success(Bool(resultCode == RESULT_OK)))]
  {
    if requestCode == SAVE_PASSES_REQUEST_CODE then
      var success := resultCode == RESULT_OK;
      var s1 := match s.pending
        case Some(c) => Respond(s, c, Success(Bool(success)))
        case None => s;
      (s1.(pending := None), true)
    else
      (s, false)
  }
}
