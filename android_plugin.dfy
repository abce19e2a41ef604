/** FlutterWalletCardPlugin as an object: the fields the Kotlin class updates in
    place and one method per handler. Each method leaves the object in exactly
    the state the corresponding function of AndroidModel gives. */
module AndroidPlugin {
  import opened Channel
  import AndroidModel

  class FlutterWalletCardPlugin {
    var activity: bool
    var paymentsClient: bool
    var pendingResult: Option<CallerId>
    /** Every answer sent so far, in order. */
    var replies: seq<Reply>
    /** Every intent handed to the activity so far, in order. */
    var launched: seq<AndroidModel.Launch>

    function State(): AndroidModel.Plugin
      reads this
    {
      AndroidModel.Plugin(activity, paymentsClient, pendingResult, replies, launched)
    }

    /** A plugin attached to the engine, with or without an activity. */
    constructor (hasActivity: bool)
      ensures State() == AndroidModel.Plugin(hasActivity, false, None, [], [])
    {
      activity := hasActivity;
      paymentsClient := false;
      pendingResult := None;
      replies := [];
      launched := [];
    }

    method Answer(caller: CallerId, a: Channel.Answer)
      modifies this
      ensures State() == AndroidModel.Respond(old(State()), caller, a)
    {
      replies := replies + [Reply(caller, a)];
    }

    method OnMethodCall(call: MethodCall, caller: CallerId, env: AndroidModel.Env)
      requires AndroidModel.CallReadable(call)
      modifies this
      ensures State() == AndroidModel.OnMethodCall(old(State()), call, caller, env)
    {
      var args := call.arguments;
      match call.name {
        case "isGoogleWalletAvailable" =>
          CheckGoogleWalletAvailability(caller, env);
        case "isGoogleWalletCardAdded" =>
          var objectId := AndroidModel.StringArgument(args, "objectId");
          if objectId.Some? {
            CheckCardAdded(objectId.value, caller);
          } else {
            Answer(caller, Error(AndroidModel.INVALID_ARGUMENT, AndroidModel.Required("objectId")));
          }
        case "addGoogleWalletCard" =>
          var path := AndroidModel.StringArgument(args, "path");
          if path.Some? {
            AddCardToWallet(path.value, caller, env);
          } else {
            Answer(caller, Error(AndroidModel.INVALID_ARGUMENT, AndroidModel.Required("path")));
          }
        case "viewGoogleWalletCard" =>
          var objectId := AndroidModel.StringArgument(args, "objectId");
          if objectId.Some? {
            ViewCardInWallet(objectId.value, caller, env);
          } else {
            Answer(caller, Error(AndroidModel.INVALID_ARGUMENT, AndroidModel.Required("objectId")));
          }
        case "saveGoogleWalletPassWithJwt" =>
          var jwt := AndroidModel.StringArgument(args, "jwt");
          if jwt.Some? {
            SavePassWithJwt(jwt.value, caller, env);
          } else {
            Answer(caller, Error(AndroidModel.INVALID_ARGUMENT, AndroidModel.Required("jwt")));
          }
        case "createGoogleWalletPassLink" =>
          if args.ArgMap? {
            CreatePassLink(args.entries, caller);
          } else {
            Answer(caller, Error(AndroidModel.INVALID_ARGUMENT, "passData is required"));
          }
        case _ =>
          Answer(caller, NotImplemented);
      }
    }

    method CheckGoogleWalletAvailability(caller: CallerId, env: AndroidModel.Env)
      modifies this
      ensures State() == AndroidModel.CheckGoogleWalletAvailability(old(State()), caller, env)
    {
      if !activity {
        // `activity!!` throws; the catch answers false
        Answer(caller, Success(Bool(false)));
        return;
      }
      match env.readiness {
        case ClientThrows =>
          Answer(caller, Success(Bool(false)));
        case RequestThrows =>
          paymentsClient := true;
          Answer(caller, Success(Bool(false)));
        case ReadyToPay(isReady) =>
          paymentsClient := true;
          var ready := if isReady.Some? then isReady.value else false;
          Answer(caller, Success(Bool(ready)));
        case ApiFailure =>
          paymentsClient := true;
          Answer(caller, Success(Bool(false)));
      }
    }

    method CheckCardAdded(objectId: string, caller: CallerId)
      modifies this
      ensures State() == AndroidModel.CheckCardAdded(old(State()), objectId, caller)
    {
      Answer(caller, Success(Bool(false)));
    }

    method AddCardToWallet(filePath: string, caller: CallerId, env: AndroidModel.Env)
      modifies this
      ensures State() == AndroidModel.AddCardToWallet(old(State()), filePath, caller, env)
    {
      match env.file {
        case Missing =>
          Answer(caller, Error("FILE_NOT_FOUND", "File does not exist: " + filePath));
        case Unreadable(message) =>
          Answer(caller, Error("ADD_CARD_ERROR", "Failed to add card: " + message));
        case Readable(json) =>
          pendingResult := Some(caller);
          if activity {
            match env.launch {
              case Launched =>
                launched := launched + [AndroidModel.ForResult(AndroidModel.SaveToWallet("json", json),
                                                               AndroidModel.SAVE_PASSES_REQUEST_CODE)];
              case LaunchThrows(message) =>
                Answer(caller, Error("ADD_CARD_ERROR", "Failed to add card: " + message));
            }
          }
      }
    }

    method ViewCardInWallet(objectId: string, caller: CallerId, env: AndroidModel.Env)
      modifies this
      ensures State() == AndroidModel.ViewCardInWallet(old(State()), objectId, caller, env)
    {
      if !activity {
        // `activity!!` throws a NullPointerException whose message is null
        Answer(caller, Error("VIEW_CARD_ERROR", "Failed to view card: null"));
      } else if env.resolvable {
        match env.launch {
          case Launched =>
            launched := launched + [AndroidModel.Started(AndroidModel.ViewUri(AndroidModel.ViewUriFor(objectId)))];
            Answer(caller, Success(Bool(true)));
          case LaunchThrows(message) =>
            Answer(caller, Error("VIEW_CARD_ERROR", "Failed to view card: " + message));
        }
      } else {
        Answer(caller, Success(Bool(false)));
      }
    }

    method SavePassWithJwt(jwt: string, caller: CallerId, env: AndroidModel.Env)
      modifies this
      ensures State() == AndroidModel.SavePassWithJwt(old(State()), jwt, caller, env)
    {
      pendingResult := Some(caller);
      if activity {
        match env.launch {
          case Launched =>
            launched := launched + [AndroidModel.ForResult(AndroidModel.SaveToWallet("jwt", jwt),
                                                           AndroidModel.SAVE_PASSES_REQUEST_CODE)];
          case LaunchThrows(message) =>
            Answer(caller, Error("SAVE_JWT_ERROR", "Failed to save pass with JWT: " + message));
        }
      }
    }

    method CreatePassLink(passData: map<string, Arg>, caller: CallerId)
      modifies this
      ensures State() == AndroidModel.CreatePassLink(old(State()), passData, caller)
    {
      Answer(caller, Success(Str(AndroidModel.PassLink(passData))));
    }

    method OnActivityResult(requestCode: int, resultCode: int) returns (handled: bool)
      modifies this
      ensures (State(), handled) == AndroidModel.OnActivityResult(old(State()), requestCode, resultCode)
    {
      if requestCode == AndroidModel.SAVE_PASSES_REQUEST_CODE {
        var success := resultCode == AndroidModel.RESULT_OK;
        if pendingResult.Some? {
          Answer(pendingResult.value, Success(Bool(success)));
        }
        pendingResult := None;
        return true;
      }
      return false;
    }
  }
}
