# flutter_wallet_card: the plugin decision logic in Dafny

flutter_wallet_card is a Flutter plugin. It lets a Flutter app offer passes to
the platform wallet: Google Wallet on Android, Apple Wallet (PassKit) on iOS.
Each platform has one class. The class receives named method-channel calls and
answers each caller through a result object. All real work happens inside vendor
SDKs. This project models only the plugin's own logic around those SDK calls:

- argument checks;
- routing by method name;
- the single `pendingResult` field that links an Android save flow to its caller;
- the iOS loop that parses several pass files.

Each SDK call is an input to the model: file existence and readability, whether
a pass parses, the wallet's pass list, whether an activity is attached, whether
an intent can be launched, and the activity's result code.

Every answer is recorded as `Success(value)`, `Error(code, message)` or
`NotImplemented`. Android keeps a log of `Reply(caller, answer)` values in send
order. This makes "answered once", "answered twice" and "never answered"
statable.

Files:

- `channel.dfy` (module `Channel`): call arguments, answers, the reply log, and
  `RepliesTo`, which gives what one caller received.
- `android_model.dfy` (module `AndroidModel`): each Kotlin handler as a function
  from the plugin's state (`Plugin`) to its next state.
- `android_traces.dfy` (module `AndroidTraces`): sequences of incoming calls and
  activity results, and what they mean for each caller over time.
- `android_plugin.dfy` (module `AndroidPlugin`): class `FlutterWalletCardPlugin`.
  Its fields are updated in place. Each method is proved to reach exactly the
  state the matching `AndroidModel` function gives.
- `ios_plugin.dfy` (module `IosPlugin`): `handle` and its cases. This includes
  the `addMultipleWalletCards` loop as a method with loop invariants.

Behaviour of the code that the model makes explicit:

- Neither platform checks whether a pass actually reached the wallet. Android
  answers a save with the activity's result code. iOS answers `true` as soon as
  the add screen is shown.
- A second Android save call does not wait and is not rejected. It overwrites
  `pendingResult`, and the first caller is never answered
  (`AndroidTraces.OverwrittenCallerIsNeverAnswered`).
- The iOS batch add never stops at a bad file. It answers `false` once per file
  that fails to parse and then `true` (`IosPlugin.AddMultipleWalletCards`).
- iOS has no file-not-found answer. An unreadable file is a forced-unwrap crash,
  which the model makes a precondition.
- On Android, `isGoogleWalletCardAdded` never consults the wallet. The answer is
  always `false`.

## Model

| member | source | states |
|---|---|---|
| `AndroidModel.OnMethodCall` | android/src/main/kotlin/com/flutter/wallet_card/FlutterWalletCardPlugin.kt:41-90 | An unknown method name gets exactly one `NotImplemented` answer and nothing else changes. For the four methods with a required string argument, a missing or null argument gets exactly one `INVALID_ARGUMENT` answer ("<key> is required") and nothing else changes. Non-map arguments to `createGoogleWalletPassLink` get "passData is required". At most one answer is sent, always to this caller. Only the two save handlers can change `pendingResult`, and then only to this caller. Each of the six names with well-formed arguments leads to exactly the state its own handler function gives, with the argument that handler reads. |
| `AndroidModel.CheckGoogleWalletAvailability` | android/src/main/kotlin/com/flutter/wallet_card/FlutterWalletCardPlugin.kt:92-114 | The caller always gets exactly one answer. It is never an error. It is a boolean that is true iff an activity is attached and `isReadyToPay` completes with true. A missing activity, a throwing client, a request that throws after the client exists, a null result and an ApiException all give false. The payments client is stored iff an activity exists and client creation does not throw. Nothing else changes. |
| `AndroidModel.CheckCardAdded` | android/src/main/kotlin/com/flutter/wallet_card/FlutterWalletCardPlugin.kt:116-120 | Answers `false` exactly once for any object id. The pending caller, the launched intents, the activity and the payments client are untouched. |
| `AndroidModel.AddCardToWallet` | android/src/main/kotlin/com/flutter/wallet_card/FlutterWalletCardPlugin.kt:122-144 | A missing file gets one `FILE_NOT_FOUND` error ("File does not exist: <path>") and leaves `pendingResult` unchanged. An unreadable file gets one `ADD_CARD_ERROR` and also leaves `pendingResult` unchanged. A readable file makes this caller pending before the launch. With no activity, nothing is launched and nothing is answered. A successful launch starts SAVE_TO_WALLET with the JSON for request 1001 and sends no answer. A throwing launch answers `ADD_CARD_ERROR` and the caller stays pending. |
| `AndroidModel.ViewCardInWallet` | android/src/main/kotlin/com/flutter/wallet_card/FlutterWalletCardPlugin.kt:146-162 | Exactly one answer, to this caller. It is `true` iff the view intent for the save URL plus the object id was started, and then that intent was started once. With no activity the answer is `VIEW_CARD_ERROR` with message "Failed to view card: null". If no app resolves the intent, the answer is `false`. A resolvable intent that starts answers `true`. If `startActivity` throws, nothing is launched and the answer is `VIEW_CARD_ERROR` with "Failed to view card: " plus the exception message. `pendingResult` is untouched. |
| `AndroidModel.SavePassWithJwt` | android/src/main/kotlin/com/flutter/wallet_card/FlutterWalletCardPlugin.kt:164-179 | This caller always becomes pending, even after a throwing launch. With no activity, nothing is launched or answered. A successful launch starts SAVE_TO_WALLET with the JWT for request 1001. A throwing launch answers `SAVE_JWT_ERROR`. |
| `AndroidModel.PassLink` | android/src/main/kotlin/com/flutter/wallet_card/FlutterWalletCardPlugin.kt:185-187 | The link is the save URL base followed by `objectId` when that entry is a string. Otherwise it is the base followed by "unknown". |
| `AndroidModel.PassLinkIsViewUri` | android/src/main/kotlin/com/flutter/wallet_card/FlutterWalletCardPlugin.kt:150-187 | For a string `objectId`, the link `createPassLink` sends equals the URI that `viewCardInWallet` opens. |
| `AndroidModel.CreatePassLink` | android/src/main/kotlin/com/flutter/wallet_card/FlutterWalletCardPlugin.kt:181-193 | Answers the pass link exactly once. The pending caller, the launched intents, the activity and the payments client are untouched. |
| `AndroidModel.OnActivityResult` | android/src/main/kotlin/com/flutter/wallet_card/FlutterWalletCardPlugin.kt:209-219 | Returns true iff the request code is 1001. Any other code leaves the whole state untouched. Code 1001 answers the pending caller, if there is one, with `resultCode == RESULT_OK` (RESULT_OK is -1). With no pending caller it answers nothing. In both cases it clears `pendingResult` and changes nothing else. |
| `AndroidTraces.StepLeavesOthersAlone` | android/src/main/kotlin/com/flutter/wallet_card/FlutterWalletCardPlugin.kt:209-216 | One incoming call or activity result never answers a caller that is neither its own caller nor the pending one. It never makes such a caller pending. |
| `AndroidTraces.UnansweredCallerStaysUnanswered` | android/src/main/kotlin/com/flutter/wallet_card/FlutterWalletCardPlugin.kt:209-216 | Take a caller that is not pending and makes no further call. Over any sequence of events, it receives no further answer. |
| `AndroidTraces.OverwrittenCallerIsNeverAnswered` | android/src/main/kotlin/com/flutter/wallet_card/FlutterWalletCardPlugin.kt:164-174 | Make two save calls in a row. The first caller is accepted (pending, no answer). After the second call it receives no answer at all, whatever events follow. |
| `AndroidTraces.PendingAnsweredExactlyOnce` | android/src/main/kotlin/com/flutter/wallet_card/FlutterWalletCardPlugin.kt:209-216 | The pending caller receives exactly one answer, `resultCode == RESULT_OK`, from the next activity result with code 1001. Nothing that follows answers it again. |
| `AndroidTraces.FailedLaunchIsAnsweredTwice` | android/src/main/kotlin/com/flutter/wallet_card/FlutterWalletCardPlugin.kt:164-179 | If the JWT save launch throws, the caller gets `SAVE_JWT_ERROR` but stays pending. The next activity result with code 1001 answers it a second time. |
| `AndroidPlugin.FlutterWalletCardPlugin.OnMethodCall` | android/src/main/kotlin/com/flutter/wallet_card/FlutterWalletCardPlugin.kt:41-90 | Updates the fields in place to exactly the state `AndroidModel.OnMethodCall` gives. |
| `AndroidPlugin.FlutterWalletCardPlugin.CheckGoogleWalletAvailability` | android/src/main/kotlin/com/flutter/wallet_card/FlutterWalletCardPlugin.kt:92-114 | Updates the fields in place to exactly the state `AndroidModel.CheckGoogleWalletAvailability` gives. |
| `AndroidPlugin.FlutterWalletCardPlugin.CheckCardAdded` | android/src/main/kotlin/com/flutter/wallet_card/FlutterWalletCardPlugin.kt:116-120 | Updates the fields in place to exactly the state `AndroidModel.CheckCardAdded` gives. |
| `AndroidPlugin.FlutterWalletCardPlugin.AddCardToWallet` | android/src/main/kotlin/com/flutter/wallet_card/FlutterWalletCardPlugin.kt:122-144 | Updates `pendingResult`, the answers and the launches in place to exactly the state `AndroidModel.AddCardToWallet` gives. |
| `AndroidPlugin.FlutterWalletCardPlugin.ViewCardInWallet` | android/src/main/kotlin/com/flutter/wallet_card/FlutterWalletCardPlugin.kt:146-162 | Updates the fields in place to exactly the state `AndroidModel.ViewCardInWallet` gives. |
| `AndroidPlugin.FlutterWalletCardPlugin.SavePassWithJwt` | android/src/main/kotlin/com/flutter/wallet_card/FlutterWalletCardPlugin.kt:164-179 | Updates the fields in place to exactly the state `AndroidModel.SavePassWithJwt` gives. |
| `AndroidPlugin.FlutterWalletCardPlugin.CreatePassLink` | android/src/main/kotlin/com/flutter/wallet_card/FlutterWalletCardPlugin.kt:181-193 | Updates the fields in place to exactly the state `AndroidModel.CreatePassLink` gives. |
| `AndroidPlugin.FlutterWalletCardPlugin.OnActivityResult` | android/src/main/kotlin/com/flutter/wallet_card/FlutterWalletCardPlugin.kt:209-219 | Updates the fields and returns exactly the state and flag `AndroidModel.OnActivityResult` gives. |
| `IosPlugin.Handle` | ios/Classes/SwiftFlutterWalletCardPlugin.swift:20-82 | `getPlatformVersion` answers "iOS " plus the system version. `isWalletAvailable` answers exactly `canAddPasses()`. An unknown name answers `NotImplemented`. If the arguments are not a string-keyed map, `addWalletCard`, `addMultipleWalletCards` and `didAddedToTheWallet` answer nothing at all. With a map, `addWalletCard` answers whether the file parses and presents exactly that one pass or nothing. `addMultipleWalletCards` presents exactly the parsed passes once and answers `false` once per failure, then a final `true`. `didAddedToTheWallet` answers whether some library pass has the serial number. |
| `IosPlugin.AddWalletCard` | ios/Classes/SwiftFlutterWalletCardPlugin.swift:26-41 | One answer. It is `true` iff the pass parses, and then that pass alone is presented; the answer does not depend on what the user then does. A parse failure answers `false` and presents nothing. |
| `IosPlugin.AddMultipleWalletCards` | ios/Classes/SwiftFlutterWalletCardPlugin.swift:43-61 | The loop never stops early. It answers `false` once per file that fails to parse and then `true`: 1 + (number of failures) answers. It presents once, with exactly the parsed passes. |
| `IosPlugin.ParsedPlusFailures` | ios/Classes/SwiftFlutterWalletCardPlugin.swift:47-56 | Every path either adds one pass to the array or adds one failure answer, never both. |
| `IosPlugin.ParsedPassesAppend` | ios/Classes/SwiftFlutterWalletCardPlugin.swift:46-52 | The passes array keeps input order. The passes of `a + b` are the passes of `a` followed by the passes of `b`. |
| `IosPlugin.ParsedPassesMembers` | ios/Classes/SwiftFlutterWalletCardPlugin.swift:47-57 | A pass is presented iff some input path's file parses to it. |
| `IosPlugin.FirstWithSerial` | ios/Classes/SwiftFlutterWalletCardPlugin.swift:71 | The search finds a pass with the requested serial number from the library, or finds nothing iff no pass has that serial number. |
| `IosPlugin.DidAddedToTheWallet` | ios/Classes/SwiftFlutterWalletCardPlugin.swift:66-77 | Answers true iff some pass in the library has a serial number equal to the argument. An empty library gives false. |

## Left out

- IosPlugin.DidAddedToTheWallet: serial numbers are compared as sequences of code points. Swift's `String ==` compares canonically equivalent strings as equal, for example a precomposed "é" and "e" followed by a combining accent. The two differ only for non-ASCII serials that are written in different normal forms. Pass serial numbers are in practice ASCII identifiers.
- IosPlugin.FirstWithSerial: the same code-point comparison as `IosPlugin.DidAddedToTheWallet`, for the same reason.
- Vendor SDK behaviour: `PaymentsClient.isReadyToPay`, `PKPass` parsing, `PKPassLibrary`, `PKAddPassesViewController`, `startActivityForResult`, `startActivity` and `resolveActivity`. Each is an input value (`Env` on Android, `Device` on iOS).
- File I/O: `File.exists`, `File.readText` and `NSData(contentsOfFile:)` are modelled only as whether the file is missing, unreadable or readable, and as what parsing gives.
- Asynchrony: the `isReadyToPay` completion listener is applied at once, in the same step as the call. Activity results are separate, sequential events.
- AndroidModel.CheckGoogleWalletAvailability: does not model a task that fails with an exception other than ApiException. There `getResult` throws inside the listener, outside any catch, and no answer is sent.
- Android argument type errors: `call.argument<String>` throws ClassCastException when the arguments are not a map or the value is not a string. This exception escapes `onMethodCall`, so it is a precondition (`CallReadable`), not modelled behaviour.
- iOS crashes: forced casts (`as! String`, `as! [String]`) and forced unwraps (`NSData(...)!`) are preconditions (`HandleDefined`).
- `PKAddPassesViewController` may return nil, for example for an empty pass list, and `unsafelyUnwrapped` would then crash. The model assumes the controller is always created.
- The contents of a presented pass list beyond its serial numbers, and PassKit pass metadata, are not modelled.
- Plugin registration and lifecycle are not modelled: channel setup, engine attach/detach, activity attach/detach and re-attach (Kotlin lines 35-39 and 221-241, Swift lines 8-18). Whether an activity is attached is a field set when the plugin is created.
- What the Flutter engine does with a second answer to the same result object is not modelled. The log records every call the plugin makes on a result object, so `FailedLaunchIsAnsweredTwice` and the repeated `false` answers of `addMultipleWalletCards` are visible as such.
- The `details` argument of `result.error` is always null and is not modelled. Exception messages are inputs, with "null" when the exception has none.
- `createPassLink` catches exceptions and answers `CREATE_LINK_ERROR`. Building the link cannot throw in the model, so that branch is not modelled.
