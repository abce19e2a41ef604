/** The iOS plugin (SwiftFlutterWalletCardPlugin.swift). It keeps no state of
    its own: each call reads the device (PassKit's answers, the readable pass
    files) and produces the answers it sends and the pass lists it presents in
    a PKAddPassesViewController. */
module IosPlugin {
  import opened Channel

  /** A parsed PassKit pass; only its serial number matters here. */
  datatype Pass = Pass(serialNumber: string)

  /** What `PKPass(data:)` does with a file's bytes. */
  datatype ParseOutcome = Parsed(pass: Pass) | ParseThrows

  /** The device one call meets: the OS version, `canAddPasses()`, the passes in
      the wallet library in the order `passes()` lists them, and, for each
      readable file path, what parsing its contents gives. */
  datatype Device = Device(
    systemVersion: string,
    canAddPasses: bool,
    library: seq<Pass>,
    passFiles: map<string, ParseOutcome>)

  const IOS_METHODS: set<string> := {
    "getPlatformVersion", "addWalletCard", "addMultipleWalletCards", "isWalletAvailable", "didAddedToTheWallet"}

  /** The calls `handle` takes without a forced unwrap or forced cast failing:
      when the arguments are a map, the required entry is there with the right
      type, and every file it names can be read. */
  predicate HandleDefined(call: MethodCall, device: Device)
  {
    match call.arguments
    case ArgMap(entries) =>
      (call.name == "addWalletCard" ==>
        "path" in entries && entries["path"].StrArg? && entries["path"].s in device.passFiles) &&
      (call.name == "addMultipleWalletCards" ==>
        "paths" in entries && entries["paths"].StrListArg? &&
        forall p | p in entries["paths"].items :: p in device.passFiles) &&
      (call.name == "didAddedToTheWallet" ==>
        "serialNumber" in entries && entries["serialNumber"].StrArg?)
    case _ => true
  }

  /** The passes that parse, in the order of their paths. */
  function ParsedPasses(paths: seq<string>, files: map<string, ParseOutcome>): seq<Pass>
    requires forall p | p in paths :: p in files
    decreases |paths|
  {
    if paths == [] then []
    else
      var init := paths[..|paths| - 1];
      assert forall p | p in init :: p in paths;
      ParsedPasses(init, files) + (match files[paths[|paths| - 1]] case Parsed(pass) => [pass] case ParseThrows => [])
  }

  /** How many of the paths fail to parse. */
  function FailureCount(paths: seq<string>, files: map<string, ParseOutcome>): nat
    requires forall p | p in paths :: p in files
    decreases |paths|
  {
    if paths == [] then 0
    else
      var init := paths[..|paths| - 1];
      assert forall p | p in init :: p in paths;
      FailureCount(init, files) + (if files[paths[|paths| - 1]].ParseThrows? then 1 else 0)
  }

  /** Every path either contributes a pass or counts as one failure. */
  lemma {:induction false} ParsedPlusFailures(paths: seq<string>, files: map<string, ParseOutcome>)
    requires forall p | p in paths :: p in files
    ensures |ParsedPasses(paths, files)| + FailureCount(paths, files) == |paths|
    decreases |paths|
  {
    if paths != [] {
      var init := paths[..|paths| - 1];
      assert forall p | p in init :: p in paths;
      ParsedPlusFailures(init, files);
    }
  }

  /** Parsing keeps input order: the passes of two lists of paths, one after the other. */
  lemma {:induction false} ParsedPassesAppend(a: seq<string>, b: seq<string>, files: map<string, ParseOutcome>)
    requires forall p | p in a + b :: p in files
    ensures forall p | p in a :: p in files
    ensures forall p | p in b :: p in files
    ensures ParsedPasses(a + b, files) == ParsedPasses(a, files) + ParsedPasses(b, files)
    decreases |b|
  {
    assert forall p | p in a :: p in a + b;
    assert forall p | p in b :: p in a + b;
    if b == [] {
      assert a + b == a;
    } else {
      var b' := b[..|b| - 1];
      assert (a + b)[..|a + b| - 1] == a + b';
      assert (a + b)[|a + b| - 1] == b[|b| - 1];
      assert forall p | p in a + b' :: p in a + b;
      ParsedPassesAppend(a, b', files);
    }
  }

  /** A pass is presented exactly when some path's file parses to it. */
  lemma {:induction false} ParsedPassesMembers(paths: seq<string>, files: map<string, ParseOutcome>, pass: Pass)
    requires forall p | p in paths :: p in files
    ensures pass in ParsedPasses(paths, files) <==> exists i | 0 <= i < |paths| :: files[paths[i]] == Parsed(pass)
    decreases |paths|
  {
    if paths != [] {
      var init := paths[..|paths| - 1];
      var last := paths[|paths| - 1];
      assert forall p | p in init :: p in paths;
      ParsedPassesMembers(init, files, pass);
      if exists i | 0 <= i < |paths| :: files[paths[i]] == Parsed(pass) {
        var i :| 0 <= i < |paths| && files[paths[i]] == Parsed(pass);
        if i < |paths| - 1 {
          assert init[i] == paths[i];
        }
      }
      if exists i | 0 <= i < |init| :: files[init[i]] == Parsed(pass) {
        var i :| 0 <= i < |init| && files[init[i]] == Parsed(pass);
        assert paths[i] == init[i];
      }
    }
  }

  /** `first(where:)` over the library: the first pass with the given serial number. */
  function FirstWithSerial(passes: seq<Pass>, serialNumber: string): (r: Option<Pass>)
    ensures r.Some? ==> r.value.serialNumber == serialNumber && r.value in passes
    ensures r.None? <==> forall i | 0 <= i < |passes| :: passes[i].serialNumber != serialNumber
    decreases |passes|
  {
    if passes == [] then None
    else if passes[0].serialNumber == serialNumber then Some(passes[0])
    else
      var r := FirstWithSerial(passes[1..], serialNumber);
      assert forall i | 1 <= i < |passes| :: passes[i] == passes[1..][i - 1];
      r
  }

  /** The `didAddedToTheWallet` answer: the serial number of the first match,
      compared with the one asked for (no match compares unequal). */
  function DidAddedToTheWallet(library: seq<Pass>, serialNumber: string): (added: bool)
    ensures added <==> exists i | 0 <= i < |library| :: library[i].serialNumber == serialNumber
    ensures library == [] ==> !added
  {
    var found := FirstWithSerial(library, serialNumber);
    found.Some? && found.value.serialNumber == serialNumber
  }

  /** The `addWalletCard` case once the arguments are a map. */
  method AddWalletCard(filePath: string, device: Device) returns (answers: seq<Answer>, presented: seq<seq<Pass>>)
    requires filePath in device.passFiles
    // true as soon as the add screen is shown, whatever the user then does
    ensures answers == [Success(Bool(device.passFiles[filePath].Parsed?))]
    ensures device.passFiles[filePath].Parsed? ==> presented == [[device.passFiles[filePath].pass]]
    ensures device.passFiles[filePath].ParseThrows? ==> presented == []
  {
    match device.passFiles[filePath] {
      case Parsed(pass) =>
        presented := [[pass]];
        answers := [Success(Bool(true))];
      case ParseThrows =>
        presented := [];
        answers := [Success(Bool(false))];
    }
  }

  /** The `addMultipleWalletCards` case once the arguments are a map: one false
      per file that fails to parse, in order, then the add screen for the passes
      that did parse, then true. */
  method AddMultipleWalletCards(filePaths: seq<string>, device: Device) returns (answers: seq<Answer>, presented: seq<seq<Pass>>)
    requires forall p | p in filePaths :: p in device.passFiles
    ensures presented == [ParsedPasses(filePaths, device.passFiles)]
    ensures |answers| == FailureCount(filePaths, device.passFiles) + 1
    ensures forall k | 0 <= k < |answers| - 1 :: answers[k] == Success(Bool(false))
    ensures answers[|answers| - 1] == Success(Bool(true))
  {
    var passes: seq<Pass> := [];
    answers := [];
    for i := 0 to |filePaths|
      invariant forall p | p in filePaths[..i] :: p in device.passFiles
      invariant passes == ParsedPasses(filePaths[..i], device.passFiles)
      invariant |answers| == FailureCount(filePaths[..i], device.passFiles)
      invariant forall k | 0 <= k < |answers| :: answers[k] == Success(Bool(false))
    {
      assert filePaths[..i + 1][..i] == filePaths[..i];
      assert forall p | p in filePaths[..i + 1] :: p in filePaths;
      match device.passFiles[filePaths[i]] {
        case Parsed(pass) =>
          passes := passes + [pass];
        case ParseThrows =>
          answers := answers + [Success(Bool(false))];
      }
    }
    assert filePaths[..|filePaths|] == filePaths;
    presented := [passes];
    answers := answers + [Success(Bool(true))];
  }

  /** `handle`: routing on the method name. */
  method Handle(call: MethodCall, device: Device) returns (answers: seq<Answer>, presented: seq<seq<Pass>>)
    requires HandleDefined(call, device)
    ensures call.name == "getPlatformVersion" ==>
      answers == [Success(Str("iOS " + device.systemVersion))] && presented == []
    ensures call.name == "isWalletAvailable" ==>
      answers == [Success(Bool(device.canAddPasses))] && presented == []
    ensures call.name !in IOS_METHODS ==> answers == [NotImplemented] && presented == []
    // arguments that are not a string-keyed map: no answer at all
    ensures call.name in {"addWalletCard", "addMultipleWalletCards", "didAddedToTheWallet"} && !call.arguments.ArgMap? ==>
      answers == [] && presented == []
    ensures call.name == "addWalletCard" && call.arguments.ArgMap? ==>
      var outcome := device.passFiles[call.arguments.entries["path"].s];
      answers == [Success(Bool(outcome.Parsed?))] &&
      presented == (if outcome.Parsed? then [[outcome.pass]] else [])
    ensures call.name == "addMultipleWalletCards" && call.arguments.ArgMap? ==>
      var paths := call.arguments.entries["paths"].items;
      presented == [ParsedPasses(paths, device.passFiles)] &&
      |answers| == FailureCount(paths, device.passFiles) + 1 &&
      (forall k | 0 <= k < |answers| - 1 :: answers[k] == Success(Bool(false))) &&
      answers[|answers| - 1] == Success(Bool(true))
    ensures call.name == "didAddedToTheWallet" && call.arguments.ArgMap? ==>
      var serialNumber := call.arguments.entries["serialNumber"].s;
      presented == [] &&
      answers == [Success(Bool(exists i | 0 <= i < |device.library| :: device.library[i].serialNumber == serialNumber))]
  {
    answers, presented := [], [];
    match call.name {
      case "getPlatformVersion" =>
        answers := [Success(Str("iOS " + device.systemVersion))];
      case "addWalletCard" =>
        if call.arguments.ArgMap? {
          answers, presented := AddWalletCard(call.arguments.entries["path"].s, device);
        }
      case "addMultipleWalletCards" =>
        if call.arguments.ArgMap? {
          answers, presented := AddMultipleWalletCards(call.arguments.entries["paths"].items, device);
        }
      case "isWalletAvailable" =>
        answers := [Success(Bool(device.canAddPasses))];
      case "didAddedToTheWallet" =>
        if call.arguments.ArgMap? {
          var added := DidAddedToTheWallet(device.library, call.arguments.entries["serialNumber"].s);
          answers := [Success(Bool(added))];
        }
      case _ =>
        answers := [NotImplemented];
    }
  }
}
