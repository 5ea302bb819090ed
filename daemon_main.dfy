/**
 * The node's `main` (src/Daemon/Daemon.cpp): the informational actions and
 * the genesis transaction printer, the configuration merge and the
 * configuration-writing options, then start-up (logging, checkpoints, the
 * data directory, the database with its shutdown guard, the core and the
 * servers) and shutdown.  The subsystems are not modelled: each call into one
 * is an event of a trace, and what a call reports back (success, a thrown
 * exception) is part of the environment.
 */
module DaemonMain {
  import opened Wrappers
  import opened Sources
  import opened DaemonConfig

  // ---------------------------------------------------------------------------
  // Collaborators

  /** A CryptoNote::AccountPublicAddress. */
  datatype AccountAddress = AccountAddress(spendPublicKey: seq<bv8>, viewPublicKey: seq<bv8>)

  /** An entry of the built-in CHECKPOINTS table. */
  datatype Checkpoint = Checkpoint(index: nat, blockId: string)

  /** What `main` learns from outside the process, kept abstract. */
  datatype Environment = Environment(
    build: BuildConstants,
    tools: PathTools,
    readConfig: string -> ConfigFile<Key>,             // open and parse the --config-file
    saveConfig: (string, DaemonConfiguration) -> bool,  // `asFile` completes without throwing
    parseAddress: string -> Option<AccountAddress>,    // `currency.parseAccountAddressString`
    currencyValid: bool -> bool,                       // `currency()` after `isBlockexplorer(mode)` does not throw
    builtInCheckpoints: seq<Checkpoint>,               // CryptoNote::CHECKPOINTS
    loadCheckpoints: string -> bool,                   // `loadCheckpointsFromFile` succeeds
    folderDefaulted: string -> bool,                   // `dbConfig.isConfigFolderDefaulted()`
    createDirectories: string -> bool,                 // `create_directories_if_necessary` succeeds
    directoryExists: string -> bool,                   // `Tools::directoryExists`
    openDatabase: bool,                                // the first `database.init` does not throw
    schemeCurrent: bool,                               // `checkDBSchemeVersion` accepts the database
    destroyDatabase: bool,                             // `database.destroy` does not throw
    reopenDatabase: bool,                              // the second `database.init` does not throw
    loadCore: bool,                                    // `ccore.load()` does not throw
    initP2p: bool)                                     // `p2psrv.init` returns true

  /** The calls `main` makes into the subsystems, in the order it makes them. */
  datatype Event =
    | LogConfigured(level: int, file: string)
    | CheckpointAdded(checkpoint: Checkpoint)
    | CheckpointsFileLoaded(path: string, loaded: bool)
    | DirectoryCreated(path: string, created: bool)
    | DatabaseInit(succeeded: bool)
    | DatabaseShutdown
    | DatabaseDestroy(destroyed: bool)
    | CoreLoad(loaded: bool)
    | EndpointSet
    | P2pInit(initialized: bool)
    | ConsoleStarted
    | RpcStarted(address: string, port: int)
    | RpcFeeAddress(feeAddress: string)
    | RpcFeeAmount(feeAmount: int)
    | RpcCors(domains: seq<string>)
    | SignalHandlerInstalled
    | P2pRun
    | ConsoleStopped
    | RpcStopped
    | P2pDeinit
    | EndpointCleared
    | CoreSaved

  // ---------------------------------------------------------------------------
  // print_genesis_tx_hex

  /**
   * The reward addresses parsed in order, or the first one that does not
   * parse.
   */
  function ParsedTargets(addresses: seq<string>, parse: string -> Option<AccountAddress>)
    : Result<seq<AccountAddress>, string>
  {
    if addresses == [] then Ok([])
    else
      match ParsedTargets(addresses[..|addresses| - 1], parse)
      case Err(bad) => Err(bad)
      case Ok(targets) =>
        match parse(addresses[|addresses| - 1])
        case None => Err(addresses[|addresses| - 1])
        case Some(address) => Ok(targets + [address])
  }

  /** How `print_genesis_tx_hex` ends. */
  datatype GenesisOutcome =
    | CurrencyThrown                      // `currencyBuilder.currency()` threw; nothing catches it
    | UnparsableAddress(address: string)  // "Failed to parse genesis reward address"
    | RewardAddressesMissing              // a genesis reward is configured but no address given
    | GenesisPrinted(targets: seq<AccountAddress>)

  function GenesisResult(addresses: seq<string>, blockExplorerMode: bool, currencyValid: bool -> bool,
                         parse: string -> Option<AccountAddress>, reward: int): GenesisOutcome
  {
    if !currencyValid(blockExplorerMode) then CurrencyThrown
    else
      match ParsedTargets(addresses, parse)
      case Err(bad) => UnparsableAddress(bad)
      case Ok(targets) => if targets == [] && reward > 0 then RewardAddressesMissing else GenesisPrinted(targets)
  }

  /**
   * `print_genesis_tx_hex`: builds the currency (which may throw), parses
   * the reward addresses one by one, stopping at the first that does not
   * parse, then refuses an empty list when the genesis block has a reward.
   * Building and printing the transaction are left out.
   */
  method PrintGenesisTxHex(addresses: seq<string>, blockExplorerMode: bool, currencyValid: bool -> bool,
                           parse: string -> Option<AccountAddress>, reward: int)
    returns (outcome: GenesisOutcome)
    ensures outcome == GenesisResult(addresses, blockExplorerMode, currencyValid, parse, reward)
  {
    if !currencyValid(blockExplorerMode) {
      return CurrencyThrown;
    }
    var rewardTargets: seq<AccountAddress> := [];
    for i := 0 to |addresses|
      invariant ParsedTargets(addresses[..i], parse) == Ok(rewardTargets)
    {
      assert addresses[..i + 1][..i] == addresses[..i];
      var address := parse(addresses[i]);
      if address.None? {
        FirstUnparsable(addresses, parse, i);
        return UnparsableAddress(addresses[i]);
      }
      rewardTargets := rewardTargets + [address.value];
    }
    assert addresses[..|addresses|] == addresses;
    if rewardTargets == [] {
      if reward > 0 {
        return RewardAddressesMissing;
      }
      return GenesisPrinted(rewardTargets);
    } else {
      return GenesisPrinted(rewardTargets);
    }
  }

  /** An address that does not parse, after a prefix that does, is the one reported. */
  lemma {:induction false} FirstUnparsable(addresses: seq<string>, parse: string -> Option<AccountAddress>, i: nat)
    requires i < |addresses|
    requires ParsedTargets(addresses[..i], parse).Ok?
    requires parse(addresses[i]).None?
    ensures ParsedTargets(addresses, parse) == Err(addresses[i])
  {
    var last := |addresses| - 1;
    if i == last {
      assert addresses[..last] == addresses[..i];
    } else {
      var front := addresses[..last];
      assert front[..i] == addresses[..i];
      FirstUnparsable(front, parse, i);
    }
  }

  /** The targets are the addresses parsed, one for one and in order, exactly when every address parses. */
  lemma {:induction false} ParsedTargetsExact(addresses: seq<string>, parse: string -> Option<AccountAddress>,
                                              targets: seq<AccountAddress>)
    ensures ParsedTargets(addresses, parse) == Ok(targets) <==>
      |targets| == |addresses| && forall i :: 0 <= i < |addresses| ==> parse(addresses[i]) == Some(targets[i])
  {
    if addresses != [] && |targets| == |addresses| {
      var last := |addresses| - 1;
      ParsedTargetsExact(addresses[..last], parse, targets[..last]);
      assert targets[..last] + [targets[last]] == targets;
      if forall i :: 0 <= i < |addresses| ==> parse(addresses[i]) == Some(targets[i]) {
        forall i | 0 <= i < last
          ensures parse(addresses[..last][i]) == Some(targets[..last][i])
        {
          assert addresses[..last][i] == addresses[i];
        }
      }
    } else if addresses != [] && ParsedTargets(addresses, parse).Ok? {
      ParsedTargetsLength(addresses, parse);
    }
  }

  /** As many targets as addresses. */
  lemma {:induction false} ParsedTargetsLength(addresses: seq<string>, parse: string -> Option<AccountAddress>)
    requires ParsedTargets(addresses, parse).Ok?
    ensures |ParsedTargets(addresses, parse).value| == |addresses|
  {
    if addresses != [] {
      ParsedTargetsLength(addresses[..|addresses| - 1], parse);
    }
  }

  /** When the addresses do not all parse, the one reported is the first that does not. */
  lemma {:induction false} UnparsableIsFirst(addresses: seq<string>, parse: string -> Option<AccountAddress>)
    requires ParsedTargets(addresses, parse).Err?
    ensures exists i ::
      && 0 <= i < |addresses| && parse(addresses[i]).None?
      && (forall j :: 0 <= j < i ==> parse(addresses[j]).Some?)
      && ParsedTargets(addresses, parse).error == addresses[i]
  {
    var last := |addresses| - 1;
    var front := addresses[..last];
    if ParsedTargets(front, parse).Err? {
      UnparsableIsFirst(front, parse);
      var i :| 0 <= i < |front| && parse(front[i]).None? &&
        (forall j :: 0 <= j < i ==> parse(front[j]).Some?) && ParsedTargets(front, parse).error == front[i];
      assert forall j :: 0 <= j < i ==> front[j] == addresses[j];
      assert front[i] == addresses[i];
    } else {
      ParsedTargetsExact(front, parse, ParsedTargets(front, parse).value);
      assert forall j :: 0 <= j < last ==> front[j] == addresses[j];
      assert parse(addresses[last]).None? && ParsedTargets(addresses, parse).error == addresses[last];
    }
  }

  /**
   * The outcomes of `print_genesis_tx_hex`: the currency is built first and
   * its exception ends everything; then the transaction is printed for
   * every address parsed in order, an empty list is refused exactly when a
   * reward is due, and an address that does not parse is reported as the
   * first such address.
   */
  lemma GenesisOutcomes(addresses: seq<string>, blockExplorerMode: bool, currencyValid: bool -> bool,
                        parse: string -> Option<AccountAddress>, reward: int)
    ensures var r := GenesisResult(addresses, blockExplorerMode, currencyValid, parse, reward);
      r == CurrencyThrown <==> !currencyValid(blockExplorerMode)
    ensures var r := GenesisResult(addresses, blockExplorerMode, currencyValid, parse, reward);
      r == RewardAddressesMissing <==> currencyValid(blockExplorerMode) && addresses == [] && reward > 0
    ensures var r := GenesisResult(addresses, blockExplorerMode, currencyValid, parse, reward);
      r.GenesisPrinted? ==>
        |r.targets| == |addresses| && forall i :: 0 <= i < |addresses| ==> parse(addresses[i]) == Some(r.targets[i])
    ensures var r := GenesisResult(addresses, blockExplorerMode, currencyValid, parse, reward);
      currencyValid(blockExplorerMode) ==>
        ((forall i :: 0 <= i < |addresses| ==> parse(addresses[i]).Some?) <==> !r.UnparsableAddress?)
    ensures var r := GenesisResult(addresses, blockExplorerMode, currencyValid, parse, reward);
      r.UnparsableAddress? ==>
        exists i ::
          && 0 <= i < |addresses| && parse(addresses[i]).None?
          && (forall j :: 0 <= j < i ==> parse(addresses[j]).Some?)
          && r.address == addresses[i]
  {
    if ParsedTargets(addresses, parse).Ok? {
      var targets := ParsedTargets(addresses, parse).value;
      ParsedTargetsExact(addresses, parse, targets);
    } else {
      UnparsableIsFirst(addresses, parse);
    }
    if forall i :: 0 <= i < |addresses| ==> parse(addresses[i]).Some? {
      var targets := seq(|addresses|, i requires 0 <= i < |addresses| => parse(addresses[i]).value);
      ParsedTargetsExact(addresses, parse, targets);
    }
  }

  // ---------------------------------------------------------------------------
  // The informational and configuration-writing options

  datatype InfoAction = ShowHelp | ShowVersion | ShowOsVersion | ShowGenesisTx(outcome: GenesisOutcome)

  /** How the part of `main` before start-up ends, or the configuration it starts with. */
  datatype Launch =
    | ParseFailed                              // the options did not parse
    | Informed(action: InfoAction)             // an informational option was handled
    | ConfigFileRejected(error: FileError)     // the configuration file overlay threw
    | Dumped(dumped: DaemonConfiguration)      // --dump-config
    | Saved(saved: DaemonConfiguration, written: bool)  // --save-config
    | Start(config: DaemonConfiguration)

  /**
   * The status of a process ended by an exception nothing catches:
   * `std::terminate` calls `abort()`, and a POSIX shell reports a process
   * killed by SIGABRT (6) as 128 + 6.
   */
  const TerminatedStatus := 134

  /** The status `main` exits with before start-up. */
  function LaunchExitCode(launch: Launch): int
  {
    match launch
    case ParseFailed => 1
    case Informed(ShowGenesisTx(CurrencyThrown)) => TerminatedStatus
    case ConfigFileRejected(_) => 1
    case Saved(_, written) => if written then 0 else 1
    case _ => 0
  }

  /**
   * The configuration file named `configFile` (none when empty) read over
   * `start`, then the command line, with the command line overlay as written
   * (it never reads "allow-local-ip").
   */
  function Merged(configFile: string, cli: ParseResult<Key>, readConfig: string -> ConfigFile<Key>,
                  start: DaemonConfiguration): Result<DaemonConfiguration, FileError>
  {
    if configFile == "" then Ok(CliOverlayAsWritten(cli, start))
    else
      match FileOverlay(readConfig(configFile), start)
      case Err(e) => Err(e)
      case Ok(fromFile) => Ok(CliOverlayAsWritten(cli, fromFile))
  }

  /** What the options and the configuration file decide, from `initConfiguration(argv[0])`. */
  function Dispatch(parsed: Option<ParseResult<Key>>, env: Environment, start: DaemonConfiguration): Launch
  {
    if parsed.None? then ParseFailed
    else
      var cli := parsed.value;
      if BoolArg(cli, Core(Help), false) then Informed(ShowHelp)
      else if BoolArg(cli, Core(Version), false) then Informed(ShowVersion)
      else if BoolArg(cli, Core(OsVersion), false) then Informed(ShowOsVersion)
      else if BoolArg(cli, Genesis(PrintGenesisTx), false) then
        Informed(ShowGenesisTx(GenesisResult(StringsArg(cli, Genesis(GenesisBlockRewardAddress), []), false,
                                             env.currencyValid, env.parseAddress, env.build.genesisBlockReward)))
      else
        match Merged(StringArg(cli, Daemon(ConfigFile), ""), cli, env.readConfig, start)
        case Err(e) => ConfigFileRejected(e)
        case Ok(config) =>
          if BoolArg(cli, Daemon(DumpConfig), false) then Dumped(config)
          else if StringArg(cli, Daemon(SaveConfig), "") != "" then
            Saved(config, env.saveConfig(StringArg(cli, Daemon(SaveConfig), ""), config))
          else Start(config)
  }

  /**
   * `main` up to start-up, given the parse result (None when parsing threw):
   * the informational options in the order of the source, then the file and
   * command line overlays, then --dump-config and --save-config.
   */
  method Decide(parsed: Option<ParseResult<Key>>, env: Environment, start: DaemonConfiguration)
    returns (launch: Launch)
    ensures launch == Dispatch(parsed, env, start)
  {
    if parsed.None? {
      return ParseFailed;
    }
    var cli := parsed.value;
    var help := OverrideBool(cli, Core(Help), false);
    var osVersion := OverrideBool(cli, Core(OsVersion), false);
    var version := OverrideBool(cli, Core(Version), false);
    var genesisAwardAddresses := OverrideStrings(cli, Genesis(GenesisBlockRewardAddress), []);
    var printGenesisTx := OverrideBool(cli, Genesis(PrintGenesisTx), false);
    var configFile := OverrideString(cli, Daemon(ConfigFile), "");
    var dumpConfig := OverrideBool(cli, Daemon(DumpConfig), false);
    var outputFile := OverrideString(cli, Daemon(SaveConfig), "");

    if help {
      return Informed(ShowHelp);
    } else if version {
      return Informed(ShowVersion);
    } else if osVersion {
      return Informed(ShowOsVersion);
    } else if printGenesisTx {
      var outcome := PrintGenesisTxHex(genesisAwardAddresses, false, env.currencyValid, env.parseAddress,
                                       env.build.genesisBlockReward);
      return Informed(ShowGenesisTx(outcome));
    }

    var config := start;
    if configFile != "" {
      var fromFile := HandleFileSettings(env.readConfig(configFile), config);
      if fromFile.Err? {
        return ConfigFileRejected(fromFile.error);
      }
      config := fromFile.value;
    }
    config := HandleCliSettingsAsWritten(cli, config);

    if dumpConfig {
      return Dumped(config);
    } else if outputFile != "" {
      var written := env.saveConfig(outputFile, config);
      return Saved(config, written);
    }
    return Start(config);
  }

  /**
   * The informational options are handled in the order help, version,
   * os-version, print-genesis-tx, before any configuration is read: the
   * outcome does not depend on the file.  Each ends `main` with status 0,
   * except when building the currency for the genesis transaction throws:
   * the exception leaves `main` and terminates the process.
   */
  lemma InfoActionPriority(cli: ParseResult<Key>, env: Environment, start: DaemonConfiguration,
                           readConfig: string -> ConfigFile<Key>)
    ensures BoolArg(cli, Core(Help), false) ==> Dispatch(Some(cli), env, start) == Informed(ShowHelp)
    ensures !BoolArg(cli, Core(Help), false) && BoolArg(cli, Core(Version), false) ==>
      Dispatch(Some(cli), env, start) == Informed(ShowVersion)
    ensures !BoolArg(cli, Core(Help), false) && !BoolArg(cli, Core(Version), false) && BoolArg(cli, Core(OsVersion), false) ==>
      Dispatch(Some(cli), env, start) == Informed(ShowOsVersion)
    ensures !BoolArg(cli, Core(Help), false) && !BoolArg(cli, Core(Version), false) && !BoolArg(cli, Core(OsVersion), false) &&
            BoolArg(cli, Genesis(PrintGenesisTx), false) ==>
      Dispatch(Some(cli), env, start) ==
        Informed(ShowGenesisTx(GenesisResult(StringsArg(cli, Genesis(GenesisBlockRewardAddress), []), false,
                                             env.currencyValid, env.parseAddress, env.build.genesisBlockReward)))
    ensures Dispatch(Some(cli), env, start).Informed? ==>
      && (LaunchExitCode(Dispatch(Some(cli), env, start)) == 0 <==>
            Dispatch(Some(cli), env, start).action != ShowGenesisTx(CurrencyThrown))
      && Dispatch(Some(cli), env.(readConfig := readConfig), start) == Dispatch(Some(cli), env, start)
  {
  }

  /** A configuration file the overlay rejects ends `main` with status 1. */
  lemma FileErrorExits(cli: ParseResult<Key>, env: Environment, start: DaemonConfiguration)
    requires Dispatch(Some(cli), env, start).ConfigFileRejected?
    ensures LaunchExitCode(Dispatch(Some(cli), env, start)) == 1
    ensures StringArg(cli, Daemon(ConfigFile), "") != ""
    ensures FileOverlay(env.readConfig(StringArg(cli, Daemon(ConfigFile), "")), start).Err?
  {
  }

  /**
   * The file is read before the command line: a setting given on the command
   * line takes the command line's value, one the command line leaves out
   * takes the file's value (converted as `get<T>()` does) when the file has
   * it, and the start value otherwise.  `localIp` is the exception: the
   * command line cannot set it, so it always comes from the file or the start
   * value.  The parser never holds the undeclared "local-ip".
   */
  lemma CliWinsOverFile(configFile: string, cli: ParseResult<Key>, m: imap<Key, Json>,
                        start: DaemonConfiguration, k: Key)
    requires k in cli ==> Setting(k) == Some(KindOf(cli[k].value))
    requires LocalIp !in cli
    requires Setting(k).Some?
    requires SettingsReadable(m)
    ensures Merged(configFile, cli, _ => Parsed(Object(m)), start).Ok?
    ensures Given(cli, k) && k != Network(AllowLocalIp) ==>
      Get(Merged(configFile, cli, _ => Parsed(Object(m)), start).value, k) == Some(cli[k].value)
    ensures (!Given(cli, k) || k == Network(AllowLocalIp)) && configFile != "" && k in m ==>
      Get(Merged(configFile, cli, _ => Parsed(Object(m)), start).value, k) == Convert(m[k], Setting(k).value)
    ensures (!Given(cli, k) || k == Network(AllowLocalIp)) && !(configFile != "" && k in m) ==>
      Get(Merged(configFile, cli, _ => Parsed(Object(m)), start).value, k) == Get(start, k)
  {
    FileOverlayExact(m, start, k);
    if configFile == "" {
      CliOverlayAsWrittenExact(cli, start, k);
    } else {
      CliOverlayAsWrittenExact(cli, ApplyMembers(m, start), k);
    }
  }

  /**
   * --dump-config is handled before --save-config, and either ends `main`
   * before start-up with the merged configuration.
   */
  lemma DumpBeforeSave(cli: ParseResult<Key>, env: Environment, start: DaemonConfiguration)
    requires Dispatch(Some(cli), env, start).Dumped? || Dispatch(Some(cli), env, start).Saved?
    ensures var merged := Merged(StringArg(cli, Daemon(ConfigFile), ""), cli, env.readConfig, start);
      && merged.Ok?
      && (BoolArg(cli, Daemon(DumpConfig), false) ==>
            Dispatch(Some(cli), env, start) == Dumped(merged.value))
      && (!BoolArg(cli, Daemon(DumpConfig), false) ==>
            Dispatch(Some(cli), env, start) ==
              Saved(merged.value, env.saveConfig(StringArg(cli, Daemon(SaveConfig), ""), merged.value)))
  {
  }

  // ---------------------------------------------------------------------------
  // Start-up steps

  /** The log file: beside the program when none is set, in the program's directory when given without one. */
  function LogFilePath(tools: PathTools, programPath: string, logFile: string): string
  {
    var modulePath := tools.nativeToGeneric(programPath);
    var cfgLogFile := tools.nativeToGeneric(logFile);
    if cfgLogFile == "" then tools.replaceExtension(modulePath, ".log")
    else if !tools.hasParentPath(cfgLogFile) then tools.combine(tools.directoryOf(modulePath), cfgLogFile)
    else cfgLogFile
  }

  /**
   * The logger's level: the configured level counts up from ERROR.  The
   * enumeration cast is not range checked, so the sum is kept as an integer.
   */
  function LogLevelFor(configLevel: int): int
  {
    LogError + configLevel
  }

  /** Where the checkpoints come from. */
  datatype CheckpointSource = NoCheckpoints | BuiltIn | FromFile(path: string)

  function CheckpointSourceOf(setting: string): CheckpointSource
  {
    if setting == "" then NoCheckpoints
    else if setting == "default" then BuiltIn
    else FromFile(setting)
  }

  /** The `addCheckpoint` calls made for a table, in its order. */
  function Added(table: seq<Checkpoint>): (events: seq<Event>)
    ensures |events| == |table|
    ensures forall i :: 0 <= i < |table| ==> events[i] == CheckpointAdded(table[i])
  {
    if table == [] then [] else Added(table[..|table| - 1]) + [CheckpointAdded(table[|table| - 1])]
  }

  /** Whether a start-up step let `main` go on, and the calls it made. */
  datatype Step = Step(ok: bool, events: seq<Event>)

  function Checkpointing(setting: string, env: Environment): Step
  {
    match CheckpointSourceOf(setting)
    case NoCheckpoints => Step(true, [])
    case BuiltIn => Step(true, Added(env.builtInCheckpoints))
    case FromFile(path) => Step(env.loadCheckpoints(path), [CheckpointsFileLoaded(path, env.loadCheckpoints(path))])
  }

  /**
   * The checkpoints: none for an empty setting, the built-in table, one entry
   * after another, for "default", and otherwise the file the setting names,
   * whose failure to load throws.
   */
  method LoadCheckpoints(setting: string, env: Environment) returns (ok: bool, events: seq<Event>)
    ensures Step(ok, events) == Checkpointing(setting, env)
  {
    ok, events := true, [];
    var useCheckpoints := setting != "";
    if useCheckpoints {
      if setting == "default" {
        var table := env.builtInCheckpoints;
        for i := 0 to |table|
          invariant events == Added(table[..i])
        {
          assert table[..i + 1][..i] == table[..i];
          events := events + [CheckpointAdded(table[i])];
        }
        assert table[..|table|] == table;
      } else {
        var results := env.loadCheckpoints(setting);
        events := [CheckpointsFileLoaded(setting, results)];
        if !results {
          ok := false;
        }
      }
    }
  }

  /** The checkpoint source the setting selects, and what each loads. */
  lemma CheckpointSelection(setting: string, env: Environment)
    ensures setting == "" ==> Checkpointing(setting, env) == Step(true, [])
    ensures setting == "default" ==>
      && Checkpointing(setting, env).ok
      && |Checkpointing(setting, env).events| == |env.builtInCheckpoints|
      && forall i :: 0 <= i < |env.builtInCheckpoints| ==>
           Checkpointing(setting, env).events[i] == CheckpointAdded(env.builtInCheckpoints[i])
    ensures setting != "" && setting != "default" ==>
      Checkpointing(setting, env).ok == env.loadCheckpoints(setting)
  {
  }

  function DirectoryPreparation(dataDirectory: string, env: Environment): Step
  {
    if env.folderDefaulted(dataDirectory) then
      Step(env.createDirectories(dataDirectory), [DirectoryCreated(dataDirectory, env.createDirectories(dataDirectory))])
    else Step(env.directoryExists(dataDirectory), [])
  }

  /**
   * The data directory: created when the default one is in use (a failure
   * throws); another directory must already exist (otherwise it throws).
   */
  method PrepareDirectory(dataDirectory: string, env: Environment) returns (ok: bool, events: seq<Event>)
    ensures Step(ok, events) == DirectoryPreparation(dataDirectory, env)
  {
    events := [];
    if env.folderDefaulted(dataDirectory) {
      var created := env.createDirectories(dataDirectory);
      events := [DirectoryCreated(dataDirectory, created)];
      ok := created;
    } else {
      ok := env.directoryExists(dataDirectory);
    }
  }

  /**
   * The directory policy over a whole run: a directory is created only when it
   * is the default one, and only that directory; a directory given explicitly
   * that does not exist ends `main` with status 1 before any database call; a
   * run that reaches the P2P loop has a data directory that exists or was
   * created.
   */
  lemma DirectoryPolicy(config: DaemonConfiguration, programPath: string, env: Environment)
    ensures forall e :: e in Startup(config, programPath, env).trace && e.DirectoryCreated? ==>
      e.path == config.dataDirectory && env.folderDefaulted(config.dataDirectory)
    ensures env.currencyValid(config.enableBlockExplorer) && Checkpointing(config.checkPoints, env).ok &&
            !env.folderDefaulted(config.dataDirectory) && !env.directoryExists(config.dataDirectory) ==>
      && Startup(config, programPath, env).code == 1
      && forall e :: e in Startup(config, programPath, env).trace ==>
           !e.DatabaseInit? && !e.DatabaseShutdown? && !e.DatabaseDestroy?
    ensures Startup(config, programPath, env).code == 0 ==>
      if env.folderDefaulted(config.dataDirectory)
      then DirectoryCreated(config.dataDirectory, true) in Startup(config, programPath, env).trace
      else env.directoryExists(config.dataDirectory)
  {
    var logging := [LogConfigured(LogLevelFor(config.logLevel), LogFilePath(env.tools, programPath, config.logFile))];
    var checkpoints := Checkpointing(config.checkPoints, env);
    var directory := DirectoryPreparation(config.dataDirectory, env);
    var prepared := logging + checkpoints.events + directory.events;
    CheckpointsOnlyCheckpoints(config.checkPoints, env);
    LaterStepsCreateNoDirectory(config, env);
    if env.currencyValid(config.enableBlockExplorer) && checkpoints.ok && directory.ok {
      var database := DatabaseOpening(env);
      if database.ok {
        assert Startup(config, programPath, env).trace == prepared + (database.events + Serving(config, env).events + [DatabaseShutdown]);
      } else {
        assert Startup(config, programPath, env).trace == prepared + database.events;
      }
    }
  }

  /** Neither the database step nor serving creates a directory. */
  lemma LaterStepsCreateNoDirectory(config: DaemonConfiguration, env: Environment)
    ensures forall e :: e in DatabaseOpening(env).events ==> !e.DirectoryCreated?
    ensures forall e :: e in Serving(config, env).events ==> !e.DirectoryCreated?
  {
  }

  /** A `Tools::ScopeExit` whose handler shuts the database down when the guard goes out of scope. */
  class ScopeExit {
    var cancelled: bool

    constructor()
      ensures !cancelled
    {
      cancelled := false;
    }

    method Cancel()
      modifies this
      ensures cancelled
    {
      cancelled := true;
    }

    method Resume()
      modifies this
      ensures !cancelled
    {
      cancelled := false;
    }
  }

  /** The database calls from `database.init` to the end of the schema check. */
  function DatabaseOpening(env: Environment): Step
  {
    if !env.openDatabase then Step(false, [DatabaseInit(false)])
    else if env.schemeCurrent then Step(true, [DatabaseInit(true)])
    else
      var rebuild := [DatabaseInit(true), DatabaseShutdown, DatabaseDestroy(env.destroyDatabase)];
      if !env.destroyDatabase then Step(false, rebuild)
      else Step(env.reopenDatabase, rebuild + [DatabaseInit(env.reopenDatabase)])
  }

  /**
   * `database.init`, the shutdown guard, and the rebuild of a database with
   * an outdated schema: the guard is cancelled while the database is shut
   * down, destroyed and initialised again, and resumed afterwards.  A call
   * that throws leaves the block; the guard, if it exists, then goes out of
   * scope cancelled.  When the database is open the returned guard is armed.
   */
  method OpenDatabase(env: Environment) returns (ok: bool, events: seq<Event>, guard: ScopeExit?)
    ensures Step(ok, events) == DatabaseOpening(env)
    ensures guard == null <==> !env.openDatabase
    ensures guard != null ==> fresh(guard)
    ensures ok ==> guard != null && !guard.cancelled
    ensures !ok ==> guard == null || guard.cancelled
    ensures guard != null ==> (!guard.cancelled <==> DatabaseAfterAll(false, events) == Some(true))
  {
    DatabaseOpeningLeavesOpen(env);
    guard := null;
    events := [DatabaseInit(env.openDatabase)];
    if !env.openDatabase {
      return false, events, guard;
    }
    guard := new ScopeExit();

    if !env.schemeCurrent {
      guard.Cancel();
      events := events + [DatabaseShutdown];

      events := events + [DatabaseDestroy(env.destroyDatabase)];
      if !env.destroyDatabase {
        return false, events, guard;
      }

      events := events + [DatabaseInit(env.reopenDatabase)];
      if !env.reopenDatabase {
        return false, events, guard;
      }
      guard.Resume();
    }
    ok := true;
  }

  /** The calls from `ccore.load()` to `ccore.save()`. */
  function Serving(config: DaemonConfiguration, env: Environment): Step
  {
    if !env.loadCore then Step(false, [CoreLoad(false)])
    else if !env.initP2p then Step(false, [CoreLoad(true), EndpointSet, P2pInit(false)])
    else
      Step(true, [CoreLoad(true), EndpointSet, P2pInit(true)]
        + (if config.noConsole then [] else [ConsoleStarted])
        + [RpcStarted(config.rpcInterface, config.rpcPort), RpcFeeAddress(config.feeAddress),
           RpcFeeAmount(config.feeAmount), RpcCors(config.enableCors), SignalHandlerInstalled,
           P2pRun, ConsoleStopped, RpcStopped, P2pDeinit, EndpointCleared, CoreSaved])
  }

  /**
   * Loads the core, initialises the P2P server (a failure returns 1), starts
   * the console unless disabled and the RPC server, runs the P2P loop until it
   * stops, then stops and deinitialises the components.
   */
  method Serve(config: DaemonConfiguration, env: Environment) returns (ok: bool, events: seq<Event>)
    ensures Step(ok, events) == Serving(config, env)
  {
    events := [CoreLoad(env.loadCore)];
    if !env.loadCore {
      return false, events;
    }
    events := events + [EndpointSet];
    events := events + [P2pInit(env.initP2p)];
    if !env.initP2p {
      return false, events;
    }
    if !config.noConsole {
      events := events + [ConsoleStarted];
    }
    events := events + [RpcStarted(config.rpcInterface, config.rpcPort), RpcFeeAddress(config.feeAddress),
                        RpcFeeAmount(config.feeAmount), RpcCors(config.enableCors)];
    events := events + [SignalHandlerInstalled];
    events := events + [P2pRun];
    events := events + [ConsoleStopped, RpcStopped, P2pDeinit, EndpointCleared, CoreSaved];
    ok := true;
  }

  /** How `main` ends, and the calls it made into the subsystems. */
  datatype NodeRun = NodeRun(code: int, trace: seq<Event>)

  /** Start-up and shutdown with the merged configuration. */
  function Startup(config: DaemonConfiguration, programPath: string, env: Environment): NodeRun
  {
    var logging := [LogConfigured(LogLevelFor(config.logLevel), LogFilePath(env.tools, programPath, config.logFile))];
    if !env.currencyValid(config.enableBlockExplorer) then NodeRun(1, logging)
    else
      var checkpoints := Checkpointing(config.checkPoints, env);
      if !checkpoints.ok then NodeRun(1, logging + checkpoints.events)
      else
        var directory := DirectoryPreparation(config.dataDirectory, env);
        var prepared := logging + checkpoints.events + directory.events;
        if !directory.ok then NodeRun(1, prepared)
        else
          var database := DatabaseOpening(env);
          if !database.ok then NodeRun(1, prepared + database.events)
          else
            var serving := Serving(config, env);
            NodeRun(if serving.ok then 0 else 1, prepared + database.events + serving.events + [DatabaseShutdown])
  }

  /**
   * The `try` block of `main`: every failure inside it ends `main` with
   * status 1, and leaving the block runs the shutdown guard if it is armed.
   */
  method RunNode(config: DaemonConfiguration, programPath: string, env: Environment) returns (code: int, trace: seq<Event>)
    ensures NodeRun(code, trace) == Startup(config, programPath, env)
  {
    var cfgLogFile := LogFilePath(env.tools, programPath, config.logFile);
    var cfgLogLevel := LogLevelFor(config.logLevel);
    trace := [LogConfigured(cfgLogLevel, cfgLogFile)];

    if !env.currencyValid(config.enableBlockExplorer) {
      return 1, trace;
    }

    var loaded, checkpointEvents := LoadCheckpoints(config.checkPoints, env);
    trace := trace + checkpointEvents;
    if !loaded {
      return 1, trace;
    }

    var prepared, directoryEvents := PrepareDirectory(config.dataDirectory, env);
    trace := trace + directoryEvents;
    if !prepared {
      return 1, trace;
    }

    var isOpen, databaseEvents, dbShutdownOnExit := OpenDatabase(env);
    trace := trace + databaseEvents;
    if !isOpen {
      // Leaving the block destroys the guard, if it was constructed; a failed
      // rebuild has left it cancelled.
      assert dbShutdownOnExit == null || dbShutdownOnExit.cancelled;
      if dbShutdownOnExit != null && !dbShutdownOnExit.cancelled {
        trace := trace + [DatabaseShutdown];
      }
      return 1, trace;
    }

    var served, serviceEvents := Serve(config, env);
    trace := trace + serviceEvents;
    code := if served then 0 else 1;

    // Leaving the block destroys the guard.
    if !dbShutdownOnExit.cancelled {
      trace := trace + [DatabaseShutdown];
    }
  }

  /** All of `main`, from `initConfiguration(argv[0])`. */
  function MainRun(programPath: string, parsed: Option<ParseResult<Key>>, env: Environment,
                  defaultDataDirectory: string, blank: DaemonConfiguration): NodeRun
  {
    var start := Defaults(env.build, defaultDataDirectory, blank.feeAmount).(logFile := LogFileBeside(env.tools, programPath));
    match Dispatch(parsed, env, start)
    case Start(config) => Startup(config, programPath, env)
    case launch => NodeRun(LaunchExitCode(launch), [])
  }

  /**
   * `main(argc, argv)`, with `argv[0]`, the parse result of the arguments
   * (None when parsing threw), the environment, the default data directory
   * and the default constructed configuration struct.  Printing is left out.
   */
  method RunDaemon(programPath: string, parsed: Option<ParseResult<Key>>, env: Environment,
                   defaultDataDirectory: string, blank: DaemonConfiguration)
    returns (code: int, trace: seq<Event>)
    requires DefaultConstructed(blank)
    ensures NodeRun(code, trace) == MainRun(programPath, parsed, env, defaultDataDirectory, blank)
  {
    var config := InitConfigurationAt(env.build, defaultDataDirectory, blank, env.tools, programPath);
    var launch := Decide(parsed, env, config);
    if launch.Start? {
      code, trace := RunNode(launch.config, programPath, env);
    } else {
      code, trace := LaunchExitCode(launch), [];
    }
  }

  // ---------------------------------------------------------------------------
  // Properties of the trace

  /** The database after one call: open, closed, or None for a call the handle's state does not allow. */
  function DatabaseAfter(open: bool, e: Event): Option<bool>
  {
    match e
    case DatabaseInit(succeeded) => if open then None else Some(succeeded)
    case DatabaseShutdown => if open then Some(false) else None
    case DatabaseDestroy(_) => if open then None else Some(false)
    case _ => Some(open)
  }

  /** The database after a trace of calls, or None when some call is not allowed. */
  function DatabaseAfterAll(open: bool, trace: seq<Event>): Option<bool>
    decreases trace
  {
    if trace == [] then Some(open)
    else
      match DatabaseAfter(open, trace[0])
      case None => None
      case Some(next) => DatabaseAfterAll(next, trace[1..])
  }

  /** Following two traces one after the other is following their concatenation. */
  lemma {:induction false} DatabaseAfterAllAppend(open: bool, a: seq<Event>, b: seq<Event>)
    ensures DatabaseAfterAll(open, a + b) ==
      match DatabaseAfterAll(open, a)
      case None => None
      case Some(middle) => DatabaseAfterAll(middle, b)
    decreases a
  {
    if a != [] {
      assert (a + b)[0] == a[0];
      assert (a + b)[1..] == a[1..] + b;
      match DatabaseAfter(open, a[0])
      case None =>
      case Some(next) => DatabaseAfterAllAppend(next, a[1..], b);
    } else {
      assert a + b == b;
    }
  }

  function OpenCount(trace: seq<Event>): nat
  {
    if trace == [] then 0 else (if trace[0] == DatabaseInit(true) then 1 else 0) + OpenCount(trace[1..])
  }

  function ShutdownCount(trace: seq<Event>): nat
  {
    if trace == [] then 0 else (if trace[0] == DatabaseShutdown then 1 else 0) + ShutdownCount(trace[1..])
  }

  /** Along a trace that keeps to the handle's states, opens and shutdowns balance up to the state reached. */
  lemma {:induction false} OpensBalanceShutdowns(open: bool, trace: seq<Event>, close: bool)
    requires DatabaseAfterAll(open, trace) == Some(close)
    ensures OpenCount(trace) + (if open then 1 else 0) == ShutdownCount(trace) + (if close then 1 else 0)
    decreases trace
  {
    if trace != [] {
      var next := DatabaseAfter(open, trace[0]).value;
      OpensBalanceShutdowns(next, trace[1..], close);
    }
  }

  /** The trace of every start-up that gets past the configuration: the database is never misused and ends closed. */
  lemma {:induction false} StartupClosesDatabase(config: DaemonConfiguration, programPath: string, env: Environment)
    ensures DatabaseAfterAll(false, Startup(config, programPath, env).trace) == Some(false)
  {
    var logging := [LogConfigured(LogLevelFor(config.logLevel), LogFilePath(env.tools, programPath, config.logFile))];
    var checkpoints := Checkpointing(config.checkPoints, env);
    var directory := DirectoryPreparation(config.dataDirectory, env);
    var prepared := logging + checkpoints.events + directory.events;
    var database := DatabaseOpening(env);
    var serving := Serving(config, env);
    NoDatabaseCall(false, logging);
    CheckpointsLeaveDatabase(config.checkPoints, env);
    NoDatabaseCall(false, directory.events);
    DatabaseAfterAllAppend(false, logging, checkpoints.events);
    DatabaseAfterAllAppend(false, logging + checkpoints.events, directory.events);
    DatabaseAfterAllAppend(false, prepared, database.events);
    DatabaseOpeningLeavesOpen(env);
    if env.currencyValid(config.enableBlockExplorer) && checkpoints.ok && directory.ok && database.ok {
      ServingLeavesDatabase(config, env);
      DatabaseAfterAllAppend(false, prepared + database.events, serving.events);
      DatabaseAfterAllAppend(false, prepared + database.events + serving.events, [DatabaseShutdown]);
    }
  }

  /** Calls that are not database calls leave the database as it is. */
  lemma {:induction false} NoDatabaseCall(open: bool, trace: seq<Event>)
    requires forall e :: e in trace ==> !e.DatabaseInit? && !e.DatabaseShutdown? && !e.DatabaseDestroy?
    ensures DatabaseAfterAll(open, trace) == Some(open)
  {
    if trace != [] {
      assert trace[0] in trace;
      assert forall e :: e in trace[1..] ==> e in trace;
      NoDatabaseCall(open, trace[1..]);
    }
  }

  /** The database is open after the opening step exactly when the step succeeded. */
  lemma DatabaseOpeningLeavesOpen(env: Environment)
    ensures DatabaseAfterAll(false, DatabaseOpening(env).events) == Some(DatabaseOpening(env).ok)
  {
    var events := DatabaseOpening(env).events;
    if env.openDatabase && !env.schemeCurrent {
      var rest := events[1..];
      assert rest[1..] == events[2..];
      assert events[2..][1..] == events[3..];
      if env.destroyDatabase {
        assert events[3..][1..] == [];
        assert DatabaseAfterAll(false, events[3..]) == Some(env.reopenDatabase);
        assert DatabaseAfterAll(false, events[2..]) == Some(env.reopenDatabase);
        assert DatabaseAfterAll(true, events[1..]) == Some(env.reopenDatabase);
      } else {
        assert events[3..] == [];
        assert DatabaseAfterAll(false, events[2..]) == Some(false);
        assert DatabaseAfterAll(true, events[1..]) == Some(false);
      }
    } else {
      assert events[1..] == [];
    }
  }

  /** Serving makes no database call. */
  lemma ServingLeavesDatabase(config: DaemonConfiguration, env: Environment)
    ensures DatabaseAfterAll(true, Serving(config, env).events) == Some(true)
  {
    NoDatabaseCall(true, Serving(config, env).events);
  }

  /** Loading checkpoints makes no database call. */
  lemma CheckpointsLeaveDatabase(setting: string, env: Environment)
    ensures DatabaseAfterAll(false, Checkpointing(setting, env).events) == Some(false)
  {
    CheckpointsOnlyCheckpoints(setting, env);
    NoDatabaseCall(false, Checkpointing(setting, env).events);
  }

  /**
   * Every database handle `main` opens is shut down exactly once, and none is
   * shut down that is not open; in every run of `main`.
   */
  lemma DatabaseShutDownOnce(programPath: string, parsed: Option<ParseResult<Key>>, env: Environment,
                             defaultDataDirectory: string, blank: DaemonConfiguration)
    ensures var trace := MainRun(programPath, parsed, env, defaultDataDirectory, blank).trace;
      DatabaseAfterAll(false, trace) == Some(false) && OpenCount(trace) == ShutdownCount(trace)
  {
    var start := Defaults(env.build, defaultDataDirectory, blank.feeAmount).(logFile := LogFileBeside(env.tools, programPath));
    var trace := MainRun(programPath, parsed, env, defaultDataDirectory, blank).trace;
    if Dispatch(parsed, env, start).Start? {
      StartupClosesDatabase(Dispatch(parsed, env, start).config, programPath, env);
    }
    OpensBalanceShutdowns(false, trace, false);
  }

  /**
   * `main` makes no call into a subsystem unless the configuration leads to
   * start-up: every exit before it (a failed parse, an informational option,
   * a rejected file, --dump-config, --save-config) leaves the trace empty.
   */
  lemma NoSubsystemBeforeStart(programPath: string, parsed: Option<ParseResult<Key>>, env: Environment,
                               defaultDataDirectory: string, blank: DaemonConfiguration)
    ensures var start := Defaults(env.build, defaultDataDirectory, blank.feeAmount).(logFile := LogFileBeside(env.tools, programPath));
      !Dispatch(parsed, env, start).Start? ==>
        MainRun(programPath, parsed, env, defaultDataDirectory, blank) == NodeRun(LaunchExitCode(Dispatch(parsed, env, start)), [])
  {
  }

  /** Start-up succeeds exactly when every step it depends on does. */
  lemma StartupSucceeds(config: DaemonConfiguration, programPath: string, env: Environment)
    ensures Startup(config, programPath, env).code == 0 <==>
      && env.currencyValid(config.enableBlockExplorer)
      && Checkpointing(config.checkPoints, env).ok
      && DirectoryPreparation(config.dataDirectory, env).ok
      && DatabaseOpening(env).ok
      && env.loadCore && env.initP2p
    ensures Startup(config, programPath, env).code in {0, 1}
  {
  }

  /**
   * Every run that starts configures logging first: one level above the
   * configured one, into the log file resolved against the program's path.
   */
  lemma LoggingFirst(config: DaemonConfiguration, programPath: string, env: Environment)
    ensures var trace := Startup(config, programPath, env).trace;
      |trace| > 0 && trace[0] == LogConfigured(LogError + config.logLevel, LogFilePath(env.tools, programPath, config.logFile))
    ensures var p := LogFilePath(env.tools, programPath, config.logFile);
      var given := env.tools.nativeToGeneric(config.logFile);
      && (given == "" ==> p == env.tools.replaceExtension(env.tools.nativeToGeneric(programPath), ".log"))
      && (given != "" && !env.tools.hasParentPath(given) ==>
            p == env.tools.combine(env.tools.directoryOf(env.tools.nativeToGeneric(programPath)), given))
      && (given != "" && env.tools.hasParentPath(given) ==> p == given)
  {
  }

  /**
   * The order of a run that reaches the P2P loop: logging, the checkpoints,
   * the directory, the database (rebuilt when its schema is outdated), the
   * core and the servers, the loop, then the servers stopped in turn, the core
   * saved, and last the database shut down by the guard.
   */
  lemma StartupOrder(config: DaemonConfiguration, programPath: string, env: Environment)
    requires Startup(config, programPath, env).code == 0
    ensures Startup(config, programPath, env).trace ==
      [LogConfigured(LogError + config.logLevel, LogFilePath(env.tools, programPath, config.logFile))]
      + Checkpointing(config.checkPoints, env).events
      + DirectoryPreparation(config.dataDirectory, env).events
      + (if env.schemeCurrent then [DatabaseInit(true)]
         else [DatabaseInit(true), DatabaseShutdown, DatabaseDestroy(true), DatabaseInit(true)])
      + [CoreLoad(true), EndpointSet, P2pInit(true)]
      + (if config.noConsole then [] else [ConsoleStarted])
      + [RpcStarted(config.rpcInterface, config.rpcPort), RpcFeeAddress(config.feeAddress),
         RpcFeeAmount(config.feeAmount), RpcCors(config.enableCors), SignalHandlerInstalled,
         P2pRun, ConsoleStopped, RpcStopped, P2pDeinit, EndpointCleared, CoreSaved, DatabaseShutdown]
  {
  }

  /**
   * A failure before the database is opened (the currency, the checkpoints,
   * the directory) ends `main` with status 1 without any database call.
   */
  lemma EarlyFailureSkipsDatabase(config: DaemonConfiguration, programPath: string, env: Environment)
    requires !env.currencyValid(config.enableBlockExplorer) || !Checkpointing(config.checkPoints, env).ok || !DirectoryPreparation(config.dataDirectory, env).ok
    ensures Startup(config, programPath, env).code == 1
    ensures forall e :: e in Startup(config, programPath, env).trace ==>
      !e.DatabaseInit? && !e.DatabaseShutdown? && !e.DatabaseDestroy?
  {
    CheckpointsOnlyCheckpoints(config.checkPoints, env);
  }

  /** The checkpoint step makes checkpoint calls only. */
  lemma CheckpointsOnlyCheckpoints(setting: string, env: Environment)
    ensures forall e :: e in Checkpointing(setting, env).events ==> e.CheckpointAdded? || e.CheckpointsFileLoaded?
  {
  }

  /** A failed P2P initialisation or core load still shuts the open database down, via the guard. */
  lemma ServingFailureShutsDown(config: DaemonConfiguration, programPath: string, env: Environment)
    requires env.currencyValid(config.enableBlockExplorer) && Checkpointing(config.checkPoints, env).ok
    requires DirectoryPreparation(config.dataDirectory, env).ok && DatabaseOpening(env).ok
    requires !env.loadCore || !env.initP2p
    ensures Startup(config, programPath, env).code == 1
    ensures var trace := Startup(config, programPath, env).trace;
      |trace| > 0 && trace[|trace| - 1] == DatabaseShutdown && P2pRun !in trace
  {
  }
}
