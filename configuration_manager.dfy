/**
 * The wallet service's start-up configuration
 * (src/WalletService/ConfigurationManager.cpp): the ConfigurationManager
 * object, its constructor, and `init`, which builds the service configuration
 * from the defaults, the configuration file and the command line, handles the
 * informational and configuration-writing options, checks the settings rule
 * by rule and derives the RPC secret from the password.
 */
module PaymentService {
  import opened Wrappers
  import opened Sources
  import opened WalletConfig

  /** A Crypto::Hash: 32 bytes. */
  type Hash = seq<bv8>

  /** `n` zero bytes. */
  function Zeros(n: nat): (r: seq<bv8>)
    ensures |r| == n && forall i :: 0 <= i < n ==> r[i] == 0
  {
    if n == 0 then [] else [0] + Zeros(n - 1)
  }

  /** `Crypto::Hash()`: all zero. */
  const NullHash: Hash := Zeros(32)

  /** What `init` consults outside the process, kept abstract. */
  datatype Environment = Environment(
    fileExists: string -> bool,                              // `std::ifstream(path)` opens
    readConfig: string -> ConfigFile<Key>,                   // open and parse the --config file
    saveConfig: (string, WalletServiceConfiguration) -> bool, // `asFile` completes without throwing
    slowHash: string -> Hash)                                 // `cn_slow_hash_v0` over the password's bytes

  /** The exceptions `init` throws once the configuration is assembled, in the order it checks them. */
  datatype InitError =
    | BothServiceActions          // --register-service together with --unregister-service
    | LogLevelOutOfRange          // log level above TRACE
    | NoContainerFile             // no wallet file named
    | ContainerMissingDidYouMean  // the file is missing but FILE.wallet exists
    | ContainerMissing            // the file is missing
    | GenerateContainerRequired   // keys or a seed without --generate-container
    | SeedAndKeys                 // a seed together with a key
    | ContainerFileRequired       // a service action without a wallet file
    | NoRpcCredential             // neither an RPC password nor legacy security

  /** How `init` ends: `exit(code)`, a thrown error, or `return true`. */
  datatype InitOutcome = Exit(code: int) | Failed(error: InitError) | Ready

  /** The members of a ConfigurationManager, as a value. */
  datatype ManagerState = ManagerState(
    generateNewContainer: bool,
    daemonize: bool,
    registerService: bool,
    unregisterService: bool,
    printAddresses: bool,
    secretViewKey: string,
    secretSpendKey: string,
    mnemonicSeed: string,
    rpcSecret: Hash,
    scanHeight: int,
    syncFromZero: bool,
    serviceConfig: WalletServiceConfiguration)

  /**
   * The state the constructor leaves: every member but `syncFromZero` and the
   * default constructed `serviceConfig` is assigned.
   */
  function Constructed(indeterminateSync: bool, blankConfig: WalletServiceConfiguration): ManagerState
  {
    ManagerState(false, false, false, false, false, "", "", "", NullHash, 0, indeterminateSync, blankConfig)
  }

  // ---------------------------------------------------------------------------
  // The steps of init, as functions

  /**
   * What parsing writes into the members bound with `cxxopts::value<T>(member)`:
   * the typed value when the option is given, otherwise its default ("false"
   * for a boolean, "0" for --scan-height); a string bound without a default
   * keeps what it held.  The service options are those of the Windows build.
   */
  function Bind(cli: ParseResult<Key>, s: ManagerState): ManagerState
  {
    s.(
      registerService := BoolArg(cli, Service(RegisterService), false),
      unregisterService := BoolArg(cli, Service(UnregisterService), false),
      printAddresses := BoolArg(cli, Wallet(Address), false),
      generateNewContainer := BoolArg(cli, Wallet(GenerateContainer), false),
      secretViewKey := StringArg(cli, Wallet(ViewKey), s.secretViewKey),
      secretSpendKey := StringArg(cli, Wallet(SpendKey), s.secretSpendKey),
      mnemonicSeed := StringArg(cli, Wallet(MnemonicSeed), s.mnemonicSeed),
      scanHeight := IntArg(cli, Wallet(ScanHeight), 0),
      syncFromZero := BoolArg(cli, Wallet(SyncFromZero), false))
  }

  // The local variables bound by the option table.
  function HelpWanted(cli: ParseResult<Key>): bool { BoolArg(cli, Core(Help), false) }
  function VersionWanted(cli: ParseResult<Key>): bool { BoolArg(cli, Core(Version), false) }
  function ConfigFileName(cli: ParseResult<Key>): string { StringArg(cli, Service(ConfigFile), "") }
  function DumpWanted(cli: ParseResult<Key>): bool { BoolArg(cli, Service(DumpConfig), false) }
  function OutputFile(cli: ParseResult<Key>): string { StringArg(cli, Service(SaveConfig), "") }

  /**
   * The configuration file named `configFile` (none when empty) read over
   * `start`, then the command line read over that.
   */
  function Merged(configFile: string, cli: ParseResult<Key>, readConfig: string -> ConfigFile<Key>,
                  start: WalletServiceConfiguration): Result<WalletServiceConfiguration, FileError>
  {
    if configFile == "" then Ok(CliOverlay(cli, start))
    else
      match FileOverlay(readConfig(configFile), start)
      case Err(e) => Err(e)
      case Ok(fromFile) => Ok(CliOverlay(cli, fromFile))
  }

  /** The rule checks, in the order `init` makes them; the first that fails is the error. */
  function Validation(s: ManagerState, fileExists: string -> bool): Option<InitError>
  {
    var c := s.serviceConfig;
    if s.registerService && s.unregisterService then Some(BothServiceActions)
    else if c.logLevel > LogTrace then Some(LogLevelOutOfRange)
    else if c.containerFile == "" then Some(NoContainerFile)
    else if !fileExists(c.containerFile) && !s.generateNewContainer then
      if fileExists(c.containerFile + ".wallet") then Some(ContainerMissingDidYouMean) else Some(ContainerMissing)
    else if (s.secretViewKey != "" || s.secretSpendKey != "") && !s.generateNewContainer then Some(GenerateContainerRequired)
    else if s.mnemonicSeed != "" && !s.generateNewContainer then Some(GenerateContainerRequired)
    else if s.mnemonicSeed != "" && (s.secretViewKey != "" || s.secretSpendKey != "") then Some(SeedAndKeys)
    else if (s.registerService || s.unregisterService) && c.containerFile == "" then Some(ContainerFileRequired)
    else None
  }

  /** The outcome together with the members it leaves. */
  datatype InitResult = InitResult(state: ManagerState, outcome: InitOutcome)

  /** The authentication step: a password is hashed into the secret and cleared. */
  function Authenticate(s: ManagerState, slowHash: string -> Hash): InitResult
  {
    var password := s.serviceConfig.rpcPassword;
    if password == "" && !s.serviceConfig.legacySecurity then InitResult(s, Failed(NoRpcCredential))
    else if password != "" then
      InitResult(s.(rpcSecret := slowHash(password), serviceConfig := s.serviceConfig.(rpcPassword := "")), Ready)
    else InitResult(s, Ready)
  }

  /** After the configuration is complete: the rules, then (unless generating) authentication. */
  function Check(s: ManagerState, env: Environment): InitResult
  {
    match Validation(s, env.fileExists)
    case Some(error) => InitResult(s, Failed(error))
    case None => if s.generateNewContainer then InitResult(s, Ready) else Authenticate(s, env.slowHash)
  }

  /** After the informational options: merge, then dump or save and exit, else check. */
  function Configure(cli: ParseResult<Key>, env: Environment, s: ManagerState): InitResult
  {
    match Merged(ConfigFileName(cli), cli, env.readConfig, s.serviceConfig)
    case Err(_) => InitResult(s, Exit(1))
    case Ok(config) =>
      var merged := s.(serviceConfig := config);
      if DumpWanted(cli) then InitResult(merged, Exit(0))
      else if OutputFile(cli) != "" then
        InitResult(merged, Exit(if env.saveConfig(OutputFile(cli), config) then 0 else 1))
      else Check(merged, env)
  }

  /** What `init` does to the members `s`, and how it ends, given the parse result (None: parsing threw). */
  function Run(parsed: Option<ParseResult<Key>>, env: Environment, build: BuildConstants, s: ManagerState): InitResult
  {
    var initial := s.(serviceConfig := Defaults(build));
    if parsed.None? then InitResult(initial, Exit(1))
    else
      var cli := parsed.value;
      var bound := Bind(cli, initial);
      if HelpWanted(cli) || VersionWanted(cli) then InitResult(bound, Exit(0))
      else Configure(cli, env, bound)
  }

  // ---------------------------------------------------------------------------
  // Properties of init

  /** The settings every configuration `init` accepts satisfies, stated independently of their order. */
  predicate RulesHold(s: ManagerState, fileExists: string -> bool)
  {
    var c := s.serviceConfig;
    var keys := s.secretViewKey != "" || s.secretSpendKey != "";
    && !(s.registerService && s.unregisterService)
    && c.logLevel <= LogTrace
    && c.containerFile != ""
    && (fileExists(c.containerFile) || s.generateNewContainer)
    && ((keys || s.mnemonicSeed != "") ==> s.generateNewContainer)
    && !(keys && s.mnemonicSeed != "")
  }

  /** The rule chain lets a configuration through exactly when every rule holds. */
  lemma ValidationExact(s: ManagerState, fileExists: string -> bool)
    ensures Validation(s, fileExists).None? <==> RulesHold(s, fileExists)
  {
  }

  /** Asking to both register and unregister the service is the first error reported. */
  lemma BothServiceActionsFirst(s: ManagerState, fileExists: string -> bool)
    requires s.registerService && s.unregisterService
    ensures Validation(s, fileExists) == Some(BothServiceActions)
  {
  }

  /**
   * Past the first rule, the log level is rejected exactly when it is above
   * TRACE: a negative level passes this rule.
   */
  lemma LogLevelRule(s: ManagerState, fileExists: string -> bool)
    requires !(s.registerService && s.unregisterService)
    ensures Validation(s, fileExists) == Some(LogLevelOutOfRange) <==> s.serviceConfig.logLevel > LogTrace
  {
  }

  /** No lower bound: lowering an accepted configuration's log level below FATAL keeps it accepted. */
  lemma NegativeLogLevelAccepted(s: ManagerState, fileExists: string -> bool, level: int)
    requires Validation(s, fileExists).None?
    requires level < LogFatal
    ensures Validation(s.(serviceConfig := s.serviceConfig.(logLevel := level)), fileExists).None?
  {
    ValidationExact(s, fileExists);
    ValidationExact(s.(serviceConfig := s.serviceConfig.(logLevel := level)), fileExists);
  }

  /**
   * The last rule, a service action without a container file, is never the
   * error: an empty container file has already been rejected.
   */
  lemma ContainerFileRuleUnreachable(s: ManagerState, fileExists: string -> bool)
    ensures Validation(s, fileExists) != Some(ContainerFileRequired)
  {
  }

  /** A view key, a spend key or a seed without --generate-container is an error. */
  lemma ImportNeedsGenerate(s: ManagerState, fileExists: string -> bool)
    requires s.secretViewKey != "" || s.secretSpendKey != "" || s.mnemonicSeed != ""
    requires !s.generateNewContainer
    ensures Validation(s, fileExists).Some?
  {
  }

  /** A seed together with a key is an error. */
  lemma SeedExcludesKeys(s: ManagerState, fileExists: string -> bool)
    requires s.mnemonicSeed != "" && (s.secretViewKey != "" || s.secretSpendKey != "")
    ensures Validation(s, fileExists).Some?
  {
  }

  /**
   * Authentication fails exactly without both a password and legacy security;
   * when it passes, the password is hashed into the secret, no plain-text
   * password is left, and nothing else changes.
   */
  lemma AuthenticateSecret(s: ManagerState, slowHash: string -> Hash)
    ensures Authenticate(s, slowHash).outcome.Failed? <==> s.serviceConfig.rpcPassword == "" && !s.serviceConfig.legacySecurity
    ensures Authenticate(s, slowHash).outcome.Failed? ==> Authenticate(s, slowHash) == InitResult(s, Failed(NoRpcCredential))
    ensures Authenticate(s, slowHash).outcome == Ready ==>
      var after := Authenticate(s, slowHash).state;
      && after.serviceConfig.rpcPassword == ""
      && after.rpcSecret == (if s.serviceConfig.rpcPassword != "" then slowHash(s.serviceConfig.rpcPassword) else s.rpcSecret)
      && after == s.(rpcSecret := after.rpcSecret, serviceConfig := s.serviceConfig.(rpcPassword := ""))
  {
  }

  /** Parsing that throws exits with status 1, with the defaults as the configuration. */
  lemma ParseFailureExits(env: Environment, build: BuildConstants, s: ManagerState)
    ensures Run(None, env, build, s) == InitResult(s.(serviceConfig := Defaults(build)), Exit(1))
  {
  }

  /**
   * --help and --version exit with status 0 before any configuration is
   * read: the service configuration is still the defaults.
   */
  lemma InfoActionsFirst(cli: ParseResult<Key>, env: Environment, build: BuildConstants, s: ManagerState)
    requires HelpWanted(cli) || VersionWanted(cli)
    ensures Run(Some(cli), env, build, s).outcome == Exit(0)
    ensures Run(Some(cli), env, build, s).state.serviceConfig == Defaults(build)
  {
  }

  /** A configuration file the overlay rejects ends `init` with status 1. */
  lemma FileErrorExits(cli: ParseResult<Key>, env: Environment, build: BuildConstants, s: ManagerState)
    requires !HelpWanted(cli) && !VersionWanted(cli)
    requires ConfigFileName(cli) != ""
    requires FileOverlay(env.readConfig(ConfigFileName(cli)), Defaults(build)).Err?
    ensures Run(Some(cli), env, build, s).outcome == Exit(1)
  {
  }

  /**
   * The file is read before the command line: a setting given on the command
   * line takes the command line's value, one the command line leaves out
   * takes the file's value (converted as `get<T>()` does) when the file has
   * it, and the default otherwise.
   */
  lemma CliWinsOverFile(configFile: string, cli: ParseResult<Key>, m: imap<Key, Json>,
                        start: WalletServiceConfiguration, k: Key)
    requires k in cli ==> Setting(k) == Some(KindOf(cli[k].value))
    requires Setting(k).Some?
    requires SettingsReadable(m)
    ensures Merged(configFile, cli, _ => Parsed(Object(m)), start).Ok?
    ensures Given(cli, k) ==> Get(Merged(configFile, cli, _ => Parsed(Object(m)), start).value, k) == Some(cli[k].value)
    ensures !Given(cli, k) && configFile != "" && k in m ==>
      Get(Merged(configFile, cli, _ => Parsed(Object(m)), start).value, k) == Convert(m[k], Setting(k).value)
    ensures !Given(cli, k) && !(configFile != "" && k in m) ==>
      Get(Merged(configFile, cli, _ => Parsed(Object(m)), start).value, k) == Get(start, k)
  {
    FileOverlayExact(m, start, k);
    if configFile == "" {
      CliOverlayExact(cli, start, k);
    } else {
      CliOverlayExact(cli, ApplyMembers(m, start), k);
    }
  }

  /**
   * --dump-config and --save-config end `init` with an exit before any rule is
   * checked, and --dump-config is handled first: it exits with status 0 even
   * when --save-config is given too.
   */
  lemma WritingOptionsExitBeforeRules(cli: ParseResult<Key>, env: Environment, build: BuildConstants, s: ManagerState)
    requires DumpWanted(cli) || OutputFile(cli) != ""
    ensures Run(Some(cli), env, build, s).outcome.Exit?
    ensures !HelpWanted(cli) && !VersionWanted(cli) && DumpWanted(cli)
            && Merged(ConfigFileName(cli), cli, env.readConfig, Defaults(build)).Ok?
            ==> Run(Some(cli), env, build, s).outcome == Exit(0)
  {
  }

  /** With --generate-container the authentication checks are skipped: the password stays and no secret is derived. */
  lemma GenerateSkipsAuthentication(s: ManagerState, env: Environment)
    requires Validation(s, env.fileExists).None? && s.generateNewContainer
    ensures Check(s, env) == InitResult(s, Ready)
  {
  }

  /**
   * When `init` returns true every rule holds of the final members, and
   * either a container is to be generated (the secret is the one held
   * before) or no plain-text password is left.
   */
  lemma ReadyMeansChecked(parsed: Option<ParseResult<Key>>, env: Environment, build: BuildConstants, s: ManagerState)
    requires Run(parsed, env, build, s).outcome == Ready
    ensures RulesHold(Run(parsed, env, build, s).state, env.fileExists)
    ensures var after := Run(parsed, env, build, s).state;
      if after.generateNewContainer then after.rpcSecret == s.rpcSecret
      else after.serviceConfig.rpcPassword == ""
  {
    var cli := parsed.value;
    var bound := Bind(cli, s.(serviceConfig := Defaults(build)));
    var merged := bound.(serviceConfig := Merged(ConfigFileName(cli), cli, env.readConfig, Defaults(build)).value);
    ValidationExact(merged, env.fileExists);
    AuthenticateSecret(merged, env.slowHash);
  }

  // ---------------------------------------------------------------------------
  // The object

  class ConfigurationManager {
    var generateNewContainer: bool
    var daemonize: bool
    var registerService: bool
    var unregisterService: bool
    var printAddresses: bool
    var secretViewKey: string
    var secretSpendKey: string
    var mnemonicSeed: string
    var rpcSecret: Hash
    var scanHeight: int
    var syncFromZero: bool
    var serviceConfig: WalletServiceConfiguration

    function State(): ManagerState
      reads this
    {
      ManagerState(generateNewContainer, daemonize, registerService, unregisterService, printAddresses,
        secretViewKey, secretSpendKey, mnemonicSeed, rpcSecret, scanHeight, syncFromZero, serviceConfig)
    }

    /**
     * `ConfigurationManager()`: `syncFromZero` is never assigned and
     * `serviceConfig` is default constructed; both are parameters here.
     */
    constructor(indeterminateSync: bool, blankConfig: WalletServiceConfiguration)
      ensures State() == Constructed(indeterminateSync, blankConfig)
    {
      generateNewContainer := false;
      daemonize := false;
      registerService := false;
      unregisterService := false;
      printAddresses := false;
      secretViewKey := "";
      secretSpendKey := "";
      mnemonicSeed := "";
      rpcSecret := NullHash;
      scanHeight := 0;
      syncFromZero := indeterminateSync;
      serviceConfig := blankConfig;
    }

    /** The rule checks of `init`, one `throw` each, in the order of the source. */
    method Validate(fileExists: string -> bool) returns (failure: Option<InitError>)
      ensures failure == Validation(State(), fileExists)
    {
      if registerService && unregisterService {
        return Some(BothServiceActions);
      }
      if serviceConfig.logLevel > LogTrace {
        return Some(LogLevelOutOfRange);
      }
      if serviceConfig.containerFile == "" {
        return Some(NoContainerFile);
      }
      if !fileExists(serviceConfig.containerFile) && !generateNewContainer {
        if fileExists(serviceConfig.containerFile + ".wallet") {
          return Some(ContainerMissingDidYouMean);
        } else {
          return Some(ContainerMissing);
        }
      }
      if (secretViewKey != "" || secretSpendKey != "") && !generateNewContainer {
        return Some(GenerateContainerRequired);
      }
      if mnemonicSeed != "" && !generateNewContainer {
        return Some(GenerateContainerRequired);
      }
      if mnemonicSeed != "" && (secretViewKey != "" || secretSpendKey != "") {
        return Some(SeedAndKeys);
      }
      if (registerService || unregisterService) && serviceConfig.containerFile == "" {
        return Some(ContainerFileRequired);
      }
      return None;
    }

    /** Parsing writes the members bound in the option table. */
    method BindMembers(cli: ParseResult<Key>)
      modifies this
      ensures State() == Bind(cli, old(State()))
    {
      BindServiceActions(cli);
      BindWalletFlags(cli);
      BindImportSecrets(cli);
      BindScanStart(cli);
    }

    /** `--register-service` and `--unregister-service`. */
    method BindServiceActions(cli: ParseResult<Key>)
      modifies this
      ensures State() == old(State()).(
        registerService := BoolArg(cli, Service(RegisterService), false),
        unregisterService := BoolArg(cli, Service(UnregisterService), false))
    {
      registerService := OverrideBool(cli, Service(RegisterService), false);
      unregisterService := OverrideBool(cli, Service(UnregisterService), false);
    }

    /** `--address` and `--generate-container`. */
    method BindWalletFlags(cli: ParseResult<Key>)
      modifies this
      ensures State() == old(State()).(
        printAddresses := BoolArg(cli, Wallet(Address), false),
        generateNewContainer := BoolArg(cli, Wallet(GenerateContainer), false))
    {
      printAddresses := OverrideBool(cli, Wallet(Address), false);
      generateNewContainer := OverrideBool(cli, Wallet(GenerateContainer), false);
    }

    /** `--view-key`, `--spend-key` and `--mnemonic-seed`. */
    method BindImportSecrets(cli: ParseResult<Key>)
      modifies this
      ensures State() == old(State()).(
        secretViewKey := StringArg(cli, Wallet(ViewKey), old(secretViewKey)),
        secretSpendKey := StringArg(cli, Wallet(SpendKey), old(secretSpendKey)),
        mnemonicSeed := StringArg(cli, Wallet(MnemonicSeed), old(mnemonicSeed)))
    {
      secretViewKey := OverrideString(cli, Wallet(ViewKey), secretViewKey);
      secretSpendKey := OverrideString(cli, Wallet(SpendKey), secretSpendKey);
      mnemonicSeed := OverrideString(cli, Wallet(MnemonicSeed), mnemonicSeed);
    }

    /** `--scan-height` and `--SYNC_FROM_ZERO`. */
    method BindScanStart(cli: ParseResult<Key>)
      modifies this
      ensures State() == old(State()).(
        scanHeight := IntArg(cli, Wallet(ScanHeight), 0),
        syncFromZero := BoolArg(cli, Wallet(SyncFromZero), false))
    {
      scanHeight := OverrideInt(cli, Wallet(ScanHeight), 0);
      syncFromZero := OverrideBool(cli, Wallet(SyncFromZero), false);
    }

    /**
     * The configuration file, when one is named, then the command line, read
     * into `serviceConfig`; `loaded` is false when the file overlay threw.
     */
    method LoadSettings(configFile: string, cli: ParseResult<Key>, readConfig: string -> ConfigFile<Key>)
      returns (loaded: bool)
      modifies this
      ensures loaded == Merged(configFile, cli, readConfig, old(serviceConfig)).Ok?
      ensures State() == if loaded then old(State()).(serviceConfig := Merged(configFile, cli, readConfig, old(serviceConfig)).value)
                         else old(State())
    {
      var config := serviceConfig;
      if configFile != "" {
        var fromFile := HandleFileSettings(readConfig(configFile), config);
        if fromFile.Err? {
          return false;
        }
        config := fromFile.value;
      }
      config := HandleCliSettings(cli, config);
      serviceConfig := config;
      return true;
    }

    /** The rule checks, then, unless a container is to be generated, the authentication checks. */
    method Finish(env: Environment) returns (outcome: InitOutcome)
      modifies this
      ensures InitResult(State(), outcome) == Check(old(State()), env)
    {
      var failure := Validate(env.fileExists);
      if failure.Some? {
        return Failed(failure.value);
      }

      if generateNewContainer {
        return Ready;
      }

      if serviceConfig.rpcPassword == "" && !serviceConfig.legacySecurity {
        return Failed(NoRpcCredential);
      }
      if serviceConfig.rpcPassword != "" {
        rpcSecret := env.slowHash(serviceConfig.rpcPassword);
        serviceConfig := serviceConfig.(rpcPassword := "");
      }
      return Ready;
    }

    /**
     * `init(argc, argv)`, with the parse result of `argv` (None when parsing
     * threw) and the environment given.  Printing is left out.
     */
    method Init(parsed: Option<ParseResult<Key>>, env: Environment, build: BuildConstants)
      returns (outcome: InitOutcome)
      modifies this
      ensures InitResult(State(), outcome) == Run(parsed, env, build, old(State()))
    {
      serviceConfig := InitConfiguration(build, 0, false);
      if parsed.None? {
        return Exit(1);
      }
      var cli := parsed.value;
      var help := OverrideBool(cli, Core(Help), false);
      var version := OverrideBool(cli, Core(Version), false);
      var configFile := OverrideString(cli, Service(ConfigFile), "");
      var dumpConfig := OverrideBool(cli, Service(DumpConfig), false);
      var outputFile := OverrideString(cli, Service(SaveConfig), "");
      BindMembers(cli);

      if help {
        return Exit(0);
      } else if version {
        return Exit(0);
      }

      var loaded := LoadSettings(configFile, cli, env.readConfig);
      if !loaded {
        return Exit(1);
      }

      if dumpConfig {
        return Exit(0);
      } else if outputFile != "" {
        if env.saveConfig(outputFile, serviceConfig) {
          return Exit(0);
        } else {
          return Exit(1);
        }
      }

      outcome := Finish(env);
    }
  }
}
