/**
 * The wallet service's configuration record
 * (src/WalletService/WalletServiceConfiguration.h): its defaults, the command
 * line overlay, the configuration file overlay and the JSON form written by
 * --dump-config and --save-config.
 */
module WalletConfig {
  import opened Wrappers
  import opened Sources

  // ---------------------------------------------------------------------------
  // Option names

  // The options of the wallet service's command line, in the groups its option
  // table declares them in (src/WalletService/ConfigurationManager.cpp).  A
  // setting's option name is also its key in the configuration file.
  datatype CoreOption = Help | Version
  datatype DaemonOption = DaemonAddress | DaemonPort
  datatype ServiceOption = ConfigFile | DumpConfig | LogFile | LogLevel | RegisterService | ServerRoot | UnregisterService | SaveConfig
  datatype WalletOption = Address | ContainerFile | ContainerPassword | GenerateContainer | ViewKey | SpendKey | MnemonicSeed | ScanHeight | SyncFromZero
  datatype NetworkOption = BindAddress | BindPort
  datatype RpcOption = EnableCors | RpcLegacySecurity | RpcPassword

  /** A name looked up in a parse result or a file. */
  datatype Key =
    | Core(core: CoreOption)
    | Daemon(daemon: DaemonOption)
    | Service(service: ServiceOption)
    | Wallet(wallet: WalletOption)
    | Network(network: NetworkOption)
    | Rpc(rpc: RpcOption)

  function CoreSpelling(o: CoreOption): string
  {
    match o
    case Help => "help"
    case Version => "version"
  }

  function DaemonSpelling(o: DaemonOption): string
  {
    match o
    case DaemonAddress => "daemon-address"
    case DaemonPort => "daemon-port"
  }

  function ServiceSpelling(o: ServiceOption): string
  {
    match o
    case ConfigFile => "config"
    case DumpConfig => "dump-config"
    case LogFile => "log-file"
    case LogLevel => "log-level"
    case RegisterService => "register-service"
    case ServerRoot => "server-root"
    case UnregisterService => "unregister-service"
    case SaveConfig => "save-config"
  }

  function WalletSpelling(o: WalletOption): string
  {
    match o
    case Address => "address"
    case ContainerFile => "container-file"
    case ContainerPassword => "container-password"
    case GenerateContainer => "generate-container"
    case ViewKey => "view-key"
    case SpendKey => "spend-key"
    case MnemonicSeed => "mnemonic-seed"
    case ScanHeight => "scan-height"
    case SyncFromZero => "SYNC_FROM_ZERO"
  }

  function NetworkSpelling(o: NetworkOption): string
  {
    match o
    case BindAddress => "bind-address"
    case BindPort => "bind-port"
  }

  function RpcSpelling(o: RpcOption): string
  {
    match o
    case EnableCors => "enable-cors"
    case RpcLegacySecurity => "rpc-legacy-security"
    case RpcPassword => "rpc-password"
  }

  /** The name as it is written on the command line and in the file. */
  function Spelling(k: Key): string
  {
    match k
    case Core(o) => CoreSpelling(o)
    case Daemon(o) => DaemonSpelling(o)
    case Service(o) => ServiceSpelling(o)
    case Wallet(o) => WalletSpelling(o)
    case Network(o) => NetworkSpelling(o)
    case Rpc(o) => RpcSpelling(o)
  }

  /**
   * The configuration settings: the keys both overlays read and `asJSON`
   * writes, with the type each is read as.
   */
  function Setting(k: Key): Option<Kind>
  {
    match k
    case Daemon(o) => DaemonSetting(o)
    case Service(o) => ServiceSetting(o)
    case Wallet(o) => WalletSetting(o)
    case Network(o) => NetworkSetting(o)
    case Rpc(o) => RpcSetting(o)
    case _ => None
  }

  /** The daemon options that are settings, with their types. */
  function DaemonSetting(o: DaemonOption): Option<Kind>
  {
    match o
    case DaemonAddress => Some(StrKind)
    case DaemonPort => Some(IntKind)
  }

  /** The service options that are settings, with their types. */
  function ServiceSetting(o: ServiceOption): Option<Kind>
  {
    match o
    case LogFile => Some(StrKind)
    case LogLevel => Some(IntKind)
    case ServerRoot => Some(StrKind)
    case _ => None
  }

  /** The wallet options that are settings, with their types. */
  function WalletSetting(o: WalletOption): Option<Kind>
  {
    match o
    case ContainerFile => Some(StrKind)
    case ContainerPassword => Some(StrKind)
    case _ => None
  }

  /** The network options that are settings, with their types. */
  function NetworkSetting(o: NetworkOption): Option<Kind>
  {
    match o
    case BindAddress => Some(StrKind)
    case BindPort => Some(IntKind)
  }

  /** The rpc options that are settings, with their types. */
  function RpcSetting(o: RpcOption): Option<Kind>
  {
    match o
    case EnableCors => Some(StrKind)
    case RpcLegacySecurity => Some(BoolKind)
    case RpcPassword => Some(StrKind)
  }

  /** The type each option is declared with. */
  function Declared(k: Key): Option<Kind>
  {
    match k
    case Core(Help) => Some(BoolKind)
    case Core(Version) => Some(BoolKind)
    case Service(ConfigFile) => Some(StrKind)
    case Service(DumpConfig) => Some(BoolKind)
    case Service(RegisterService) => Some(BoolKind)
    case Service(UnregisterService) => Some(BoolKind)
    case Service(SaveConfig) => Some(StrKind)
    case Wallet(Address) => Some(BoolKind)
    case Wallet(GenerateContainer) => Some(BoolKind)
    case Wallet(ViewKey) => Some(StrKind)
    case Wallet(SpendKey) => Some(StrKind)
    case Wallet(MnemonicSeed) => Some(StrKind)
    case Wallet(ScanHeight) => Some(IntKind)
    case Wallet(SyncFromZero) => Some(BoolKind)
    case _ => Setting(k)
  }

  // ---------------------------------------------------------------------------
  // The record

  datatype WalletServiceConfiguration = WalletServiceConfiguration(
    daemonAddress: string,
    bindAddress: string,
    rpcPassword: string,
    containerFile: string,
    containerPassword: string,
    serverRoot: string,
    corsHeader: string,
    logFile: string,
    daemonPort: int,
    bindPort: int,
    logLevel: int,
    legacySecurity: bool)

  /** The field a setting's key names, as a typed value; None for the other keys. */
  function Get(c: WalletServiceConfiguration, k: Key): Option<Value>
  {
    match k
    case Daemon(o) => DaemonGet(c, o)
    case Service(o) => ServiceGet(c, o)
    case Wallet(o) => WalletGet(c, o)
    case Network(o) => NetworkGet(c, o)
    case Rpc(o) => RpcGet(c, o)
    case _ => None
  }

  /** The field each daemon setting names. */
  function DaemonGet(c: WalletServiceConfiguration, o: DaemonOption): Option<Value>
  {
    match o
    case DaemonAddress => Some(Str(c.daemonAddress))
    case DaemonPort => Some(Int(c.daemonPort))
  }

  /** The field each service setting names. */
  function ServiceGet(c: WalletServiceConfiguration, o: ServiceOption): Option<Value>
  {
    match o
    case LogFile => Some(Str(c.logFile))
    case LogLevel => Some(Int(c.logLevel))
    case ServerRoot => Some(Str(c.serverRoot))
    case _ => None
  }

  /** The field each wallet setting names. */
  function WalletGet(c: WalletServiceConfiguration, o: WalletOption): Option<Value>
  {
    match o
    case ContainerFile => Some(Str(c.containerFile))
    case ContainerPassword => Some(Str(c.containerPassword))
    case _ => None
  }

  /** The field each network setting names. */
  function NetworkGet(c: WalletServiceConfiguration, o: NetworkOption): Option<Value>
  {
    match o
    case BindAddress => Some(Str(c.bindAddress))
    case BindPort => Some(Int(c.bindPort))
  }

  /** The field each rpc setting names. */
  function RpcGet(c: WalletServiceConfiguration, o: RpcOption): Option<Value>
  {
    match o
    case EnableCors => Some(Str(c.corsHeader))
    case RpcLegacySecurity => Some(Bool(c.legacySecurity))
    case RpcPassword => Some(Str(c.rpcPassword))
  }

  /** The keys `Get` reads are the settings, with the declared types. */
  lemma GetSetting(c: WalletServiceConfiguration, k: Key)
    ensures Get(c, k).Some? <==> Setting(k).Some?
    ensures Get(c, k).Some? ==> Setting(k) == Some(KindOf(Get(c, k).value)) == Declared(k)
  {
  }

  /** The integer fields are C++ `int`s: every value they can hold is in range. */
  predicate IntsInRange(c: WalletServiceConfiguration)
  {
    InIntRange(c.daemonPort) &&
    InIntRange(c.logLevel) &&
    InIntRange(c.bindPort)
  }

  // ---------------------------------------------------------------------------
  // Defaults

  /**
   * The record `initConfiguration()` returns: the strings it does not assign
   * stay empty, as the default constructed struct holds them.
   */
  function Defaults(build: BuildConstants): WalletServiceConfiguration
  {
    WalletServiceConfiguration(
      daemonAddress := "127.0.0.1",
      bindAddress := "127.0.0.1",
      rpcPassword := "",
      containerFile := "",
      containerPassword := "",
      serverRoot := "",
      corsHeader := "",
      logFile := "service.log",
      daemonPort := build.rpcDefaultPort,
      bindPort := build.serviceDefaultPort,
      logLevel := LogInfo,
      legacySecurity := false)
  }

  /**
   * `initConfiguration()`: default constructs the struct, which leaves its
   * strings empty, then assigns the defaults one by one.  The integers and
   * the boolean are indeterminate until assigned; every one of them is.
   */
  method InitConfiguration(build: BuildConstants, indeterminateInt: int, indeterminateFlag: bool)
    returns (config: WalletServiceConfiguration)
    ensures config == Defaults(build)
    ensures config.daemonAddress == "127.0.0.1" && config.bindAddress == "127.0.0.1"
    ensures config.logFile == "service.log" && !config.legacySecurity
    ensures config.rpcPassword == "" && config.containerFile == ""
  {
    config := WalletServiceConfiguration("", "", "", "", "", "", "", "",
      indeterminateInt, indeterminateInt, indeterminateInt, indeterminateFlag);
    config := config.(daemonAddress := "127.0.0.1");
    config := config.(bindAddress := "127.0.0.1");
    config := config.(logFile := "service.log");
    config := config.(daemonPort := build.rpcDefaultPort);
    config := config.(bindPort := build.serviceDefaultPort);
    config := config.(logLevel := LogInfo);
    config := config.(legacySecurity := false);
  }

  // ---------------------------------------------------------------------------
  // Command line overlay

  /**
   * What `handleSettings(cli, config)` makes of `config`: each setting whose
   * option was given takes the typed value, every other setting is kept.
   */
  function CliOverlay(cli: ParseResult<Key>, config: WalletServiceConfiguration): WalletServiceConfiguration
  {
    config.(
      daemonAddress := StringArg(cli, Daemon(DaemonAddress), config.daemonAddress),
      daemonPort := IntArg(cli, Daemon(DaemonPort), config.daemonPort),
      logFile := StringArg(cli, Service(LogFile), config.logFile),
      logLevel := IntArg(cli, Service(LogLevel), config.logLevel),
      containerFile := StringArg(cli, Wallet(ContainerFile), config.containerFile),
      containerPassword := StringArg(cli, Wallet(ContainerPassword), config.containerPassword),
      bindAddress := StringArg(cli, Network(BindAddress), config.bindAddress),
      bindPort := IntArg(cli, Network(BindPort), config.bindPort),
      corsHeader := StringArg(cli, Rpc(EnableCors), config.corsHeader),
      legacySecurity := BoolArg(cli, Rpc(RpcLegacySecurity), config.legacySecurity),
      rpcPassword := StringArg(cli, Rpc(RpcPassword), config.rpcPassword),
      serverRoot := StringArg(cli, Service(ServerRoot), config.serverRoot))
  }

  /**
   * `handleSettings(const cxxopts::ParseResult&, WalletServiceConfiguration&)`:
   * one guarded assignment per setting, in the order of the source.
   */
  method HandleCliSettings(cli: ParseResult<Key>, config: WalletServiceConfiguration)
    returns (updated: WalletServiceConfiguration)
    ensures updated == CliOverlay(cli, config)
  {
    var daemonAddress := OverrideString(cli, Daemon(DaemonAddress), config.daemonAddress);
    var daemonPort := OverrideInt(cli, Daemon(DaemonPort), config.daemonPort);
    var logFile := OverrideString(cli, Service(LogFile), config.logFile);
    var logLevel := OverrideInt(cli, Service(LogLevel), config.logLevel);
    var containerFile := OverrideString(cli, Wallet(ContainerFile), config.containerFile);
    var containerPassword := OverrideString(cli, Wallet(ContainerPassword), config.containerPassword);
    var bindAddress := OverrideString(cli, Network(BindAddress), config.bindAddress);
    var bindPort := OverrideInt(cli, Network(BindPort), config.bindPort);
    var corsHeader := OverrideString(cli, Rpc(EnableCors), config.corsHeader);
    var legacySecurity := OverrideBool(cli, Rpc(RpcLegacySecurity), config.legacySecurity);
    var rpcPassword := OverrideString(cli, Rpc(RpcPassword), config.rpcPassword);
    var serverRoot := OverrideString(cli, Service(ServerRoot), config.serverRoot);
    updated := WalletServiceConfiguration(
      daemonAddress,
      bindAddress,
      rpcPassword,
      containerFile,
      containerPassword,
      serverRoot,
      corsHeader,
      logFile,
      daemonPort,
      bindPort,
      logLevel,
      legacySecurity);
  }

  /**
   * The command line overlay overwrites a setting exactly when its option was
   * given, with the value typed; every other setting is left as it was.
   */
  lemma CliOverlayExact(cli: ParseResult<Key>, config: WalletServiceConfiguration, k: Key)
    requires k in cli ==> Setting(k) == Some(KindOf(cli[k].value))
    ensures Get(CliOverlay(cli, config), k) == if Given(cli, k) && Setting(k).Some? then Some(cli[k].value) else Get(config, k)
  {
  }

  /** With no option given on the command line the overlay changes nothing. */
  lemma CliOverlayNothingGiven(cli: ParseResult<Key>, config: WalletServiceConfiguration)
    requires forall k :: !Given(cli, k)
    ensures CliOverlay(cli, config) == config
  {
  }

  /** Applying the same command line twice is applying it once. */
  lemma CliOverlayIdempotent(cli: ParseResult<Key>, config: WalletServiceConfiguration)
    ensures CliOverlay(cli, CliOverlay(cli, config)) == CliOverlay(cli, config)
  {
  }

  // ---------------------------------------------------------------------------
  // Configuration file overlay

  /** No read of a daemon setting's key throws. */
  predicate DaemonReadable(m: imap<Key, Json>)
  {
    Readable(m, Daemon(DaemonAddress), StrKind) &&
    Readable(m, Daemon(DaemonPort), IntKind)
  }

  /** No read of a service setting's key throws. */
  predicate ServiceReadable(m: imap<Key, Json>)
  {
    Readable(m, Service(LogFile), StrKind) &&
    Readable(m, Service(LogLevel), IntKind) &&
    Readable(m, Service(ServerRoot), StrKind)
  }

  /** No read of a wallet setting's key throws. */
  predicate WalletReadable(m: imap<Key, Json>)
  {
    Readable(m, Wallet(ContainerFile), StrKind) &&
    Readable(m, Wallet(ContainerPassword), StrKind)
  }

  /** No read of a network setting's key throws. */
  predicate NetworkReadable(m: imap<Key, Json>)
  {
    Readable(m, Network(BindAddress), StrKind) &&
    Readable(m, Network(BindPort), IntKind)
  }

  /** No read of a rpc setting's key throws. */
  predicate RpcReadable(m: imap<Key, Json>)
  {
    Readable(m, Rpc(EnableCors), StrKind) &&
    Readable(m, Rpc(RpcLegacySecurity), BoolKind) &&
    Readable(m, Rpc(RpcPassword), StrKind)
  }

  /** No `get<T>()` of the file overlay throws on these members. */
  predicate SettingsReadable(m: imap<Key, Json>)
  {
    DaemonReadable(m) &&
    ServiceReadable(m) &&
    WalletReadable(m) &&
    NetworkReadable(m) &&
    RpcReadable(m)
  }

  /** The settings once every present key has been read. */
  function ApplyMembers(m: imap<Key, Json>, config: WalletServiceConfiguration): WalletServiceConfiguration
  {
    config.(
      daemonAddress := StringMember(m, Daemon(DaemonAddress), config.daemonAddress),
      daemonPort := IntMember(m, Daemon(DaemonPort), config.daemonPort),
      logFile := StringMember(m, Service(LogFile), config.logFile),
      logLevel := IntMember(m, Service(LogLevel), config.logLevel),
      containerFile := StringMember(m, Wallet(ContainerFile), config.containerFile),
      containerPassword := StringMember(m, Wallet(ContainerPassword), config.containerPassword),
      bindAddress := StringMember(m, Network(BindAddress), config.bindAddress),
      bindPort := IntMember(m, Network(BindPort), config.bindPort),
      corsHeader := StringMember(m, Rpc(EnableCors), config.corsHeader),
      legacySecurity := BoolMember(m, Rpc(RpcLegacySecurity), config.legacySecurity),
      rpcPassword := StringMember(m, Rpc(RpcPassword), config.rpcPassword),
      serverRoot := StringMember(m, Service(ServerRoot), config.serverRoot))
  }

  /**
   * What `handleSettings(configFile, config)` makes of `config`: a file that
   * cannot be opened or parsed, or a present key of the wrong type, throws;
   * otherwise each setting whose key is present takes the file's value.
   */
  function FileOverlay(file: ConfigFile<Key>, config: WalletServiceConfiguration): Result<WalletServiceConfiguration, FileError>
  {
    match file
    case Unreadable => Err(CannotOpen)
    case Unparsable => Err(ParseFailure)
    case Parsed(doc) =>
      if SettingsReadable(Members(doc)) then Ok(ApplyMembers(Members(doc), config)) else Err(WrongType)
  }

  /**
   * `handleSettings(const std::string, WalletServiceConfiguration&)`: open,
   * parse, then one guarded read per setting in the order of the source; the
   * first read that throws ends the overlay.
   */
  method HandleFileSettings(file: ConfigFile<Key>, config: WalletServiceConfiguration)
    returns (r: Result<WalletServiceConfiguration, FileError>)
    ensures r == FileOverlay(file, config)
  {
    if file.Unreadable? {
      return Err(CannotOpen);
    }
    if file.Unparsable? {
      return Err(ParseFailure);
    }
    var m := Members(file.doc);
    var daemonAddress := ReadString(m, Daemon(DaemonAddress), config.daemonAddress);
    if daemonAddress.Err? {
      return Err(daemonAddress.error);
    }
    var daemonPort := ReadInt(m, Daemon(DaemonPort), config.daemonPort);
    if daemonPort.Err? {
      return Err(daemonPort.error);
    }
    var logFile := ReadString(m, Service(LogFile), config.logFile);
    if logFile.Err? {
      return Err(logFile.error);
    }
    var logLevel := ReadInt(m, Service(LogLevel), config.logLevel);
    if logLevel.Err? {
      return Err(logLevel.error);
    }
    var containerFile := ReadString(m, Wallet(ContainerFile), config.containerFile);
    if containerFile.Err? {
      return Err(containerFile.error);
    }
    var containerPassword := ReadString(m, Wallet(ContainerPassword), config.containerPassword);
    if containerPassword.Err? {
      return Err(containerPassword.error);
    }
    var bindAddress := ReadString(m, Network(BindAddress), config.bindAddress);
    if bindAddress.Err? {
      return Err(bindAddress.error);
    }
    var bindPort := ReadInt(m, Network(BindPort), config.bindPort);
    if bindPort.Err? {
      return Err(bindPort.error);
    }
    var corsHeader := ReadString(m, Rpc(EnableCors), config.corsHeader);
    if corsHeader.Err? {
      return Err(corsHeader.error);
    }
    var legacySecurity := ReadBool(m, Rpc(RpcLegacySecurity), config.legacySecurity);
    if legacySecurity.Err? {
      return Err(legacySecurity.error);
    }
    var rpcPassword := ReadString(m, Rpc(RpcPassword), config.rpcPassword);
    if rpcPassword.Err? {
      return Err(rpcPassword.error);
    }
    var serverRoot := ReadString(m, Service(ServerRoot), config.serverRoot);
    if serverRoot.Err? {
      return Err(serverRoot.error);
    }
    r := Ok(WalletServiceConfiguration(
      daemonAddress.value,
      bindAddress.value,
      rpcPassword.value,
      containerFile.value,
      containerPassword.value,
      serverRoot.value,
      corsHeader.value,
      logFile.value,
      daemonPort.value,
      bindPort.value,
      logLevel.value,
      legacySecurity.value));
  }

  /** A file is rejected exactly when a setting's key holds a value of another type. */
  lemma SettingsReadableExact(m: imap<Key, Json>)
    ensures SettingsReadable(m) <==>
      forall k :: k in m && Setting(k).Some? ==> Convert(m[k], Setting(k).value).Some?
  {
    if SettingsReadable(m) {
      forall k | k in m && Setting(k).Some?
        ensures Convert(m[k], Setting(k).value).Some?
      {
        match k
        case Daemon(_) => SettingsReadableDaemonExact(m);
        case Service(_) => SettingsReadableServiceExact(m);
        case Wallet(_) => SettingsReadableWalletExact(m);
        case Network(_) => SettingsReadableNetworkExact(m);
        case Rpc(_) => SettingsReadableRpcExact(m);
        case _ =>
      }
    } else {
      SettingsReadableDaemonExact(m);
      SettingsReadableServiceExact(m);
      SettingsReadableWalletExact(m);
      SettingsReadableNetworkExact(m);
      SettingsReadableRpcExact(m);
    }
  }

  /** A file of the right shape overwrites a setting exactly when its key is present. */
  lemma FileOverlayExact(m: imap<Key, Json>, config: WalletServiceConfiguration, k: Key)
    requires SettingsReadable(m)
    ensures FileOverlay(Parsed(Object(m)), config) == Ok(ApplyMembers(m, config))
    ensures k in m && Setting(k).Some? ==> Get(ApplyMembers(m, config), k) == Convert(m[k], Setting(k).value)
    ensures !(k in m && Setting(k).Some?) ==> Get(ApplyMembers(m, config), k) == Get(config, k)
  {
    GetSetting(config, k);
    GetSetting(ApplyMembers(m, config), k);
    if Setting(k).Some? {
      match k
      case Daemon(o) => FileOverlayDaemonExact(m, config, o);
      case Service(o) => FileOverlayServiceExact(m, config, o);
      case Wallet(o) => FileOverlayWalletExact(m, config, o);
      case Network(o) => FileOverlayNetworkExact(m, config, o);
      case Rpc(o) => FileOverlayRpcExact(m, config, o);
      case _ =>
    }
  }

  /** The daemon reads succeed exactly when each present daemon setting has its type. */
  lemma SettingsReadableDaemonExact(m: imap<Key, Json>)
    ensures DaemonReadable(m) <==>
      forall o: DaemonOption :: DaemonSetting(o).Some? && Daemon(o) in m ==> Convert(m[Daemon(o)], DaemonSetting(o).value).Some?
  {
    if DaemonReadable(m) {
      forall o: DaemonOption | DaemonSetting(o).Some? && Daemon(o) in m
        ensures Convert(m[Daemon(o)], DaemonSetting(o).value).Some?
      {
        match o
        case DaemonAddress =>
        case DaemonPort =>
      }
    }
  }

  /** A daemon setting is overwritten exactly when its key is present. */
  lemma FileOverlayDaemonExact(m: imap<Key, Json>, config: WalletServiceConfiguration, o: DaemonOption)
    requires DaemonReadable(m) && DaemonSetting(o).Some?
    ensures Daemon(o) in m ==> DaemonGet(ApplyMembers(m, config), o) == Convert(m[Daemon(o)], DaemonSetting(o).value)
    ensures Daemon(o) !in m ==> DaemonGet(ApplyMembers(m, config), o) == DaemonGet(config, o)
  {
  }

  /** The service reads succeed exactly when each present service setting has its type. */
  lemma SettingsReadableServiceExact(m: imap<Key, Json>)
    ensures ServiceReadable(m) <==>
      forall o: ServiceOption :: ServiceSetting(o).Some? && Service(o) in m ==> Convert(m[Service(o)], ServiceSetting(o).value).Some?
  {
    if ServiceReadable(m) {
      forall o: ServiceOption | ServiceSetting(o).Some? && Service(o) in m
        ensures Convert(m[Service(o)], ServiceSetting(o).value).Some?
      {
        match o
        case ConfigFile =>
        case DumpConfig =>
        case LogFile =>
        case LogLevel =>
        case RegisterService =>
        case ServerRoot =>
        case UnregisterService =>
        case SaveConfig =>
      }
    }
  }

  /** A service setting is overwritten exactly when its key is present. */
  lemma FileOverlayServiceExact(m: imap<Key, Json>, config: WalletServiceConfiguration, o: ServiceOption)
    requires ServiceReadable(m) && ServiceSetting(o).Some?
    ensures Service(o) in m ==> ServiceGet(ApplyMembers(m, config), o) == Convert(m[Service(o)], ServiceSetting(o).value)
    ensures Service(o) !in m ==> ServiceGet(ApplyMembers(m, config), o) == ServiceGet(config, o)
  {
  }

  /** The wallet reads succeed exactly when each present wallet setting has its type. */
  lemma SettingsReadableWalletExact(m: imap<Key, Json>)
    ensures WalletReadable(m) <==>
      forall o: WalletOption :: WalletSetting(o).Some? && Wallet(o) in m ==> Convert(m[Wallet(o)], WalletSetting(o).value).Some?
  {
    if WalletReadable(m) {
      forall o: WalletOption | WalletSetting(o).Some? && Wallet(o) in m
        ensures Convert(m[Wallet(o)], WalletSetting(o).value).Some?
      {
        match o
        case Address =>
        case ContainerFile =>
        case ContainerPassword =>
        case GenerateContainer =>
        case ViewKey =>
        case SpendKey =>
        case MnemonicSeed =>
        case ScanHeight =>
        case SyncFromZero =>
      }
    }
  }

  /** A wallet setting is overwritten exactly when its key is present. */
  lemma FileOverlayWalletExact(m: imap<Key, Json>, config: WalletServiceConfiguration, o: WalletOption)
    requires WalletReadable(m) && WalletSetting(o).Some?
    ensures Wallet(o) in m ==> WalletGet(ApplyMembers(m, config), o) == Convert(m[Wallet(o)], WalletSetting(o).value)
    ensures Wallet(o) !in m ==> WalletGet(ApplyMembers(m, config), o) == WalletGet(config, o)
  {
  }

  /** The network reads succeed exactly when each present network setting has its type. */
  lemma SettingsReadableNetworkExact(m: imap<Key, Json>)
    ensures NetworkReadable(m) <==>
      forall o: NetworkOption :: NetworkSetting(o).Some? && Network(o) in m ==> Convert(m[Network(o)], NetworkSetting(o).value).Some?
  {
    if NetworkReadable(m) {
      forall o: NetworkOption | NetworkSetting(o).Some? && Network(o) in m
        ensures Convert(m[Network(o)], NetworkSetting(o).value).Some?
      {
        match o
        case BindAddress =>
        case BindPort =>
      }
    }
  }

  /** A network setting is overwritten exactly when its key is present. */
  lemma FileOverlayNetworkExact(m: imap<Key, Json>, config: WalletServiceConfiguration, o: NetworkOption)
    requires NetworkReadable(m) && NetworkSetting(o).Some?
    ensures Network(o) in m ==> NetworkGet(ApplyMembers(m, config), o) == Convert(m[Network(o)], NetworkSetting(o).value)
    ensures Network(o) !in m ==> NetworkGet(ApplyMembers(m, config), o) == NetworkGet(config, o)
  {
  }

  /** The rpc reads succeed exactly when each present rpc setting has its type. */
  lemma SettingsReadableRpcExact(m: imap<Key, Json>)
    ensures RpcReadable(m) <==>
      forall o: RpcOption :: RpcSetting(o).Some? && Rpc(o) in m ==> Convert(m[Rpc(o)], RpcSetting(o).value).Some?
  {
    if RpcReadable(m) {
      forall o: RpcOption | RpcSetting(o).Some? && Rpc(o) in m
        ensures Convert(m[Rpc(o)], RpcSetting(o).value).Some?
      {
        match o
        case EnableCors =>
        case RpcLegacySecurity =>
        case RpcPassword =>
      }
    }
  }

  /** A rpc setting is overwritten exactly when its key is present. */
  lemma FileOverlayRpcExact(m: imap<Key, Json>, config: WalletServiceConfiguration, o: RpcOption)
    requires RpcReadable(m) && RpcSetting(o).Some?
    ensures Rpc(o) in m ==> RpcGet(ApplyMembers(m, config), o) == Convert(m[Rpc(o)], RpcSetting(o).value)
    ensures Rpc(o) !in m ==> RpcGet(ApplyMembers(m, config), o) == RpcGet(config, o)
  {
  }

  /** Reading the same file twice is reading it once. */
  lemma FileOverlayIdempotent(file: ConfigFile<Key>, config: WalletServiceConfiguration)
    requires FileOverlay(file, config).Ok?
    ensures FileOverlay(file, FileOverlay(file, config).value) == FileOverlay(file, config)
  {
    ApplyMembersIdempotent(Members(file.doc), config);
  }

  /** Reading a member that has already been read changes nothing. */
  lemma ApplyMembersIdempotent(m: imap<Key, Json>, config: WalletServiceConfiguration)
    ensures ApplyMembers(m, ApplyMembers(m, config)) == ApplyMembers(m, config)
  {
  }

  // ---------------------------------------------------------------------------
  // JSON form

  /**
   * `asJSON(config)`: one member per setting, under the key the file overlay
   * reads, holding the field that key names (`Get` is the table of the source's
   * initializer list).
   */
  ghost function AsJson(c: WalletServiceConfiguration): imap<Key, Json>
  {
    imap k | Get(c, k).Some? :: Typed(Get(c, k).value)
  }

  /** `asJSON` writes exactly the settings, each under its own key. */
  lemma AsJsonMembers(c: WalletServiceConfiguration, k: Key)
    ensures k in AsJson(c) <==> Setting(k).Some?
    ensures k in AsJson(c) ==> AsJson(c)[k] == Typed(Get(c, k).value)
  {
  }

  /** The dump carries the RPC password in plain text, whatever it holds. */
  lemma AsJsonShowsPassword(c: WalletServiceConfiguration)
    ensures AsJson(c)[Rpc(RpcPassword)] == Typed(Str(c.rpcPassword))
  {
  }

  /** Every member `asJSON` writes has the type the file overlay reads it as. */
  lemma AsJsonReadable(c: WalletServiceConfiguration)
    ensures SettingsReadable(AsJson(c))
  {
    AsJsonDaemonReadable(c);
    AsJsonServiceReadable(c);
    AsJsonWalletReadable(c);
    AsJsonNetworkReadable(c);
    AsJsonRpcReadable(c);
  }

  /** The daemon members `asJSON` writes have the types they are read as. */
  lemma AsJsonDaemonReadable(c: WalletServiceConfiguration)
    ensures DaemonReadable(AsJson(c))
  {
  }

  /** The service members `asJSON` writes have the types they are read as. */
  lemma AsJsonServiceReadable(c: WalletServiceConfiguration)
    ensures ServiceReadable(AsJson(c))
  {
  }

  /** The wallet members `asJSON` writes have the types they are read as. */
  lemma AsJsonWalletReadable(c: WalletServiceConfiguration)
    ensures WalletReadable(AsJson(c))
  {
  }

  /** The network members `asJSON` writes have the types they are read as. */
  lemma AsJsonNetworkReadable(c: WalletServiceConfiguration)
    ensures NetworkReadable(AsJson(c))
  {
  }

  /** The rpc members `asJSON` writes have the types they are read as. */
  lemma AsJsonRpcReadable(c: WalletServiceConfiguration)
    ensures RpcReadable(AsJson(c))
  {
  }

  /** Reading the members `asJSON` wrote gives back every field. */
  lemma AsJsonApplied(c: WalletServiceConfiguration, into: WalletServiceConfiguration)
    requires IntsInRange(c)
    ensures ApplyMembers(AsJson(c), into) == c
  {
  }

  /** Reading back what `asJSON` wrote reproduces the configuration, whatever it is read into. */
  lemma RoundTrip(c: WalletServiceConfiguration, into: WalletServiceConfiguration)
    requires IntsInRange(c)
    ensures FileOverlay(Parsed(Object(AsJson(c))), into) == Ok(c)
  {
    AsJsonReadable(c);
    AsJsonApplied(c, into);
  }
}
