/**
 * The daemon's configuration record (src/Daemon/DaemonConfiguration.h): its
 * defaults, the command line overlay, the configuration file overlay and the
 * JSON form written by --dump-config and --save-config.
 */
module DaemonConfig {
  import opened Wrappers
  import opened Sources

  // ---------------------------------------------------------------------------
  // Option names

  // The options of the daemon's command line, in the groups its option table
  // declares them in (src/Daemon/Daemon.cpp).  A setting's option name is also
  // its key in the configuration file.
  datatype CoreOption = Help | OsVersion | Version
  datatype GenesisOption = GenesisBlockRewardAddress | PrintGenesisTx
  datatype DaemonOption = ConfigFile | DumpConfig | SaveConfig | DataDir | LoadCheckpoints | LogFile | LogLevel | NoConsole
  datatype RpcOption = EnableBlockExplorer | EnableCors | FeeAddress | FeeAmount
  datatype NetworkOption = AllowLocalIp | HideMyPort | P2pBindIp | P2pBindPort | P2pExternalPort | RpcBindIp | RpcBindPort
  datatype PeerOption = AddExclusiveNode | AddPeer | AddPriorityNode | SeedNode
  datatype DatabaseOption = DbMaxOpenFiles | DbReadBufferSize | DbThreads | DbWriteBufferSize

  /**
   * A name looked up in a parse result or a file: a declared option, or
   * "local-ip", which the command line overlay asks for although no option of
   * that name is declared.
   */
  datatype Key =
    | Core(core: CoreOption)
    | Genesis(genesis: GenesisOption)
    | Daemon(daemon: DaemonOption)
    | Rpc(rpc: RpcOption)
    | Network(network: NetworkOption)
    | Peer(peer: PeerOption)
    | Database(database: DatabaseOption)
    | LocalIp

  function CoreSpelling(o: CoreOption): string
  {
    match o
    case Help => "help"
    case OsVersion => "os-version"
    case Version => "version"
  }

  function GenesisSpelling(o: GenesisOption): string
  {
    match o
    case GenesisBlockRewardAddress => "genesis-block-reward-address"
    case PrintGenesisTx => "print-genesis-tx"
  }

  function DaemonSpelling(o: DaemonOption): string
  {
    match o
    case ConfigFile => "config-file"
    case DumpConfig => "dump-config"
    case SaveConfig => "save-config"
    case DataDir => "data-dir"
    case LoadCheckpoints => "load-checkpoints"
    case LogFile => "log-file"
    case LogLevel => "log-level"
    case NoConsole => "no-console"
  }

  function RpcSpelling(o: RpcOption): string
  {
    match o
    case EnableBlockExplorer => "enable-blockexplorer"
    case EnableCors => "enable-cors"
    case FeeAddress => "fee-address"
    case FeeAmount => "fee-amount"
  }

  function NetworkSpelling(o: NetworkOption): string
  {
    match o
    case AllowLocalIp => "allow-local-ip"
    case HideMyPort => "hide-my-port"
    case P2pBindIp => "p2p-bind-ip"
    case P2pBindPort => "p2p-bind-port"
    case P2pExternalPort => "p2p-external-port"
    case RpcBindIp => "rpc-bind-ip"
    case RpcBindPort => "rpc-bind-port"
  }

  function PeerSpelling(o: PeerOption): string
  {
    match o
    case AddExclusiveNode => "add-exclusive-node"
    case AddPeer => "add-peer"
    case AddPriorityNode => "add-priority-node"
    case SeedNode => "seed-node"
  }

  function DatabaseSpelling(o: DatabaseOption): string
  {
    match o
    case DbMaxOpenFiles => "db-max-open-files"
    case DbReadBufferSize => "db-read-buffer-size"
    case DbThreads => "db-threads"
    case DbWriteBufferSize => "db-write-buffer-size"
  }
  /** The name as it is written on the command line and in the file. */
  function Spelling(k: Key): string
  {
    match k
    case Core(o) => CoreSpelling(o)
    case Genesis(o) => GenesisSpelling(o)
    case Daemon(o) => DaemonSpelling(o)
    case Rpc(o) => RpcSpelling(o)
    case Network(o) => NetworkSpelling(o)
    case Peer(o) => PeerSpelling(o)
    case Database(o) => DatabaseSpelling(o)
    case LocalIp => "local-ip"
  }

  /**
   * The configuration settings: the keys both overlays read and `asJSON`
   * writes, with the type each is read as.
   */
  function Setting(k: Key): Option<Kind>
  {
    match k
    case Daemon(o) => DaemonSetting(o)
    case Database(o) => DatabaseSetting(o)
    case Network(o) => NetworkSetting(o)
    case Peer(o) => PeerSetting(o)
    case Rpc(o) => RpcSetting(o)
    case _ => None
  }

  /** The daemon options that are settings, with their types. */
  function DaemonSetting(o: DaemonOption): Option<Kind>
  {
    match o
    case DataDir => Some(StrKind)
    case LoadCheckpoints => Some(StrKind)
    case LogFile => Some(StrKind)
    case LogLevel => Some(IntKind)
    case NoConsole => Some(BoolKind)
    case _ => None
  }

  /** The database options that are settings, with their types. */
  function DatabaseSetting(o: DatabaseOption): Option<Kind>
  {
    match o
    case DbMaxOpenFiles => Some(IntKind)
    case DbReadBufferSize => Some(IntKind)
    case DbThreads => Some(IntKind)
    case DbWriteBufferSize => Some(IntKind)
  }

  /** The network options that are settings, with their types. */
  function NetworkSetting(o: NetworkOption): Option<Kind>
  {
    match o
    case AllowLocalIp => Some(BoolKind)
    case HideMyPort => Some(BoolKind)
    case P2pBindIp => Some(StrKind)
    case P2pBindPort => Some(IntKind)
    case P2pExternalPort => Some(IntKind)
    case RpcBindIp => Some(StrKind)
    case RpcBindPort => Some(IntKind)
  }

  /** The peer options that are settings, with their types. */
  function PeerSetting(o: PeerOption): Option<Kind>
  {
    match o
    case AddExclusiveNode => Some(StringsKind)
    case AddPeer => Some(StringsKind)
    case AddPriorityNode => Some(StringsKind)
    case SeedNode => Some(StringsKind)
  }

  /** The rpc options that are settings, with their types. */
  function RpcSetting(o: RpcOption): Option<Kind>
  {
    match o
    case EnableBlockExplorer => Some(BoolKind)
    case EnableCors => Some(StringsKind)
    case FeeAddress => Some(StrKind)
    case FeeAmount => Some(IntKind)
  }
  /** The type each option is declared with; "local-ip" is not declared. */
  function Declared(k: Key): Option<Kind>
  {
    match k
    case Core(Help) => Some(BoolKind)
    case Core(OsVersion) => Some(BoolKind)
    case Core(Version) => Some(BoolKind)
    case Genesis(GenesisBlockRewardAddress) => Some(StringsKind)
    case Genesis(PrintGenesisTx) => Some(BoolKind)
    case Daemon(ConfigFile) => Some(StrKind)
    case Daemon(DumpConfig) => Some(BoolKind)
    case Daemon(SaveConfig) => Some(StrKind)
    case LocalIp => None
    case _ => Setting(k)
  }

  /**
   * "local-ip" is the spelling of no declared option: the declared option for
   * `localIp` is spelt "allow-local-ip".
   */
  lemma LocalIpUndeclared(k: Key)
    ensures Declared(k).Some? ==> Spelling(k) != Spelling(LocalIp)
    ensures Spelling(Network(AllowLocalIp)) == "allow-local-ip" && Declared(Network(AllowLocalIp)) == Some(BoolKind)
    ensures Declared(LocalIp).None?
  {
  }

  /** No two declared options share a name, so each name reads one option. */
  lemma DeclaredSpellingsDistinct(k1: Key, k2: Key)
    requires Declared(k1).Some? && Declared(k2).Some? && k1 != k2
    ensures Spelling(k1) != Spelling(k2)
  {
  }

  // ---------------------------------------------------------------------------
  // The record

  datatype DaemonConfiguration = DaemonConfiguration(
    dataDirectory: string,
    logFile: string,
    feeAddress: string,
    rpcInterface: string,
    p2pInterface: string,
    checkPoints: string,
    peers: seq<string>,
    priorityNodes: seq<string>,
    exclusiveNodes: seq<string>,
    seedNodes: seq<string>,
    enableCors: seq<string>,
    logLevel: int,
    feeAmount: int,
    rpcPort: int,
    p2pPort: int,
    p2pExternalPort: int,
    dbThreads: int,
    dbMaxOpenFiles: int,
    dbWriteBufferSize: int,
    dbReadCacheSize: int,
    noConsole: bool,
    enableBlockExplorer: bool,
    localIp: bool,
    hideMyPort: bool)

  /** The field a setting's key names, as a typed value; None for the other keys. */
  function Get(c: DaemonConfiguration, k: Key): Option<Value>
  {
    match k
    case Daemon(o) => DaemonGet(c, o)
    case Database(o) => DatabaseGet(c, o)
    case Network(o) => NetworkGet(c, o)
    case Peer(o) => PeerGet(c, o)
    case Rpc(o) => RpcGet(c, o)
    case _ => None
  }

  /** The field each daemon setting names. */
  function DaemonGet(c: DaemonConfiguration, o: DaemonOption): Option<Value>
  {
    match o
    case DataDir => Some(Str(c.dataDirectory))
    case LoadCheckpoints => Some(Str(c.checkPoints))
    case LogFile => Some(Str(c.logFile))
    case LogLevel => Some(Int(c.logLevel))
    case NoConsole => Some(Bool(c.noConsole))
    case _ => None
  }

  /** The field each database setting names. */
  function DatabaseGet(c: DaemonConfiguration, o: DatabaseOption): Option<Value>
  {
    match o
    case DbMaxOpenFiles => Some(Int(c.dbMaxOpenFiles))
    case DbReadBufferSize => Some(Int(c.dbReadCacheSize))
    case DbThreads => Some(Int(c.dbThreads))
    case DbWriteBufferSize => Some(Int(c.dbWriteBufferSize))
  }

  /** The field each network setting names. */
  function NetworkGet(c: DaemonConfiguration, o: NetworkOption): Option<Value>
  {
    match o
    case AllowLocalIp => Some(Bool(c.localIp))
    case HideMyPort => Some(Bool(c.hideMyPort))
    case P2pBindIp => Some(Str(c.p2pInterface))
    case P2pBindPort => Some(Int(c.p2pPort))
    case P2pExternalPort => Some(Int(c.p2pExternalPort))
    case RpcBindIp => Some(Str(c.rpcInterface))
    case RpcBindPort => Some(Int(c.rpcPort))
  }

  /** The field each peer setting names. */
  function PeerGet(c: DaemonConfiguration, o: PeerOption): Option<Value>
  {
    match o
    case AddExclusiveNode => Some(Strings(c.exclusiveNodes))
    case AddPeer => Some(Strings(c.peers))
    case AddPriorityNode => Some(Strings(c.priorityNodes))
    case SeedNode => Some(Strings(c.seedNodes))
  }

  /** The field each rpc setting names. */
  function RpcGet(c: DaemonConfiguration, o: RpcOption): Option<Value>
  {
    match o
    case EnableBlockExplorer => Some(Bool(c.enableBlockExplorer))
    case EnableCors => Some(Strings(c.enableCors))
    case FeeAddress => Some(Str(c.feeAddress))
    case FeeAmount => Some(Int(c.feeAmount))
  }
  /** The keys `Get` reads are the settings, with the declared types. */
  lemma GetSetting(c: DaemonConfiguration, k: Key)
    ensures Get(c, k).Some? <==> Setting(k).Some?
    ensures Get(c, k).Some? ==> Setting(k) == Some(KindOf(Get(c, k).value)) == Declared(k)
  {
  }

  /** The integer fields are C++ `int`s: every value they can hold is in range. */
  predicate IntsInRange(c: DaemonConfiguration)
  {
    InIntRange(c.logLevel) &&
    InIntRange(c.dbMaxOpenFiles) &&
    InIntRange(c.dbReadCacheSize) &&
    InIntRange(c.dbThreads) &&
    InIntRange(c.dbWriteBufferSize) &&
    InIntRange(c.p2pPort) &&
    InIntRange(c.p2pExternalPort) &&
    InIntRange(c.rpcPort) &&
    InIntRange(c.feeAmount)
  }

  // ---------------------------------------------------------------------------
  // Defaults

  /**
   * The record `initConfiguration()` returns.  The struct is default
   * constructed, which leaves its strings and lists empty and its integers and
   * booleans indeterminate; every field but `feeAmount` is then assigned, so
   * `feeAmount` stays indeterminate and is a parameter here.
   */
  function Defaults(build: BuildConstants, defaultDataDirectory: string, unspecifiedFee: int): DaemonConfiguration
  {
    DaemonConfiguration(
      dataDirectory := defaultDataDirectory,
      logFile := build.cryptonoteName + "d.log",
      feeAddress := "",
      rpcInterface := "127.0.0.1",
      p2pInterface := "0.0.0.0",
      checkPoints := "default",
      peers := [],
      priorityNodes := [],
      exclusiveNodes := [],
      seedNodes := [],
      enableCors := [],
      logLevel := LogWarning,
      feeAmount := unspecifiedFee,
      rpcPort := build.rpcDefaultPort,
      p2pPort := build.p2pDefaultPort,
      p2pExternalPort := 0,
      dbThreads := build.dbDefaultBackgroundThreads,
      dbMaxOpenFiles := build.dbDefaultMaxOpenFiles,
      dbWriteBufferSize := build.dbWriteBufferMbDefault,
      dbReadCacheSize := build.dbReadBufferMbDefault,
      noConsole := false,
      enableBlockExplorer := false,
      localIp := false,
      hideMyPort := false)
  }

  /** What a default constructed struct holds: empty strings and lists; the rest is indeterminate. */
  predicate DefaultConstructed(blank: DaemonConfiguration)
  {
    blank.dataDirectory == blank.logFile == blank.feeAddress == "" &&
    blank.rpcInterface == blank.p2pInterface == blank.checkPoints == "" &&
    blank.peers == blank.priorityNodes == blank.exclusiveNodes == blank.seedNodes == blank.enableCors == []
  }

  /**
   * `initConfiguration()`: starts from the default constructed struct
   * (`blank`) and assigns the defaults one by one.
   */
  method InitConfiguration(build: BuildConstants, defaultDataDirectory: string, blank: DaemonConfiguration)
    returns (config: DaemonConfiguration)
    requires DefaultConstructed(blank)
    ensures config == Defaults(build, defaultDataDirectory, blank.feeAmount)
    ensures config.checkPoints == "default" && config.p2pInterface == "0.0.0.0" && config.rpcInterface == "127.0.0.1"
    ensures config.p2pExternalPort == 0 && config.logLevel == LogWarning
    ensures !config.noConsole && !config.enableBlockExplorer && !config.localIp && !config.hideMyPort
    ensures config.feeAmount == blank.feeAmount
  {
    config := blank;
    config := config.(dataDirectory := defaultDataDirectory);
    config := config.(checkPoints := "default");
    config := config.(logFile := build.cryptonoteName + "d.log");
    config := config.(logLevel := LogWarning);
    config := config.(dbMaxOpenFiles := build.dbDefaultMaxOpenFiles);
    config := config.(dbReadCacheSize := build.dbReadBufferMbDefault);
    config := config.(dbThreads := build.dbDefaultBackgroundThreads);
    config := config.(dbWriteBufferSize := build.dbWriteBufferMbDefault);
    config := config.(p2pInterface := "0.0.0.0");
    config := config.(p2pPort := build.p2pDefaultPort);
    config := config.(p2pExternalPort := 0);
    config := config.(rpcInterface := "127.0.0.1");
    config := config.(rpcPort := build.rpcDefaultPort);
    config := config.(noConsole := false);
    config := config.(enableBlockExplorer := false);
    config := config.(localIp := false);
    config := config.(hideMyPort := false);
  }

  /** The log file `initConfiguration(path)` derives from the program path. */
  function LogFileBeside(tools: PathTools, path: string): string
  {
    tools.replaceExtension(tools.nativeToGeneric(path), ".log")
  }

  /** `initConfiguration(path)`: the defaults, with the log file named after the program. */
  method InitConfigurationAt(build: BuildConstants, defaultDataDirectory: string, blank: DaemonConfiguration,
                             tools: PathTools, path: string)
    returns (config: DaemonConfiguration)
    requires DefaultConstructed(blank)
    ensures config == Defaults(build, defaultDataDirectory, blank.feeAmount).(logFile := LogFileBeside(tools, path))
    ensures config.(logFile := build.cryptonoteName + "d.log") == Defaults(build, defaultDataDirectory, blank.feeAmount)
  {
    config := InitConfiguration(build, defaultDataDirectory, blank);
    config := config.(logFile := tools.replaceExtension(tools.nativeToGeneric(path), ".log"));
  }

  /** `feeAmount` is the one field the indeterminate part of the struct reaches. */
  lemma FeeAmountUnspecified(build: BuildConstants, defaultDataDirectory: string, x: int, y: int)
    ensures Defaults(build, defaultDataDirectory, x).feeAmount == x
    ensures Defaults(build, defaultDataDirectory, x).(feeAmount := y) == Defaults(build, defaultDataDirectory, y)
  {
  }

  // ---------------------------------------------------------------------------
  // Command line overlay

  /**
   * What `handleSettings(cli, config)` makes of `config`: each setting whose
   * option was given takes the typed value, every other setting is kept.  This
   * is the overlay as intended, reading the declared "allow-local-ip" option;
   * `CliOverlayAsWritten` is the code as written.
   */
  function CliOverlay(cli: ParseResult<Key>, config: DaemonConfiguration): DaemonConfiguration
  {
    config.(
      dataDirectory := StringArg(cli, Daemon(DataDir), config.dataDirectory),
      checkPoints := StringArg(cli, Daemon(LoadCheckpoints), config.checkPoints),
      logFile := StringArg(cli, Daemon(LogFile), config.logFile),
      logLevel := IntArg(cli, Daemon(LogLevel), config.logLevel),
      noConsole := BoolArg(cli, Daemon(NoConsole), config.noConsole),
      dbMaxOpenFiles := IntArg(cli, Database(DbMaxOpenFiles), config.dbMaxOpenFiles),
      dbReadCacheSize := IntArg(cli, Database(DbReadBufferSize), config.dbReadCacheSize),
      dbThreads := IntArg(cli, Database(DbThreads), config.dbThreads),
      dbWriteBufferSize := IntArg(cli, Database(DbWriteBufferSize), config.dbWriteBufferSize),
      localIp := BoolArg(cli, Network(AllowLocalIp), config.localIp),
      hideMyPort := BoolArg(cli, Network(HideMyPort), config.hideMyPort),
      p2pInterface := StringArg(cli, Network(P2pBindIp), config.p2pInterface),
      p2pPort := IntArg(cli, Network(P2pBindPort), config.p2pPort),
      p2pExternalPort := IntArg(cli, Network(P2pExternalPort), config.p2pExternalPort),
      rpcInterface := StringArg(cli, Network(RpcBindIp), config.rpcInterface),
      rpcPort := IntArg(cli, Network(RpcBindPort), config.rpcPort),
      exclusiveNodes := StringsArg(cli, Peer(AddExclusiveNode), config.exclusiveNodes),
      peers := StringsArg(cli, Peer(AddPeer), config.peers),
      priorityNodes := StringsArg(cli, Peer(AddPriorityNode), config.priorityNodes),
      seedNodes := StringsArg(cli, Peer(SeedNode), config.seedNodes),
      enableBlockExplorer := BoolArg(cli, Rpc(EnableBlockExplorer), config.enableBlockExplorer),
      enableCors := StringsArg(cli, Rpc(EnableCors), config.enableCors),
      feeAddress := StringArg(cli, Rpc(FeeAddress), config.feeAddress),
      feeAmount := IntArg(cli, Rpc(FeeAmount), config.feeAmount))
  }

  /**
   * The corrected `handleSettings(const cxxopts::ParseResult&,
   * DaemonConfiguration&)`: one guarded assignment per setting, in the order of
   * the source, with `localIp` read from the declared "allow-local-ip" option
   * instead of "local-ip".  `HandleCliSettingsAsWritten` is the code as
   * written, which `main` runs.
   */
  method HandleCliSettings(cli: ParseResult<Key>, config: DaemonConfiguration) returns (updated: DaemonConfiguration)
    ensures updated == CliOverlay(cli, config)
  {
    var dataDirectory := OverrideString(cli, Daemon(DataDir), config.dataDirectory);
    var checkPoints := OverrideString(cli, Daemon(LoadCheckpoints), config.checkPoints);
    var logFile := OverrideString(cli, Daemon(LogFile), config.logFile);
    var logLevel := OverrideInt(cli, Daemon(LogLevel), config.logLevel);
    var noConsole := OverrideBool(cli, Daemon(NoConsole), config.noConsole);
    var dbMaxOpenFiles := OverrideInt(cli, Database(DbMaxOpenFiles), config.dbMaxOpenFiles);
    var dbReadCacheSize := OverrideInt(cli, Database(DbReadBufferSize), config.dbReadCacheSize);
    var dbThreads := OverrideInt(cli, Database(DbThreads), config.dbThreads);
    var dbWriteBufferSize := OverrideInt(cli, Database(DbWriteBufferSize), config.dbWriteBufferSize);
    var localIp := OverrideBool(cli, Network(AllowLocalIp), config.localIp);
    var hideMyPort := OverrideBool(cli, Network(HideMyPort), config.hideMyPort);
    var p2pInterface := OverrideString(cli, Network(P2pBindIp), config.p2pInterface);
    var p2pPort := OverrideInt(cli, Network(P2pBindPort), config.p2pPort);
    var p2pExternalPort := OverrideInt(cli, Network(P2pExternalPort), config.p2pExternalPort);
    var rpcInterface := OverrideString(cli, Network(RpcBindIp), config.rpcInterface);
    var rpcPort := OverrideInt(cli, Network(RpcBindPort), config.rpcPort);
    var exclusiveNodes := OverrideStrings(cli, Peer(AddExclusiveNode), config.exclusiveNodes);
    var peers := OverrideStrings(cli, Peer(AddPeer), config.peers);
    var priorityNodes := OverrideStrings(cli, Peer(AddPriorityNode), config.priorityNodes);
    var seedNodes := OverrideStrings(cli, Peer(SeedNode), config.seedNodes);
    var enableBlockExplorer := OverrideBool(cli, Rpc(EnableBlockExplorer), config.enableBlockExplorer);
    var enableCors := OverrideStrings(cli, Rpc(EnableCors), config.enableCors);
    var feeAddress := OverrideString(cli, Rpc(FeeAddress), config.feeAddress);
    var feeAmount := OverrideInt(cli, Rpc(FeeAmount), config.feeAmount);
    updated := DaemonConfiguration(
      dataDirectory,
      logFile,
      feeAddress,
      rpcInterface,
      p2pInterface,
      checkPoints,
      peers,
      priorityNodes,
      exclusiveNodes,
      seedNodes,
      enableCors,
      logLevel,
      feeAmount,
      rpcPort,
      p2pPort,
      p2pExternalPort,
      dbThreads,
      dbMaxOpenFiles,
      dbWriteBufferSize,
      dbReadCacheSize,
      noConsole,
      enableBlockExplorer,
      localIp,
      hideMyPort);
  }

  /**
   * The command line overlay overwrites a setting exactly when its option was
   * given, with the value typed; every other setting is left as it was.
   */
  lemma CliOverlayExact(cli: ParseResult<Key>, config: DaemonConfiguration, k: Key)
    requires k in cli ==> Setting(k) == Some(KindOf(cli[k].value))
    ensures Get(CliOverlay(cli, config), k) == if Given(cli, k) && Setting(k).Some? then Some(cli[k].value) else Get(config, k)
  {
  }

  /** With no option given on the command line the overlay changes nothing. */
  lemma CliOverlayNothingGiven(cli: ParseResult<Key>, config: DaemonConfiguration)
    requires forall k :: !Given(cli, k)
    ensures CliOverlay(cli, config) == config
  {
  }

  /** Applying the same command line twice is applying it once. */
  lemma CliOverlayIdempotent(cli: ParseResult<Key>, config: DaemonConfiguration)
    ensures CliOverlay(cli, CliOverlay(cli, config)) == CliOverlay(cli, config)
  {
  }

  /**
   * The overlay as written: for `localIp` it tests and reads `cli["local-ip"]`,
   * a name the option table does not declare, instead of "allow-local-ip".
   */
  function CliOverlayAsWritten(cli: ParseResult<Key>, config: DaemonConfiguration): DaemonConfiguration
  {
    CliOverlay(cli, config).(localIp := BoolArg(cli, LocalIp, config.localIp))
  }

  /**
   * `handleSettings(const cxxopts::ParseResult&, DaemonConfiguration&)` as
   * written: one guarded assignment per setting, in the order of the source,
   * with `localIp` tested and read under "local-ip".
   */
  method HandleCliSettingsAsWritten(cli: ParseResult<Key>, config: DaemonConfiguration) returns (updated: DaemonConfiguration)
    ensures updated == CliOverlayAsWritten(cli, config)
  {
    var dataDirectory := OverrideString(cli, Daemon(DataDir), config.dataDirectory);
    var checkPoints := OverrideString(cli, Daemon(LoadCheckpoints), config.checkPoints);
    var logFile := OverrideString(cli, Daemon(LogFile), config.logFile);
    var logLevel := OverrideInt(cli, Daemon(LogLevel), config.logLevel);
    var noConsole := OverrideBool(cli, Daemon(NoConsole), config.noConsole);
    var dbMaxOpenFiles := OverrideInt(cli, Database(DbMaxOpenFiles), config.dbMaxOpenFiles);
    var dbReadCacheSize := OverrideInt(cli, Database(DbReadBufferSize), config.dbReadCacheSize);
    var dbThreads := OverrideInt(cli, Database(DbThreads), config.dbThreads);
    var dbWriteBufferSize := OverrideInt(cli, Database(DbWriteBufferSize), config.dbWriteBufferSize);
    var localIp := OverrideBool(cli, LocalIp, config.localIp);
    var hideMyPort := OverrideBool(cli, Network(HideMyPort), config.hideMyPort);
    var p2pInterface := OverrideString(cli, Network(P2pBindIp), config.p2pInterface);
    var p2pPort := OverrideInt(cli, Network(P2pBindPort), config.p2pPort);
    var p2pExternalPort := OverrideInt(cli, Network(P2pExternalPort), config.p2pExternalPort);
    var rpcInterface := OverrideString(cli, Network(RpcBindIp), config.rpcInterface);
    var rpcPort := OverrideInt(cli, Network(RpcBindPort), config.rpcPort);
    var exclusiveNodes := OverrideStrings(cli, Peer(AddExclusiveNode), config.exclusiveNodes);
    var peers := OverrideStrings(cli, Peer(AddPeer), config.peers);
    var priorityNodes := OverrideStrings(cli, Peer(AddPriorityNode), config.priorityNodes);
    var seedNodes := OverrideStrings(cli, Peer(SeedNode), config.seedNodes);
    var enableBlockExplorer := OverrideBool(cli, Rpc(EnableBlockExplorer), config.enableBlockExplorer);
    var enableCors := OverrideStrings(cli, Rpc(EnableCors), config.enableCors);
    var feeAddress := OverrideString(cli, Rpc(FeeAddress), config.feeAddress);
    var feeAmount := OverrideInt(cli, Rpc(FeeAmount), config.feeAmount);
    updated := DaemonConfiguration(
      dataDirectory,
      logFile,
      feeAddress,
      rpcInterface,
      p2pInterface,
      checkPoints,
      peers,
      priorityNodes,
      exclusiveNodes,
      seedNodes,
      enableCors,
      logLevel,
      feeAmount,
      rpcPort,
      p2pPort,
      p2pExternalPort,
      dbThreads,
      dbMaxOpenFiles,
      dbWriteBufferSize,
      dbReadCacheSize,
      noConsole,
      enableBlockExplorer,
      localIp,
      hideMyPort);
  }

  /**
   * As written, the overlay overwrites every setting but `localIp` exactly
   * when its option was given; `localIp` keeps its previous value, since the
   * parser never holds the undeclared "local-ip".
   */
  lemma CliOverlayAsWrittenExact(cli: ParseResult<Key>, config: DaemonConfiguration, k: Key)
    requires k in cli ==> Setting(k) == Some(KindOf(cli[k].value))
    requires LocalIp !in cli
    ensures Get(CliOverlayAsWritten(cli, config), k) ==
      if Given(cli, k) && Setting(k).Some? && k != Network(AllowLocalIp) then Some(cli[k].value) else Get(config, k)
  {
  }

  /** As written, no parse result the option table allows can change `localIp`. */
  lemma AsWrittenIgnoresAllowLocalIp(cli: ParseResult<Key>, config: DaemonConfiguration)
    requires ConformsTo(cli, Declared)
    ensures CliOverlayAsWritten(cli, config).localIp == config.localIp
    ensures CliOverlayAsWritten(cli, config).(localIp := CliOverlay(cli, config).localIp) == CliOverlay(cli, config)
  {
    assert LocalIp !in cli;
  }

  /** `--allow-local-ip` on the command line: ignored as written, applied as intended. */
  lemma AllowLocalIpCounterexample(config: DaemonConfiguration)
    requires !config.localIp
    ensures var cli := map[Network(AllowLocalIp) := Arg(1, Bool(true))];
      ConformsTo(cli, Declared) && !CliOverlayAsWritten(cli, config).localIp && CliOverlay(cli, config).localIp
  {
    var cli := map[Network(AllowLocalIp) := Arg(1, Bool(true))];
    assert forall k | k in cli :: k == Network(AllowLocalIp);
  }

  // ---------------------------------------------------------------------------
  // Configuration file overlay

  /** No read of a daemon option's key throws. */
  predicate DaemonReadable(m: imap<Key, Json>)
  {
    Readable(m, Daemon(DataDir), StrKind) &&
    Readable(m, Daemon(LoadCheckpoints), StrKind) &&
    Readable(m, Daemon(LogFile), StrKind) &&
    Readable(m, Daemon(LogLevel), IntKind) &&
    Readable(m, Daemon(NoConsole), BoolKind)
  }

  /** No read of a database option's key throws. */
  predicate DatabaseReadable(m: imap<Key, Json>)
  {
    Readable(m, Database(DbMaxOpenFiles), IntKind) &&
    Readable(m, Database(DbReadBufferSize), IntKind) &&
    Readable(m, Database(DbThreads), IntKind) &&
    Readable(m, Database(DbWriteBufferSize), IntKind)
  }

  /** No read of a network option's key throws. */
  predicate NetworkReadable(m: imap<Key, Json>)
  {
    Readable(m, Network(AllowLocalIp), BoolKind) &&
    Readable(m, Network(HideMyPort), BoolKind) &&
    Readable(m, Network(P2pBindIp), StrKind) &&
    Readable(m, Network(P2pBindPort), IntKind) &&
    Readable(m, Network(P2pExternalPort), IntKind) &&
    Readable(m, Network(RpcBindIp), StrKind) &&
    Readable(m, Network(RpcBindPort), IntKind)
  }

  /** No read of a peer option's key throws. */
  predicate PeerReadable(m: imap<Key, Json>)
  {
    Readable(m, Peer(AddExclusiveNode), StringsKind) &&
    Readable(m, Peer(AddPeer), StringsKind) &&
    Readable(m, Peer(AddPriorityNode), StringsKind) &&
    Readable(m, Peer(SeedNode), StringsKind)
  }

  /** No read of a rpc option's key throws. */
  predicate RpcReadable(m: imap<Key, Json>)
  {
    Readable(m, Rpc(EnableBlockExplorer), BoolKind) &&
    Readable(m, Rpc(EnableCors), StringsKind) &&
    Readable(m, Rpc(FeeAddress), StrKind) &&
    Readable(m, Rpc(FeeAmount), IntKind)
  }
  /** No `get<T>()` of the file overlay throws on these members. */
  predicate SettingsReadable(m: imap<Key, Json>)
  {
    DaemonReadable(m) &&
    DatabaseReadable(m) &&
    NetworkReadable(m) &&
    PeerReadable(m) &&
    RpcReadable(m)
  }

  /** The daemon settings once their present keys have been read. */
  function ApplyDaemon(m: imap<Key, Json>, config: DaemonConfiguration): DaemonConfiguration
  {
    config.(
      dataDirectory := StringMember(m, Daemon(DataDir), config.dataDirectory),
      checkPoints := StringMember(m, Daemon(LoadCheckpoints), config.checkPoints),
      logFile := StringMember(m, Daemon(LogFile), config.logFile),
      logLevel := IntMember(m, Daemon(LogLevel), config.logLevel),
      noConsole := BoolMember(m, Daemon(NoConsole), config.noConsole))
  }

  /** The database settings once their present keys have been read. */
  function ApplyDatabase(m: imap<Key, Json>, config: DaemonConfiguration): DaemonConfiguration
  {
    config.(
      dbMaxOpenFiles := IntMember(m, Database(DbMaxOpenFiles), config.dbMaxOpenFiles),
      dbReadCacheSize := IntMember(m, Database(DbReadBufferSize), config.dbReadCacheSize),
      dbThreads := IntMember(m, Database(DbThreads), config.dbThreads),
      dbWriteBufferSize := IntMember(m, Database(DbWriteBufferSize), config.dbWriteBufferSize))
  }

  /** The network settings once their present keys have been read. */
  function ApplyNetwork(m: imap<Key, Json>, config: DaemonConfiguration): DaemonConfiguration
  {
    config.(
      localIp := BoolMember(m, Network(AllowLocalIp), config.localIp),
      hideMyPort := BoolMember(m, Network(HideMyPort), config.hideMyPort),
      p2pInterface := StringMember(m, Network(P2pBindIp), config.p2pInterface),
      p2pPort := IntMember(m, Network(P2pBindPort), config.p2pPort),
      p2pExternalPort := IntMember(m, Network(P2pExternalPort), config.p2pExternalPort),
      rpcInterface := StringMember(m, Network(RpcBindIp), config.rpcInterface),
      rpcPort := IntMember(m, Network(RpcBindPort), config.rpcPort))
  }

  /** The peer settings once their present keys have been read. */
  function ApplyPeer(m: imap<Key, Json>, config: DaemonConfiguration): DaemonConfiguration
  {
    config.(
      exclusiveNodes := StringsMember(m, Peer(AddExclusiveNode), config.exclusiveNodes),
      peers := StringsMember(m, Peer(AddPeer), config.peers),
      priorityNodes := StringsMember(m, Peer(AddPriorityNode), config.priorityNodes),
      seedNodes := StringsMember(m, Peer(SeedNode), config.seedNodes))
  }

  /** The rpc settings once their present keys have been read. */
  function ApplyRpc(m: imap<Key, Json>, config: DaemonConfiguration): DaemonConfiguration
  {
    config.(
      enableBlockExplorer := BoolMember(m, Rpc(EnableBlockExplorer), config.enableBlockExplorer),
      enableCors := StringsMember(m, Rpc(EnableCors), config.enableCors),
      feeAddress := StringMember(m, Rpc(FeeAddress), config.feeAddress),
      feeAmount := IntMember(m, Rpc(FeeAmount), config.feeAmount))
  }
  /** The settings once every present key has been read, group by group in the order of the source. */
  function ApplyMembers(m: imap<Key, Json>, config: DaemonConfiguration): DaemonConfiguration
  {
    ApplyRpc(m, ApplyPeer(m, ApplyNetwork(m, ApplyDatabase(m, ApplyDaemon(m, config)))))
  }

  /**
   * What `handleSettings(configFile, config)` makes of `config`: a file that
   * cannot be opened or parsed, or a present key of the wrong type, throws;
   * otherwise each setting whose key is present takes the file's value.
   */
  function FileOverlay(file: ConfigFile<Key>, config: DaemonConfiguration): Result<DaemonConfiguration, FileError>
  {
    match file
    case Unreadable => Err(CannotOpen)
    case Unparsable => Err(ParseFailure)
    case Parsed(doc) =>
      if SettingsReadable(Members(doc)) then Ok(ApplyMembers(Members(doc), config)) else Err(WrongType)
  }

  /** The reads of the daemon settings, in the order of the source. */
  method ReadDaemonSettings(m: imap<Key, Json>, config: DaemonConfiguration)
    returns (r: Result<DaemonConfiguration, FileError>)
    ensures r == if DaemonReadable(m) then Ok(ApplyDaemon(m, config)) else Err(WrongType)
  {
    var dataDirectory := ReadString(m, Daemon(DataDir), config.dataDirectory);
    if dataDirectory.Err? {
      return Err(dataDirectory.error);
    }
    var checkPoints := ReadString(m, Daemon(LoadCheckpoints), config.checkPoints);
    if checkPoints.Err? {
      return Err(checkPoints.error);
    }
    var logFile := ReadString(m, Daemon(LogFile), config.logFile);
    if logFile.Err? {
      return Err(logFile.error);
    }
    var logLevel := ReadInt(m, Daemon(LogLevel), config.logLevel);
    if logLevel.Err? {
      return Err(logLevel.error);
    }
    var noConsole := ReadBool(m, Daemon(NoConsole), config.noConsole);
    if noConsole.Err? {
      return Err(noConsole.error);
    }
    r := Ok(config.(
      dataDirectory := dataDirectory.value,
      checkPoints := checkPoints.value,
      logFile := logFile.value,
      logLevel := logLevel.value,
      noConsole := noConsole.value));
  }

  /** The reads of the database settings, in the order of the source. */
  method ReadDatabaseSettings(m: imap<Key, Json>, config: DaemonConfiguration)
    returns (r: Result<DaemonConfiguration, FileError>)
    ensures r == if DatabaseReadable(m) then Ok(ApplyDatabase(m, config)) else Err(WrongType)
  {
    var dbMaxOpenFiles := ReadInt(m, Database(DbMaxOpenFiles), config.dbMaxOpenFiles);
    if dbMaxOpenFiles.Err? {
      return Err(dbMaxOpenFiles.error);
    }
    var dbReadCacheSize := ReadInt(m, Database(DbReadBufferSize), config.dbReadCacheSize);
    if dbReadCacheSize.Err? {
      return Err(dbReadCacheSize.error);
    }
    var dbThreads := ReadInt(m, Database(DbThreads), config.dbThreads);
    if dbThreads.Err? {
      return Err(dbThreads.error);
    }
    var dbWriteBufferSize := ReadInt(m, Database(DbWriteBufferSize), config.dbWriteBufferSize);
    if dbWriteBufferSize.Err? {
      return Err(dbWriteBufferSize.error);
    }
    r := Ok(config.(
      dbMaxOpenFiles := dbMaxOpenFiles.value,
      dbReadCacheSize := dbReadCacheSize.value,
      dbThreads := dbThreads.value,
      dbWriteBufferSize := dbWriteBufferSize.value));
  }

  /** The reads of the network settings, in the order of the source. */
  method ReadNetworkSettings(m: imap<Key, Json>, config: DaemonConfiguration)
    returns (r: Result<DaemonConfiguration, FileError>)
    ensures r == if NetworkReadable(m) then Ok(ApplyNetwork(m, config)) else Err(WrongType)
  {
    var localIp := ReadBool(m, Network(AllowLocalIp), config.localIp);
    if localIp.Err? {
      return Err(localIp.error);
    }
    var hideMyPort := ReadBool(m, Network(HideMyPort), config.hideMyPort);
    if hideMyPort.Err? {
      return Err(hideMyPort.error);
    }
    var p2pInterface := ReadString(m, Network(P2pBindIp), config.p2pInterface);
    if p2pInterface.Err? {
      return Err(p2pInterface.error);
    }
    var p2pPort := ReadInt(m, Network(P2pBindPort), config.p2pPort);
    if p2pPort.Err? {
      return Err(p2pPort.error);
    }
    var p2pExternalPort := ReadInt(m, Network(P2pExternalPort), config.p2pExternalPort);
    if p2pExternalPort.Err? {
      return Err(p2pExternalPort.error);
    }
    var rpcInterface := ReadString(m, Network(RpcBindIp), config.rpcInterface);
    if rpcInterface.Err? {
      return Err(rpcInterface.error);
    }
    var rpcPort := ReadInt(m, Network(RpcBindPort), config.rpcPort);
    if rpcPort.Err? {
      return Err(rpcPort.error);
    }
    r := Ok(config.(
      localIp := localIp.value,
      hideMyPort := hideMyPort.value,
      p2pInterface := p2pInterface.value,
      p2pPort := p2pPort.value,
      p2pExternalPort := p2pExternalPort.value,
      rpcInterface := rpcInterface.value,
      rpcPort := rpcPort.value));
  }

  /** The reads of the peer settings, in the order of the source. */
  method ReadPeerSettings(m: imap<Key, Json>, config: DaemonConfiguration)
    returns (r: Result<DaemonConfiguration, FileError>)
    ensures r == if PeerReadable(m) then Ok(ApplyPeer(m, config)) else Err(WrongType)
  {
    var exclusiveNodes := ReadStrings(m, Peer(AddExclusiveNode), config.exclusiveNodes);
    if exclusiveNodes.Err? {
      return Err(exclusiveNodes.error);
    }
    var peers := ReadStrings(m, Peer(AddPeer), config.peers);
    if peers.Err? {
      return Err(peers.error);
    }
    var priorityNodes := ReadStrings(m, Peer(AddPriorityNode), config.priorityNodes);
    if priorityNodes.Err? {
      return Err(priorityNodes.error);
    }
    var seedNodes := ReadStrings(m, Peer(SeedNode), config.seedNodes);
    if seedNodes.Err? {
      return Err(seedNodes.error);
    }
    r := Ok(config.(
      exclusiveNodes := exclusiveNodes.value,
      peers := peers.value,
      priorityNodes := priorityNodes.value,
      seedNodes := seedNodes.value));
  }

  /** The reads of the rpc settings, in the order of the source. */
  method ReadRpcSettings(m: imap<Key, Json>, config: DaemonConfiguration)
    returns (r: Result<DaemonConfiguration, FileError>)
    ensures r == if RpcReadable(m) then Ok(ApplyRpc(m, config)) else Err(WrongType)
  {
    var enableBlockExplorer := ReadBool(m, Rpc(EnableBlockExplorer), config.enableBlockExplorer);
    if enableBlockExplorer.Err? {
      return Err(enableBlockExplorer.error);
    }
    var enableCors := ReadStrings(m, Rpc(EnableCors), config.enableCors);
    if enableCors.Err? {
      return Err(enableCors.error);
    }
    var feeAddress := ReadString(m, Rpc(FeeAddress), config.feeAddress);
    if feeAddress.Err? {
      return Err(feeAddress.error);
    }
    var feeAmount := ReadInt(m, Rpc(FeeAmount), config.feeAmount);
    if feeAmount.Err? {
      return Err(feeAmount.error);
    }
    r := Ok(config.(
      enableBlockExplorer := enableBlockExplorer.value,
      enableCors := enableCors.value,
      feeAddress := feeAddress.value,
      feeAmount := feeAmount.value));
  }
  /**
   * `handleSettings(const std::string, DaemonConfiguration&)`: open, parse,
   * then one guarded read per setting in the order of the source; the first
   * read that throws ends the overlay.
   */
  method HandleFileSettings(file: ConfigFile<Key>, config: DaemonConfiguration)
    returns (r: Result<DaemonConfiguration, FileError>)
    ensures r == FileOverlay(file, config)
  {
    if file.Unreadable? {
      return Err(CannotOpen);
    }
    if file.Unparsable? {
      return Err(ParseFailure);
    }
    var m := Members(file.doc);
    var daemon := ReadDaemonSettings(m, config);
    if daemon.Err? {
      return Err(daemon.error);
    }
    var database := ReadDatabaseSettings(m, daemon.value);
    if database.Err? {
      return Err(database.error);
    }
    var network := ReadNetworkSettings(m, database.value);
    if network.Err? {
      return Err(network.error);
    }
    var peer := ReadPeerSettings(m, network.value);
    if peer.Err? {
      return Err(peer.error);
    }
    var rpc := ReadRpcSettings(m, peer.value);
    if rpc.Err? {
      return Err(rpc.error);
    }
    r := Ok(rpc.value);
  }

  /** A file is rejected exactly when a setting's key holds a value of another type. */
  lemma SettingsReadableExact(m: imap<Key, Json>)
    ensures SettingsReadable(m) <==>
      forall k :: k in m && Setting(k).Some? ==> Convert(m[k], Setting(k).value).Some?
  {
    if SettingsReadable(m) {
      forall k | k in m && Setting(k).Some?
        ensures Convert(m[k], Setting(k).value).Some?
      {
        match k
        case Daemon(_) => SettingsReadableDaemonExact(m);
        case Database(_) => SettingsReadableDatabaseExact(m);
        case Network(_) => SettingsReadableNetworkExact(m);
        case Peer(_) => SettingsReadablePeerExact(m);
        case Rpc(_) => SettingsReadableRpcExact(m);
        case _ =>
      }
    } else {
      SettingsReadableDaemonExact(m);
      SettingsReadableDatabaseExact(m);
      SettingsReadableNetworkExact(m);
      SettingsReadablePeerExact(m);
      SettingsReadableRpcExact(m);
    }
  }

  /** A file of the right shape overwrites a setting exactly when its key is present. */
  lemma FileOverlayExact(m: imap<Key, Json>, config: DaemonConfiguration, k: Key)
    requires SettingsReadable(m)
    ensures FileOverlay(Parsed(Object(m)), config) == Ok(ApplyMembers(m, config))
    ensures k in m && Setting(k).Some? ==> Get(ApplyMembers(m, config), k) == Convert(m[k], Setting(k).value)
    ensures !(k in m && Setting(k).Some?) ==> Get(ApplyMembers(m, config), k) == Get(config, k)
  {
    GetSetting(config, k);
    GetSetting(ApplyMembers(m, config), k);
    if Setting(k).Some? {
      match k
      case Daemon(o) => FileOverlayDaemonExact(m, config, o);
      case Database(o) => FileOverlayDatabaseExact(m, config, o);
      case Network(o) => FileOverlayNetworkExact(m, config, o);
      case Peer(o) => FileOverlayPeerExact(m, config, o);
      case Rpc(o) => FileOverlayRpcExact(m, config, o);
      case _ =>
    }
  }

  /** The daemon reads succeed exactly when each present daemon setting has its type. */
  lemma SettingsReadableDaemonExact(m: imap<Key, Json>)
    ensures DaemonReadable(m) <==>
      forall o: DaemonOption :: DaemonSetting(o).Some? && Daemon(o) in m ==> Convert(m[Daemon(o)], DaemonSetting(o).value).Some?
  {
    if DaemonReadable(m) {
      forall o: DaemonOption | DaemonSetting(o).Some? && Daemon(o) in m
        ensures Convert(m[Daemon(o)], DaemonSetting(o).value).Some?
      {
        match o
        case DataDir =>
        case LoadCheckpoints =>
        case LogFile =>
        case LogLevel =>
        case NoConsole =>
        case ConfigFile =>
        case DumpConfig =>
        case SaveConfig =>
      }
    }
  }

  /** A daemon setting is overwritten exactly when its key is present. */
  lemma FileOverlayDaemonExact(m: imap<Key, Json>, config: DaemonConfiguration, o: DaemonOption)
    requires DaemonReadable(m) && DaemonSetting(o).Some?
    ensures Daemon(o) in m ==> DaemonGet(ApplyMembers(m, config), o) == Convert(m[Daemon(o)], DaemonSetting(o).value)
    ensures Daemon(o) !in m ==> DaemonGet(ApplyMembers(m, config), o) == DaemonGet(config, o)
  {
  }

  /** The database reads succeed exactly when each present database setting has its type. */
  lemma SettingsReadableDatabaseExact(m: imap<Key, Json>)
    ensures DatabaseReadable(m) <==>
      forall o: DatabaseOption :: DatabaseSetting(o).Some? && Database(o) in m ==> Convert(m[Database(o)], DatabaseSetting(o).value).Some?
  {
    if DatabaseReadable(m) {
      forall o: DatabaseOption | DatabaseSetting(o).Some? && Database(o) in m
        ensures Convert(m[Database(o)], DatabaseSetting(o).value).Some?
      {
        match o
        case DbMaxOpenFiles =>
        case DbReadBufferSize =>
        case DbThreads =>
        case DbWriteBufferSize =>
      }
    }
  }

  /** A database setting is overwritten exactly when its key is present. */
  lemma FileOverlayDatabaseExact(m: imap<Key, Json>, config: DaemonConfiguration, o: DatabaseOption)
    requires DatabaseReadable(m) && DatabaseSetting(o).Some?
    ensures Database(o) in m ==> DatabaseGet(ApplyMembers(m, config), o) == Convert(m[Database(o)], DatabaseSetting(o).value)
    ensures Database(o) !in m ==> DatabaseGet(ApplyMembers(m, config), o) == DatabaseGet(config, o)
  {
  }

  /** The network reads succeed exactly when each present network setting has its type. */
  lemma SettingsReadableNetworkExact(m: imap<Key, Json>)
    ensures NetworkReadable(m) <==>
      forall o: NetworkOption :: NetworkSetting(o).Some? && Network(o) in m ==> Convert(m[Network(o)], NetworkSetting(o).value).Some?
  {
    if NetworkReadable(m) {
      forall o: NetworkOption | NetworkSetting(o).Some? && Network(o) in m
        ensures Convert(m[Network(o)], NetworkSetting(o).value).Some?
      {
        match o
        case AllowLocalIp =>
        case HideMyPort =>
        case P2pBindIp =>
        case P2pBindPort =>
        case P2pExternalPort =>
        case RpcBindIp =>
        case RpcBindPort =>
      }
    }
  }

  /** A network setting is overwritten exactly when its key is present. */
  lemma FileOverlayNetworkExact(m: imap<Key, Json>, config: DaemonConfiguration, o: NetworkOption)
    requires NetworkReadable(m) && NetworkSetting(o).Some?
    ensures Network(o) in m ==> NetworkGet(ApplyMembers(m, config), o) == Convert(m[Network(o)], NetworkSetting(o).value)
    ensures Network(o) !in m ==> NetworkGet(ApplyMembers(m, config), o) == NetworkGet(config, o)
  {
  }

  /** The peer reads succeed exactly when each present peer setting has its type. */
  lemma SettingsReadablePeerExact(m: imap<Key, Json>)
    ensures PeerReadable(m) <==>
      forall o: PeerOption :: PeerSetting(o).Some? && Peer(o) in m ==> Convert(m[Peer(o)], PeerSetting(o).value).Some?
  {
    if PeerReadable(m) {
      forall o: PeerOption | PeerSetting(o).Some? && Peer(o) in m
        ensures Convert(m[Peer(o)], PeerSetting(o).value).Some?
      {
        match o
        case AddExclusiveNode =>
        case AddPeer =>
        case AddPriorityNode =>
        case SeedNode =>
      }
    }
  }

  /** A peer setting is overwritten exactly when its key is present. */
  lemma FileOverlayPeerExact(m: imap<Key, Json>, config: DaemonConfiguration, o: PeerOption)
    requires PeerReadable(m) && PeerSetting(o).Some?
    ensures Peer(o) in m ==> PeerGet(ApplyMembers(m, config), o) == Convert(m[Peer(o)], PeerSetting(o).value)
    ensures Peer(o) !in m ==> PeerGet(ApplyMembers(m, config), o) == PeerGet(config, o)
  {
  }

  /** The rpc reads succeed exactly when each present rpc setting has its type. */
  lemma SettingsReadableRpcExact(m: imap<Key, Json>)
    ensures RpcReadable(m) <==>
      forall o: RpcOption :: RpcSetting(o).Some? && Rpc(o) in m ==> Convert(m[Rpc(o)], RpcSetting(o).value).Some?
  {
    if RpcReadable(m) {
      forall o: RpcOption | RpcSetting(o).Some? && Rpc(o) in m
        ensures Convert(m[Rpc(o)], RpcSetting(o).value).Some?
      {
        match o
        case EnableBlockExplorer =>
        case EnableCors =>
        case FeeAddress =>
        case FeeAmount =>
      }
    }
  }

  /** A rpc setting is overwritten exactly when its key is present. */
  lemma FileOverlayRpcExact(m: imap<Key, Json>, config: DaemonConfiguration, o: RpcOption)
    requires RpcReadable(m) && RpcSetting(o).Some?
    ensures Rpc(o) in m ==> RpcGet(ApplyMembers(m, config), o) == Convert(m[Rpc(o)], RpcSetting(o).value)
    ensures Rpc(o) !in m ==> RpcGet(ApplyMembers(m, config), o) == RpcGet(config, o)
  {
  }
  /** Reading the same file twice is reading it once. */
  lemma FileOverlayIdempotent(file: ConfigFile<Key>, config: DaemonConfiguration)
    requires FileOverlay(file, config).Ok?
    ensures FileOverlay(file, FileOverlay(file, config).value) == FileOverlay(file, config)
  {
    ApplyMembersIdempotent(Members(file.doc), config);
  }

  /** Reading a member that has already been read changes nothing. */
  lemma ApplyMembersIdempotent(m: imap<Key, Json>, config: DaemonConfiguration)
    ensures ApplyMembers(m, ApplyMembers(m, config)) == ApplyMembers(m, config)
  {
  }

  // ---------------------------------------------------------------------------
  // JSON form

  /**
   * `asJSON(config)`: one member per setting, under the key the file overlay
   * reads, holding the field that key names (`Get` is the table of the source's
   * initializer list).
   */
  ghost function AsJson(c: DaemonConfiguration): imap<Key, Json>
  {
    imap k | Get(c, k).Some? :: Typed(Get(c, k).value)
  }

  /** `asJSON` writes exactly the settings, each under its own key. */
  lemma AsJsonMembers(c: DaemonConfiguration, k: Key)
    ensures k in AsJson(c) <==> Setting(k).Some?
    ensures k in AsJson(c) ==> AsJson(c)[k] == Typed(Get(c, k).value)
  {
  }

  /** Every member `asJSON` writes has the type the file overlay reads it as. */
  lemma AsJsonReadable(c: DaemonConfiguration)
    ensures SettingsReadable(AsJson(c))
  {
    AsJsonDaemonReadable(c);
    AsJsonDatabaseReadable(c);
    AsJsonNetworkReadable(c);
    AsJsonPeerReadable(c);
    AsJsonRpcReadable(c);
  }

  /** Reading the members `asJSON` wrote gives back every field. */
  lemma AsJsonApplied(c: DaemonConfiguration, into: DaemonConfiguration)
    requires IntsInRange(c)
    ensures ApplyMembers(AsJson(c), into) == c
  {
    AsJsonDaemonApplied(c, into);
    AsJsonDatabaseApplied(c, into);
    AsJsonNetworkApplied(c, into);
    AsJsonPeerApplied(c, into);
    AsJsonRpcApplied(c, into);
  }

  /** The daemon members `asJSON` writes have the types they are read as. */
  lemma AsJsonDaemonReadable(c: DaemonConfiguration)
    ensures DaemonReadable(AsJson(c))
  {
  }

  /** Reading the daemon members `asJSON` wrote gives back those fields. */
  lemma AsJsonDaemonApplied(c: DaemonConfiguration, into: DaemonConfiguration)
    requires IntsInRange(c)
    ensures ApplyDaemon(AsJson(c), into) == into.(
      dataDirectory := c.dataDirectory,
      checkPoints := c.checkPoints,
      logFile := c.logFile,
      logLevel := c.logLevel,
      noConsole := c.noConsole)
  {
  }

  /** The database members `asJSON` writes have the types they are read as. */
  lemma AsJsonDatabaseReadable(c: DaemonConfiguration)
    ensures DatabaseReadable(AsJson(c))
  {
  }

  /** Reading the database members `asJSON` wrote gives back those fields. */
  lemma AsJsonDatabaseApplied(c: DaemonConfiguration, into: DaemonConfiguration)
    requires IntsInRange(c)
    ensures ApplyDatabase(AsJson(c), into) == into.(
      dbMaxOpenFiles := c.dbMaxOpenFiles,
      dbReadCacheSize := c.dbReadCacheSize,
      dbThreads := c.dbThreads,
      dbWriteBufferSize := c.dbWriteBufferSize)
  {
  }

  /** The network members `asJSON` writes have the types they are read as. */
  lemma AsJsonNetworkReadable(c: DaemonConfiguration)
    ensures NetworkReadable(AsJson(c))
  {
  }

  /** Reading the network members `asJSON` wrote gives back those fields. */
  lemma AsJsonNetworkApplied(c: DaemonConfiguration, into: DaemonConfiguration)
    requires IntsInRange(c)
    ensures ApplyNetwork(AsJson(c), into) == into.(
      localIp := c.localIp,
      hideMyPort := c.hideMyPort,
      p2pInterface := c.p2pInterface,
      p2pPort := c.p2pPort,
      p2pExternalPort := c.p2pExternalPort,
      rpcInterface := c.rpcInterface,
      rpcPort := c.rpcPort)
  {
  }

  /** The peer members `asJSON` writes have the types they are read as. */
  lemma AsJsonPeerReadable(c: DaemonConfiguration)
    ensures PeerReadable(AsJson(c))
  {
  }

  /** Reading the peer members `asJSON` wrote gives back those fields. */
  lemma AsJsonPeerApplied(c: DaemonConfiguration, into: DaemonConfiguration)
    ensures ApplyPeer(AsJson(c), into) == into.(
      exclusiveNodes := c.exclusiveNodes,
      peers := c.peers,
      priorityNodes := c.priorityNodes,
      seedNodes := c.seedNodes)
  {
  }

  /** The rpc members `asJSON` writes have the types they are read as. */
  lemma AsJsonRpcReadable(c: DaemonConfiguration)
    ensures RpcReadable(AsJson(c))
  {
  }

  /** Reading the rpc members `asJSON` wrote gives back those fields. */
  lemma AsJsonRpcApplied(c: DaemonConfiguration, into: DaemonConfiguration)
    requires IntsInRange(c)
    ensures ApplyRpc(AsJson(c), into) == into.(
      enableBlockExplorer := c.enableBlockExplorer,
      enableCors := c.enableCors,
      feeAddress := c.feeAddress,
      feeAmount := c.feeAmount)
  {
  }

  /** Reading back what `asJSON` wrote reproduces the configuration, whatever it is read into. */
  lemma RoundTrip(c: DaemonConfiguration, into: DaemonConfiguration)
    requires IntsInRange(c)
    ensures FileOverlay(Parsed(Object(AsJson(c))), into) == Ok(c)
  {
    AsJsonReadable(c);
    AsJsonApplied(c, into);
  }
}
