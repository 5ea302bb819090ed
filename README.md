# Configuration and start-up of the node daemon and the wallet service

This project models how the node daemon and the wallet service
(`walletd`) arrive at their settings and how the daemon acts on them.

Both programs start from a record of compiled-in defaults. A JSON
configuration file (`--config-file` or `--config`) is read over the defaults,
and the command line is then read over the result, so an option given on the
command line wins over the file and the file wins over the default. The one
exception is the daemon's `--allow-local-ip`: as written, the command-line
overlay looks for it under another name and never reads it, so `localIp` comes
from the file or the default alone (see Findings). The model of `main` runs the
overlay as written. Each
program can print its settings as JSON (`--dump-config`) or write them to a
file (`--save-config`) and then exit. A file written this way reads back to
the same settings.

The wallet service's `ConfigurationManager::init` then checks the merged
settings against its rules. These cover service registration, the log level,
the wallet container and its password, and the import keys or seed. It also
derives the RPC secret from the password. The daemon's `main` dispatches the
informational actions first: help, version, OS version and the genesis
transaction. It then configures logging, loads checkpoints, prepares the data
directory, opens the database behind a scope guard (rebuilding it when its
schema is outdated), starts the core and the servers, runs the P2P loop and
shuts everything down in order.

Files:

- `wrappers.dfy`: `Option` and `Result`.
- `sources.dfy`: the parsed command line, the parsed JSON document, the
  build constants and the path helpers. These are the inputs of everything
  else.
- `daemon_config.dfy`: `DaemonConfiguration.h`.
- `wallet_config.dfy`: `WalletServiceConfiguration.h`.
- `configuration_manager.dfy`: `ConfigurationManager.cpp`, as a class whose
  methods update its fields.
- `daemon_main.dfy`: `Daemon.cpp`. What the daemon does to its subsystems is
  recorded as a trace of events, and `ScopeExit` is a class whose
  cancellation is a field.

Each operation that the source writes as a sequence of guarded steps is
modelled as a method. Each such method is proved equal to a function that
states the resulting settings as a whole. The properties are then lemmas
about those functions.

## Model

| member | source | states |
|---|---|---|
| Sources.Convert | src/Daemon/DaemonConfiguration.h:223-226 | `get<T>()` for a string, a flag or a list succeeds exactly when the member holds that type and yields it unchanged; `get<int>()` also accepts a fractional number (truncated toward zero) and a boolean (0 or 1), and narrows the value to a 32-bit `int` |
| Sources.NarrowInt | src/Daemon/DaemonConfiguration.h:211-342 | the narrowing to `int`: the result is in range, congruent to the input modulo 2^32, and the input itself when it already fits |
| Sources.Truncate | src/Daemon/DaemonConfiguration.h:211-342 | the conversion of a fractional number to an integer rounds toward zero |
| Sources.IntConversions | src/Daemon/DaemonConfiguration.h:211-342 | worked cases: 11897.75 reads as 11897, -2.5 as -2, `true` as 1, 4294978193 wraps to 10897, and an integer under a string key is rejected |
| Sources.OverrideString | src/Daemon/DaemonConfiguration.h:90-93 | a string field takes the command-line value when the option was typed and is kept otherwise |
| Sources.OverrideInt | src/Daemon/DaemonConfiguration.h:205-208 | the same for an integer option |
| Sources.OverrideBool | src/Daemon/DaemonConfiguration.h:135-138 | the same for a flag |
| Sources.OverrideStrings | src/Daemon/DaemonConfiguration.h:88-209 | the same for a list option (peers, seed nodes) |
| Sources.ReadString | src/Daemon/DaemonConfiguration.h:223-226 | a present file key of the wrong type is an error; a present key of the right type sets the field; an absent key keeps it |
| Sources.ReadInt | src/Daemon/DaemonConfiguration.h:211-342 | the same for an integer key, with the value converted as `get<int>()` converts it: integers, fractional numbers and booleans are accepted |
| Sources.ReadBool | src/Daemon/DaemonConfiguration.h:268-271 | the same for a boolean key |
| Sources.ReadStrings | src/Daemon/DaemonConfiguration.h:211-342 | the same for a list key |
| DaemonConfig.GetSetting | src/Daemon/DaemonConfiguration.h:20-49 | the configuration settings are exactly the fields of the record, each with the type its option is declared with |
| DaemonConfig.InitConfiguration | src/Daemon/DaemonConfiguration.h:51-77 | the defaults: checkpoints "default", the P2P interface on all addresses, RPC on localhost, log level WARNING, every flag off, and the fee amount left as constructed |
| DaemonConfig.InitConfigurationAt | src/Daemon/DaemonConfiguration.h:79-86 | the same defaults, except that the log file sits beside the program with the extension `.log` |
| DaemonConfig.FeeAmountUnspecified | src/Daemon/DaemonConfiguration.h:51-77 | the defaults never assign the fee amount: it is whatever value the record held before |
| DaemonConfig.HandleCliSettings | src/Daemon/DaemonConfiguration.h:88-209 | the corrected command-line overlay, which tests the declared `allow-local-ip` key (see Findings); `main` does not use it |
| DaemonConfig.HandleCliSettingsAsWritten | src/Daemon/DaemonConfiguration.h:88-209 | the guarded assignments as written, testing `local-ip` for `localIp`, compute the as-written overlay that `main` runs |
| DaemonConfig.CliOverlayAsWrittenExact | src/Daemon/DaemonConfiguration.h:88-209 | after the as-written overlay, a setting holds the typed value exactly when its option was given and it is not `allow-local-ip`; `localIp` and every option not given keep their previous value |
| DaemonConfig.LocalIpUndeclared | src/Daemon/Daemon.cpp:172 | no declared option is spelt `local-ip`, so the as-written test can never see a typed value; `allow-local-ip` is declared as a flag |
| DaemonConfig.DeclaredSpellingsDistinct | src/Daemon/Daemon.cpp:142-190 | two different declared options have different spellings |
| DaemonConfig.CliOverlayExact | src/Daemon/DaemonConfiguration.h:88-209 | after the command-line overlay, a setting holds the typed value exactly when its option was given; otherwise it holds its previous value |
| DaemonConfig.CliOverlayNothingGiven | src/Daemon/DaemonConfiguration.h:88-209 | an empty command line changes nothing |
| DaemonConfig.CliOverlayIdempotent | src/Daemon/DaemonConfiguration.h:88-209 | reading the same command line twice gives the same result as reading it once |
| DaemonConfig.AsWrittenIgnoresAllowLocalIp | src/Daemon/DaemonConfiguration.h:135-138 | the overlay as written never changes `localIp` and agrees with the corrected overlay on every other field |
| DaemonConfig.AllowLocalIpCounterexample | src/Daemon/DaemonConfiguration.h:135-138 | `--allow-local-ip` leaves `localIp` false as written but sets it in the corrected overlay |
| DaemonConfig.ReadDaemonSettings | src/Daemon/DaemonConfiguration.h:223-246 | the daemon keys of the file are read, or the read fails with a type error when one of them has the wrong type |
| DaemonConfig.ReadDatabaseSettings | src/Daemon/DaemonConfiguration.h:248-266 | the same for the database keys |
| DaemonConfig.ReadNetworkSettings | src/Daemon/DaemonConfiguration.h:268-301 | the same for the network keys |
| DaemonConfig.ReadPeerSettings | src/Daemon/DaemonConfiguration.h:303-321 | the same for the peer keys |
| DaemonConfig.ReadRpcSettings | src/Daemon/DaemonConfiguration.h:323-341 | the same for the RPC keys |
| DaemonConfig.HandleFileSettings | src/Daemon/DaemonConfiguration.h:211-342 | the file overlay: a file that cannot be opened or parsed is an error, a key of the wrong type is an error, and otherwise each present key sets its field |
| DaemonConfig.SettingsReadableExact | src/Daemon/DaemonConfiguration.h:223-341 | a parsed file is rejected exactly when some setting's key holds a value of another type |
| DaemonConfig.FileOverlayExact | src/Daemon/DaemonConfiguration.h:211-342 | with an acceptable file, a setting takes the file's value, converted as `get<T>()` converts it, exactly when its key is present; otherwise it is kept |
| DaemonConfig.FileOverlayIdempotent | src/Daemon/DaemonConfiguration.h:211-342 | reading the same file twice gives the same result as reading it once |
| DaemonConfig.ApplyMembersIdempotent | src/Daemon/DaemonConfiguration.h:223-341 | applying the same members twice changes nothing more |
| DaemonConfig.AsJsonMembers | src/Daemon/DaemonConfiguration.h:344-374 | `asJSON` writes exactly one member per setting, under the key the reader looks for, holding that field |
| DaemonConfig.AsJsonReadable | src/Daemon/DaemonConfiguration.h:344-374 | every member `asJSON` writes has the type the file reader expects |
| DaemonConfig.AsJsonApplied | src/Daemon/DaemonConfiguration.h:344-374 | for a record whose integer fields fit in an `int`, as their C++ type guarantees, reading the members `asJSON` wrote restores every field, whatever record they are read into |
| DaemonConfig.RoundTrip | src/Daemon/DaemonConfiguration.h:344-374 | a configuration whose integer fields fit in an `int`, saved with `asJSON` and read back with the file overlay, is the same configuration |
| WalletConfig.GetSetting | src/WalletService/WalletServiceConfiguration.h:18-34 | the settings are exactly the twelve fields of the record, with their declared types |
| WalletConfig.InitConfiguration | src/WalletService/WalletServiceConfiguration.h:36-49 | the defaults: daemon and bind address localhost, log file `service.log`, legacy security off, and password and container empty |
| WalletConfig.HandleCliSettings | src/WalletService/WalletServiceConfiguration.h:51-112 | the guarded assignments compute the command-line overlay |
| WalletConfig.CliOverlayExact | src/WalletService/WalletServiceConfiguration.h:51-112 | a setting holds the typed value exactly when its option was given; otherwise it is kept |
| WalletConfig.CliOverlayNothingGiven | src/WalletService/WalletServiceConfiguration.h:51-112 | an empty command line changes nothing |
| WalletConfig.CliOverlayIdempotent | src/WalletService/WalletServiceConfiguration.h:51-112 | reading the same command line twice gives the same result as reading it once |
| WalletConfig.HandleFileSettings | src/WalletService/WalletServiceConfiguration.h:114-185 | the file overlay, with the same three error cases as the daemon's |
| WalletConfig.SettingsReadableExact | src/WalletService/WalletServiceConfiguration.h:126-184 | a parsed file is rejected exactly when some setting's key holds a value of another type |
| WalletConfig.FileOverlayExact | src/WalletService/WalletServiceConfiguration.h:114-185 | with an acceptable file, a setting takes the file's value, converted as `get<T>()` converts it, exactly when its key is present; otherwise it is kept |
| WalletConfig.FileOverlayIdempotent | src/WalletService/WalletServiceConfiguration.h:114-185 | reading the same file twice gives the same result as reading it once |
| WalletConfig.ApplyMembersIdempotent | src/WalletService/WalletServiceConfiguration.h:126-184 | applying the same members twice changes nothing more |
| WalletConfig.AsJsonMembers | src/WalletService/WalletServiceConfiguration.h:187-205 | `asJSON` writes exactly one member per setting, holding that field |
| WalletConfig.AsJsonShowsPassword | src/WalletService/WalletServiceConfiguration.h:200 | the dump carries the RPC password in plain text |
| WalletConfig.AsJsonReadable | src/WalletService/WalletServiceConfiguration.h:187-205 | every member `asJSON` writes has the type the file reader expects |
| WalletConfig.AsJsonApplied | src/WalletService/WalletServiceConfiguration.h:187-205 | for a record whose integer fields fit in an `int`, reading the members `asJSON` wrote restores every field |
| WalletConfig.RoundTrip | src/WalletService/WalletServiceConfiguration.h:187-205 | a wallet service configuration whose integer fields fit in an `int`, saved and read back, is unchanged |
| PaymentService.Zeros | src/WalletService/ConfigurationManager.cpp:34 | the null hash is 32 zero bytes |
| PaymentService.ValidationExact | src/WalletService/ConfigurationManager.cpp:152-197 | the settings pass validation exactly when every rule holds |
| PaymentService.BothServiceActionsFirst | src/WalletService/ConfigurationManager.cpp:152-155 | asking both to register and to unregister the service is the first error reported |
| PaymentService.LogLevelRule | src/WalletService/ConfigurationManager.cpp:157-160 | the log level error is reported exactly when the level is above TRACE |
| PaymentService.NegativeLogLevelAccepted | src/WalletService/ConfigurationManager.cpp:157-160 | a log level below FATAL passes the check |
| PaymentService.ContainerFileRuleUnreachable | src/WalletService/ConfigurationManager.cpp:194-197 | the last container-file check can never report: an empty container file is already rejected at line 162 |
| PaymentService.ImportNeedsGenerate | src/WalletService/ConfigurationManager.cpp:179-187 | import keys or a seed without `--generate-container` are rejected |
| PaymentService.SeedExcludesKeys | src/WalletService/ConfigurationManager.cpp:189-192 | a seed together with a key is rejected |
| PaymentService.AuthenticateSecret | src/WalletService/ConfigurationManager.cpp:207-217 | without a password and without legacy security, init fails; with a non-empty password the secret is its slow hash; with legacy security and no password the secret is unchanged; the password is empty afterwards |
| PaymentService.ParseFailureExits | src/WalletService/ConfigurationManager.cpp:90-101 | an unparsable command line exits with status 1, after the defaults are set |
| PaymentService.InfoActionsFirst | src/WalletService/ConfigurationManager.cpp:103-112 | help or version exits with status 0 before any file is read |
| PaymentService.FileErrorExits | src/WalletService/ConfigurationManager.cpp:114-127 | a configuration file that cannot be read exits with status 1 |
| PaymentService.CliWinsOverFile | src/WalletService/ConfigurationManager.cpp:114-130 | each setting comes from the command line if given there, else from the file (converted as `get<T>()` converts it) if present there, else keeps its default |
| PaymentService.WritingOptionsExitBeforeRules | src/WalletService/ConfigurationManager.cpp:132-150 | `--dump-config` and `--save-config` exit before any rule is checked |
| PaymentService.GenerateSkipsAuthentication | src/WalletService/ConfigurationManager.cpp:200-203 | with `--generate-container`, init returns once the rules hold, without deriving a secret |
| PaymentService.ReadyMeansChecked | src/WalletService/ConfigurationManager.cpp:38-220 | when init succeeds, the rules hold of the final state, and either a container is being generated or the password has been cleared |
| PaymentService.ConfigurationManager.constructor | src/WalletService/ConfigurationManager.cpp:25-36 | every flag off, the strings empty, the secret the null hash, scan height 0 |
| PaymentService.ConfigurationManager.Validate | src/WalletService/ConfigurationManager.cpp:152-197 | the chain of checks reports the first rule that is broken |
| PaymentService.ConfigurationManager.BindMembers | src/WalletService/ConfigurationManager.cpp:60-77 | the members bound to options take what the parser wrote into them |
| PaymentService.ConfigurationManager.LoadSettings | src/WalletService/ConfigurationManager.cpp:114-130 | the settings become the file overlay followed by the command-line overlay, or are left alone when the file is rejected |
| PaymentService.ConfigurationManager.Finish | src/WalletService/ConfigurationManager.cpp:152-219 | validation, then authentication unless a container is being generated |
| PaymentService.ConfigurationManager.Init | src/WalletService/ConfigurationManager.cpp:38-220 | the whole of `init`: its outcome and the manager's final state |
| DaemonMain.PrintGenesisTxHex | src/Daemon/Daemon.cpp:47-89 | the currency is built first, and its exception ends the action; then the loop parses the reward addresses in order and stops at the first unparsable one; an empty address list is reported as missing when the genesis reward is positive |
| DaemonMain.FirstUnparsable | src/Daemon/Daemon.cpp:56-63 | the address reported is the first address that does not parse |
| DaemonMain.ParsedTargetsExact | src/Daemon/Daemon.cpp:56-65 | the targets are one per address, in order, exactly when every address parses |
| DaemonMain.ParsedTargetsLength | src/Daemon/Daemon.cpp:56-65 | one target per address |
| DaemonMain.GenesisOutcomes | src/Daemon/Daemon.cpp:47-81 | the exception is the outcome exactly when the currency cannot be built; once it is built, missing reward addresses are reported exactly when there are none and the reward is positive, an address is reported exactly when one fails to parse, and the address reported is the first that fails |
| DaemonMain.UnparsableIsFirst | src/Daemon/Daemon.cpp:56-63 | when the parse stops, the address it stops at fails to parse and every address before it parses |
| DaemonMain.Decide | src/Daemon/Daemon.cpp:192-262 | what `main` does before start-up: exit on a parse error, an informational action, a rejected file, a dump or a save, or start with the settings merged by the file overlay and the as-written command-line overlay |
| DaemonMain.InfoActionPriority | src/Daemon/Daemon.cpp:205-224 | help comes before version, version before the OS version, and that before `--print-genesis-tx`, which runs the genesis action on the given reward addresses with block-explorer mode off; none reads the file; each exits with status 0 except when building the currency for the genesis action throws |
| DaemonMain.FileErrorExits | src/Daemon/Daemon.cpp:226-239 | a rejected configuration file exits with status 1 |
| DaemonMain.CliWinsOverFile | src/Daemon/Daemon.cpp:226-242 | each setting other than `localIp` comes from the command line if given there, else from the file (converted) if present there, else keeps its default; `localIp` comes from the file if present there, else from the default, whatever the command line says |
| DaemonMain.DumpBeforeSave | src/Daemon/Daemon.cpp:244-262 | `--dump-config` wins over `--save-config`; both act on the merged settings |
| DaemonMain.Added | src/Daemon/Daemon.cpp:298-318 | one `addCheckpoint` call per checkpoint of the table, in its order |
| DaemonMain.LoadCheckpoints | src/Daemon/Daemon.cpp:298-318 | the loop adds each built-in checkpoint in turn |
| DaemonMain.CheckpointSelection | src/Daemon/Daemon.cpp:298-318 | an empty setting loads nothing, "default" loads the built-in table, and any other value names a file whose loading decides success |
| DaemonMain.PrepareDirectory | src/Daemon/Daemon.cpp:329-342 | the directory step computes the prepared state |
| DaemonMain.DirectoryPolicy | src/Daemon/Daemon.cpp:329-342 | over the whole start-up: the only directory ever created is the data directory, and only when it is the default one; a missing explicit directory ends the run with status 1 before any database call; a successful run either created the default directory or found the explicit one |
| DaemonMain.ScopeExit.constructor | src/Daemon/Daemon.cpp:346 | a new guard is armed |
| DaemonMain.ScopeExit.Cancel | src/Daemon/Daemon.cpp:350 | cancelling disarms the guard |
| DaemonMain.ScopeExit.Resume | src/Daemon/Daemon.cpp:356 | resuming arms it again |
| DaemonMain.OpenDatabase | src/Daemon/Daemon.cpp:344-357 | a guard is created exactly when the first open succeeds; it is armed exactly when the database ends open; a successful step leaves it armed, and a failed one leaves it cancelled or absent; an outdated schema is shut down, destroyed and reopened while the guard is cancelled |
| DaemonMain.DatabaseOpeningLeavesOpen | src/Daemon/Daemon.cpp:344-357 | the database step leaves the database open exactly when it succeeds |
| DaemonMain.Serve | src/Daemon/Daemon.cpp:359-420 | the core, the servers, the loop and the orderly shutdown |
| DaemonMain.ServingLeavesDatabase | src/Daemon/Daemon.cpp:359-420 | serving never opens or closes the database |
| DaemonMain.RunNode | src/Daemon/Daemon.cpp:264-427 | the `try` block of `main`; on every exit from the block, the early one after a failed database step included, the guard's shutdown runs if it is armed |
| DaemonMain.RunDaemon | src/Daemon/Daemon.cpp:127-430 | the whole of `main`: its exit status and the calls it makes |
| DaemonMain.LogLevelFor | src/Daemon/Daemon.cpp:277 | a definition with no contract of its own: the logger's level is ERROR plus the configured level; LoggingFirst states it of the run |
| DaemonMain.LoggingFirst | src/Daemon/Daemon.cpp:266-280 | logging is configured first, at ERROR plus the configured level, into the resolved log file: beside the program with the extension `.log` when none is set, in the program's directory when a bare name is given, and as given when it has a parent path |
| DaemonMain.StartupSucceeds | src/Daemon/Daemon.cpp:264-430 | `main` exits 0 exactly when the currency (built in the configured block-explorer mode), the checkpoints, the directory, the database, the core and P2P all succeed; otherwise it exits 1 |
| DaemonMain.StartupOrder | src/Daemon/Daemon.cpp:266-420 | the exact order of a successful run, from logging through servers stopped, core saved and database shut down |
| DaemonMain.EarlyFailureSkipsDatabase | src/Daemon/Daemon.cpp:287-342 | a failure before the database step exits 1 without any database call |
| DaemonMain.ServingFailureShutsDown | src/Daemon/Daemon.cpp:359-383 | a core or P2P failure after the database opened still ends with the database shut down, and the loop never runs |
| DaemonMain.CheckpointsOnlyCheckpoints | src/Daemon/Daemon.cpp:298-318 | the checkpoint step only makes checkpoint calls |
| DaemonMain.CheckpointsLeaveDatabase | src/Daemon/Daemon.cpp:298-318 | the checkpoint step never touches the database |
| DaemonMain.NoDatabaseCall | src/Daemon/Daemon.cpp:264-342 | a trace without database calls leaves the database as it was |
| DaemonMain.OpensBalanceShutdowns | src/Daemon/Daemon.cpp:344-427 | in a well-ordered trace, opens and shutdowns balance |
| DaemonMain.StartupClosesDatabase | src/Daemon/Daemon.cpp:344-427 | every start-up, successful or not, leaves the database closed, and never shuts it down when it is not open or opens it twice |
| DaemonMain.DatabaseShutDownOnce | src/Daemon/Daemon.cpp:127-430 | over the whole of `main`, the database is closed at exit and every open has exactly one shutdown |
| DaemonMain.NoSubsystemBeforeStart | src/Daemon/Daemon.cpp:192-262 | a run that exits during dispatch makes no subsystem call |
| DaemonMain.DatabaseAfterAllAppend | src/Daemon/Daemon.cpp:344-427 | the database state after two traces in a row is the state after the second, started from the state the first leaves |

## Left out

- Command-line parsing (cxxopts) and the option declarations are not modelled. A parse result is a map from option to the number of times it was typed and its typed value. An option that was not typed has count 0: cxxopts 2.x leaves defaults out of `count()`. The parser is assumed to give values of the declared type only.
- JSON parsing, the text produced by `dump(2)`, and file reading and writing are not modelled. A configuration file is what parsing it yields. `asString` and `asFile` appear only as the result of saving (an abstract `saveConfig`).
- DaemonConfig.HandleFileSettings: when a key of the wrong type throws, the fields read before it have already been assigned. The model returns only the error. Every caller exits with status 1 on it, so the partially updated record is never used.
- AsJson is a ghost infinite map keyed by setting, not a JSON text: a finite map over the key type cannot be built here.
- PaymentService.AuthenticateSecret: `cn_slow_hash` is an abstract function parameter.
- The program's output (help text, the version, log messages, the dumped JSON on the console) is not modelled. Neither are `buildLoggerConfiguration`, `pause_for_input` and `_CrtSetDbgFlag`.
- The Windows-only service options are taken as always declared.
- The OS version string is left out, as are building the genesis transaction and its hex form. The model reports which reward addresses were parsed.
- The signal handler is one event. Concurrency (a signal arriving while the loop runs) is not modelled.
- The subsystems (Core, NodeServer, RpcServer, the RocksDB database, the Dispatcher) are not modelled. Each call into one is an event in the trace. Whether it succeeds or throws is a Boolean of an abstract environment.
- Only the calls listed in that environment can fail: building the currency (on start-up and for the genesis transaction), checkpoint loading, directory creation and the existence test, the database open, the core load and P2P initialisation. Exceptions from anywhere else inside the `try` block are not modelled.
- `isConfigFolderDefaulted` is an abstract predicate. The database directory is taken to be the configured data directory.
- Destructors other than the database guard's are not modelled.
- DaemonMain.LaunchExitCode: the exception from building the currency for the genesis transaction is not caught, so `std::terminate` ends the process through `abort()`. The model gives status 134, which is what a POSIX shell reports for a process killed by SIGABRT. The model does not capture the platform's own abnormal-termination status or the lack of stack unwinding.
- Whether building the currency throws is an abstract predicate of the block-explorer mode. The currency's internals are not modelled.
- DaemonMain.LogLevelFor: the cast to `Logging::Level` is not range checked, so the level is kept as an unbounded integer.
- Sources.Convert: converting a fractional number outside the range of `int` is undefined behaviour in C++. The model truncates it and then narrows it modulo 2^32 as it does an out-of-range integer.
- DaemonConfig.RoundTrip, DaemonConfig.AsJsonApplied, WalletConfig.RoundTrip, WalletConfig.AsJsonApplied: the integer fields are declared `int` in C++ but unbounded here, so these lemmas require them to lie in the range of `int`. An out-of-range value cannot be built in the program.
- The wallet's scan height is declared `uint64_t`. It is modelled as an unbounded integer with no wrap-around.
- The internals of `Checkpoints::addCheckpoint` and of loading checkpoints from a file are left out. The trace records each call.

## Findings

| source | as written | input that shows it | evidently intended | confidence | as-written member | corrected member |
|---|---|---|---|---|---|---|
| src/Daemon/DaemonConfiguration.h:135-138 | the command-line overlay tests `cli.count("local-ip")`, but the option is declared as `allow-local-ip` (src/Daemon/Daemon.cpp:172), so the test never succeeds | `--allow-local-ip` on the command line | the option sets `localIp`, as the same key does in the configuration file (src/Daemon/DaemonConfiguration.h:268-271) | not executed | DaemonConfig.AllowLocalIpCounterexample | DaemonConfig.HandleCliSettings |

The model of `main` (DaemonMain.Decide) runs the overlay as written, DaemonConfig.HandleCliSettingsAsWritten. The corrected overlay is what the option's declaration and the file key show was intended.
