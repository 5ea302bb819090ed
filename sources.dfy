/**
 * The places a setting can come from, as the configuration code sees them:
 * the parsed command line (a cxxopts ParseResult), a JSON configuration file
 * (an nlohmann::json document read through std::ifstream), and the build-time
 * constants of CryptoNoteConfig.h.  The parsers themselves are not modelled:
 * their results are the inputs here.  Option and file-key names are a type
 * parameter `K`, so that each program names its own options by an enumeration.
 */
module Sources {
  import opened Wrappers

  /** A typed setting value: what `as<T>()` / `get<T>()` hand back. */
  datatype Value =
    | Str(s: string)
    | Int(i: int)
    | Bool(b: bool)
    | Strings(items: seq<string>)

  datatype Kind = StrKind | IntKind | BoolKind | StringsKind

  function KindOf(v: Value): Kind
  {
    match v
    case Str(_) => StrKind
    case Int(_) => IntKind
    case Bool(_) => BoolKind
    case Strings(_) => StringsKind
  }

  // ---------------------------------------------------------------------------
  // Command line

  /**
   * One declared option in a parse result: how many times the user typed it,
   * and the value typed.  When `count` is 0 the value is the declared default
   * (if any), which the code modelled here never reads through the result.
   */
  datatype Arg = Arg(count: nat, value: Value)

  type ParseResult<K> = map<K, Arg>

  /** `cli.count(key)`: 0 for an option that was not typed or is not declared. */
  function Count<K>(cli: ParseResult<K>, key: K): nat
  {
    if key in cli then cli[key].count else 0
  }

  predicate Given<K>(cli: ParseResult<K>, key: K)
  {
    Count(cli, key) > 0
  }

  /**
   * What the option parser guarantees of its result: it holds declared options
   * only (`declared` maps a name to the type it was declared with, or to None
   * for a name that was never declared), each with a value of that type.
   */
  predicate ConformsTo<K>(cli: ParseResult<K>, declared: K -> Option<Kind>)
  {
    forall key :: key in cli ==> declared(key).Some? && KindOf(cli[key].value) == declared(key).value
  }

  // The value of an option once its count has been tested: the typed value
  // when the option was given, `otherwise` when it was not.  The overlays pass
  // the field they would overwrite; a variable bound with
  // `cxxopts::value<T>(var)` gets its declared default (or keeps its initial
  // value when there is none).

  function StringArg<K>(cli: ParseResult<K>, key: K, otherwise: string): string
  {
    if Given(cli, key) && cli[key].value.Str? then cli[key].value.s else otherwise
  }

  function IntArg<K>(cli: ParseResult<K>, key: K, otherwise: int): int
  {
    if Given(cli, key) && cli[key].value.Int? then cli[key].value.i else otherwise
  }

  function BoolArg<K>(cli: ParseResult<K>, key: K, otherwise: bool): bool
  {
    if Given(cli, key) && cli[key].value.Bool? then cli[key].value.b else otherwise
  }

  function StringsArg<K>(cli: ParseResult<K>, key: K, otherwise: seq<string>): seq<string>
  {
    if Given(cli, key) && cli[key].value.Strings? then cli[key].value.items else otherwise
  }

  // `if (cli.count(key) > 0) field = cli[key].as<T>();` for each value type.
  // cxxopts only returns values of the declared type, so a value of another
  // type never reaches these (see ConformsTo); they leave the field alone.

  method OverrideString<K>(cli: ParseResult<K>, key: K, field: string) returns (r: string)
    ensures r == StringArg(cli, key, field)
  {
    r := field;
    if Count(cli, key) > 0 && cli[key].value.Str? {
      r := cli[key].value.s;
    }
  }

  method OverrideInt<K>(cli: ParseResult<K>, key: K, field: int) returns (r: int)
    ensures r == IntArg(cli, key, field)
  {
    r := field;
    if Count(cli, key) > 0 && cli[key].value.Int? {
      r := cli[key].value.i;
    }
  }

  method OverrideBool<K>(cli: ParseResult<K>, key: K, field: bool) returns (r: bool)
    ensures r == BoolArg(cli, key, field)
  {
    r := field;
    if Count(cli, key) > 0 && cli[key].value.Bool? {
      r := cli[key].value.b;
    }
  }

  method OverrideStrings<K>(cli: ParseResult<K>, key: K, field: seq<string>) returns (r: seq<string>)
    ensures r == StringsArg(cli, key, field)
  {
    r := field;
    if Count(cli, key) > 0 && cli[key].value.Strings? {
      r := cli[key].value.items;
    }
  }

  // ---------------------------------------------------------------------------
  // Configuration file

  /**
   * A member of the JSON document.  `Typed` carries a string, an integer, a
   * boolean or an array of strings; `Fractional` is a number written with a
   * fraction or an exponent (a `number_float`); `Untyped` is any other JSON
   * value (null, an object, a mixed array), which every conversion used here
   * rejects.
   */
  datatype Json = Typed(value: Value) | Fractional(x: real) | Untyped

  /**
   * The parsed document, with its members keyed by the names the reader looks
   * up; `find` on anything but an object finds no key.
   */
  datatype JsonDoc<!K> = Object(members: imap<K, Json>) | NotObject

  function Members<K>(doc: JsonDoc<K>): imap<K, Json>
  {
    if doc.Object? then doc.members else imap[]
  }

  /** What opening and parsing a configuration file path yields. */
  datatype ConfigFile<!K> = Unreadable | Unparsable | Parsed(doc: JsonDoc<K>)

  /** The exceptions the file overlays raise. */
  datatype FileError =
    | CannotOpen    // !data.good(): "The --config-file you specified does not exist"
    | ParseFailure  // `data >> j` threw
    | WrongType     // `j[key].get<T>()` threw a type error

  // The range of a C++ `int`.
  const IntMin: int := -0x8000_0000
  const IntMax: int := 0x7fff_ffff
  const IntModulus: int := 0x1_0000_0000

  predicate InIntRange(i: int)
  {
    IntMin <= i <= IntMax
  }

  /** `static_cast<int>` of a wider integer: the value modulo 2^32, in the range of `int`. */
  function NarrowInt(i: int): (r: int)
    ensures InIntRange(r)
    ensures (r - i) % IntModulus == 0
    ensures InIntRange(i) ==> r == i
  {
    var offset := (i - IntMin) % IntModulus;
    var q := (i - IntMin) / IntModulus;
    assert i - IntMin == q * IntModulus + offset;
    assert offset + IntMin - i == (-q) * IntModulus;
    offset + IntMin
  }

  /** The conversion of a floating-point number to an integer type: truncation toward zero. */
  function Truncate(x: real): (r: int)
    ensures 0.0 <= x ==> 0 <= r && r as real <= x < r as real + 1.0
    ensures x < 0.0 ==> r <= 0 && r as real - 1.0 < x <= r as real
  {
    if 0.0 <= x then x.Floor else -((-x).Floor)
  }

  /**
   * `get<T>()` for the kind T.  A string, a boolean and an array of strings
   * convert only from their own JSON type.  `get<int>()` converts every number
   * and a boolean: a fraction is truncated toward zero, a boolean is 0 or 1, and
   * the result is narrowed to `int`.  Every other member is a type error.
   */
  function Convert(j: Json, k: Kind): (r: Option<Value>)
    ensures r.Some? ==> KindOf(r.value) == k
    ensures k != IntKind ==> (r.Some? <==> j.Typed? && KindOf(j.value) == k)
    ensures k != IntKind && r.Some? ==> r.value == j.value
    ensures k == IntKind ==> (r.Some? <==> j.Fractional? || (j.Typed? && (j.value.Int? || j.value.Bool?)))
    ensures k == IntKind && r.Some? ==> InIntRange(r.value.i)
    ensures k == IntKind && j.Typed? && j.value.Int? && InIntRange(j.value.i) ==> r == Some(j.value)
    ensures k == IntKind && j.Typed? && j.value.Bool? ==> r == Some(Int(if j.value.b then 1 else 0))
    ensures k == IntKind && j.Fractional? && InIntRange(Truncate(j.x)) ==> r == Some(Int(Truncate(j.x)))
  {
    match k
    case IntKind =>
      (match j
       case Typed(Int(i)) => Some(Int(NarrowInt(i)))
       case Typed(Bool(b)) => Some(Int(if b then 1 else 0))
       case Fractional(x) => Some(Int(NarrowInt(Truncate(x))))
       case _ => None)
    case _ => if j.Typed? && KindOf(j.value) == k then Some(j.value) else None
  }

  /**
   * What `get<int>()` makes of a port written as a fraction, of a boolean and
   * of a number beyond the range of `int`.
   */
  lemma IntConversions()
    ensures Convert(Fractional(11897.75), IntKind) == Some(Int(11897))
    ensures Convert(Fractional(-2.5), IntKind) == Some(Int(-2))
    ensures Convert(Typed(Bool(true)), IntKind) == Some(Int(1))
    ensures Convert(Typed(Int(4294978193)), IntKind) == Some(Int(10897))
    ensures Convert(Typed(Int(11897)), StrKind) == None
  {
    assert Truncate(11897.75) == 11897;
    assert Truncate(-2.5) == -2;
  }

  /** Reading `key` as kind `k` does not throw: the key is absent, or it converts. */
  predicate Readable<K>(m: imap<K, Json>, key: K, k: Kind)
  {
    key in m ==> Convert(m[key], k).Some?
  }

  // The value read for a file key: the member when present and convertible
  // (for an integer, converted as `get<int>()` does), `otherwise` when the key
  // is absent.

  function StringMember<K>(m: imap<K, Json>, key: K, otherwise: string): string
  {
    if key in m && m[key].Typed? && m[key].value.Str? then m[key].value.s else otherwise
  }

  function IntMember<K>(m: imap<K, Json>, key: K, otherwise: int): int
  {
    if key in m && Convert(m[key], IntKind).Some? then Convert(m[key], IntKind).value.i else otherwise
  }

  function BoolMember<K>(m: imap<K, Json>, key: K, otherwise: bool): bool
  {
    if key in m && m[key].Typed? && m[key].value.Bool? then m[key].value.b else otherwise
  }

  function StringsMember<K>(m: imap<K, Json>, key: K, otherwise: seq<string>): seq<string>
  {
    if key in m && m[key].Typed? && m[key].value.Strings? then m[key].value.items else otherwise
  }

  // `if (j.find(key) != j.end()) field = j[key].get<T>();` for each value type:
  // a present member of another type makes `get<T>()` throw.

  method ReadString<K>(m: imap<K, Json>, key: K, field: string) returns (r: Result<string, FileError>)
    ensures r == if Readable(m, key, StrKind) then Ok(StringMember(m, key, field)) else Err(WrongType)
  {
    r := Ok(field);
    if key in m {
      var v := Convert(m[key], StrKind);
      if v.None? {
        return Err(WrongType);
      }
      r := Ok(v.value.s);
    }
  }

  method ReadInt<K>(m: imap<K, Json>, key: K, field: int) returns (r: Result<int, FileError>)
    ensures r == if Readable(m, key, IntKind) then Ok(IntMember(m, key, field)) else Err(WrongType)
  {
    r := Ok(field);
    if key in m {
      var v := Convert(m[key], IntKind);
      if v.None? {
        return Err(WrongType);
      }
      r := Ok(v.value.i);
    }
  }

  method ReadBool<K>(m: imap<K, Json>, key: K, field: bool) returns (r: Result<bool, FileError>)
    ensures r == if Readable(m, key, BoolKind) then Ok(BoolMember(m, key, field)) else Err(WrongType)
  {
    r := Ok(field);
    if key in m {
      var v := Convert(m[key], BoolKind);
      if v.None? {
        return Err(WrongType);
      }
      r := Ok(v.value.b);
    }
  }

  method ReadStrings<K>(m: imap<K, Json>, key: K, field: seq<string>) returns (r: Result<seq<string>, FileError>)
    ensures r == if Readable(m, key, StringsKind) then Ok(StringsMember(m, key, field)) else Err(WrongType)
  {
    r := Ok(field);
    if key in m {
      var v := Convert(m[key], StringsKind);
      if v.None? {
        return Err(WrongType);
      }
      r := Ok(v.value.items);
    }
  }

  // ---------------------------------------------------------------------------
  // Build constants and collaborators kept abstract

  /** Log levels of the Logging::Level enumeration. */
  const LogFatal: int := 0
  const LogError: int := 1
  const LogWarning: int := 2
  const LogInfo: int := 3
  const LogDebugging: int := 4
  const LogTrace: int := 5

  /** The constants of CryptoNoteConfig.h the configuration code reads. */
  datatype BuildConstants = BuildConstants(
    cryptonoteName: string,
    p2pDefaultPort: int,
    rpcDefaultPort: int,
    serviceDefaultPort: int,
    dbDefaultMaxOpenFiles: int,
    dbReadBufferMbDefault: int,
    dbDefaultBackgroundThreads: int,
    dbWriteBufferMbDefault: int,
    genesisBlockReward: int)

  /** The path helpers of Common/PathTools.h, kept abstract. */
  datatype PathTools = PathTools(
    nativeToGeneric: string -> string,
    replaceExtension: (string, string) -> string,
    hasParentPath: string -> bool,
    directoryOf: string -> string,
    combine: (string, string) -> string)
}
