/** The severity mapper of `LoggingCommon`: pino levels, numeric or named,
    become Cloud Logging severities through a table keyed by property name. */
module Severity {
  import opened JsValue

  /** The closed enumeration of Cloud Logging severity names. */
  datatype Severity = Emergency | Alert | Critical | Error | Warning | Notice | Info | Debug

  function Name(s: Severity): string
  {
    match s
    case Emergency => "emergency"
    case Alert => "alert"
    case Critical => "critical"
    case Error => "error"
    case Warning => "warning"
    case Notice => "notice"
    case Info => "info"
    case Debug => "debug"
  }

  /** A severity table. JavaScript object keys are strings, so the numeric
      key `30` of the source's table is the key `"30"` here. */
  type SeverityTable = map<string, Severity>

  /** `DEFAULT_SEVERITY_MAP`: pino's numeric levels and their names. */
  const DefaultSeverityMap: SeverityTable := map[
    "10" := Debug, "trace" := Debug,
    "20" := Debug, "debug" := Debug,
    "30" := Info, "info" := Info,
    "40" := Warning, "warn" := Warning,
    "50" := Error, "error" := Error,
    "60" := Critical, "fatal" := Critical
  ]

  /** `Object.assign({}, DEFAULT_SEVERITY_MAP, pinoLevelSeverity)`: the user's
      overrides laid over the default table. An absent `pinoLevelSeverity`
      is the empty map. */
  function SeverityTableOf(overrides: SeverityTable): SeverityTable
  {
    Assign(DefaultSeverityMap, overrides)
  }

  /** `x / 10` followed by JavaScript's truncation toward zero. */
  function TruncDiv10(x: int): int
  {
    if x >= 0 then x / 10 else -((-x) / 10)
  }

  /** The ToInt32 conversion that `~~` applies: wrap modulo 2^32 into the
      signed 32-bit range. */
  function ToInt32(x: int): (r: int)
    ensures -0x8000_0000 <= r < 0x8000_0000
    ensures -0x8000_0000 <= x < 0x8000_0000 ==> r == x
    ensures (x - r) % 0x1_0000_0000 == 0
  {
    var w := x % 0x1_0000_0000;
    if w >= 0x8000_0000 then w - 0x1_0000_0000 else w
  }

  /** `~~(logLevel / 10) * 10`, then clamped to [10, 60]. */
  function Bucket(level: int): (b: int)
    ensures 10 <= b <= 60 && b % 10 == 0
  {
    var t := ToInt32(TruncDiv10(level)) * 10;
    if t < 10 then 10 else if t > 60 then 60 else t
  }

  /** Levels whose tenth fits in a signed 32-bit integer: here `~~` is a
      plain truncation. */
  predicate SafeLevel(level: int)
  {
    -0x8000_0000 * 10 < level < 0x8000_0000 * 10
  }

  /** The level types `mapSeverity` accepts: `string | number`. */
  predicate IsLevel(v: Value)
  {
    v.Num? || v.Str?
  }

  /** The property key a level is looked up under: the decimal string of
      the bucket for a number, the string itself otherwise. */
  function LevelKey(level: Value): string
    requires IsLevel(level)
  {
    if level.Num? then Decimal(Bucket(level.n)) else level.s
  }

  /** `mapSeverity` of src/LoggingCommon.ts: own-property lookup, falling
      back to `info`. */
  function MapSeverity(table: SeverityTable, level: Value): Severity
    requires IsLevel(level)
  {
    var key := LevelKey(level);
    if key in table then table[key] else Info
  }

  /** `mapSeverity` of dist/src/LoggingCommon.js:
      `(logLevel && map[logLevel]) || "default"`. It is called with the raw
      level, which may be absent. */
  function MapSeverityDist(table: SeverityTable, level: Value): string
    requires IsLevel(level) || level.Undef? || level.Null?
  {
    if level.Num? || (level.Str? && Truthy(level)) then
      var key := LevelKey(level);
      if key in table then Name(table[key]) else "default"
    else
      "default"
  }

  // ---------------------------------------------------------------------
  // Properties

  /** Numeric levels fall in tens buckets clamped to [10, 60]: 35 maps like
      30, 5 and negative levels like 10, 999 like 60. */
  lemma BucketRule(level: int)
    requires SafeLevel(level)
    ensures level < 20 ==> Bucket(level) == 10
    ensures 20 <= level < 70 ==> Bucket(level) == level - level % 10
    ensures level >= 60 ==> Bucket(level) == 60
  {
    var q := TruncDiv10(level);
    assert -0x8000_0000 < q < 0x8000_0000;
    assert ToInt32(q) == q;
    if level >= 0 {
      assert q == level / 10;
      assert level - level % 10 == q * 10;
    } else {
      assert q <= 0;
    }
  }

  /** Beyond the safe range the Int32 wrap of `~~` shows: a level of
      2^31 * 10 lands in the lowest bucket, one less in the highest. */
  lemma BucketWrapsPastInt32()
    ensures Bucket(0x8000_0000 * 10) == 10
    ensures Bucket(0x8000_0000 * 10 - 1) == 60
  {
    assert TruncDiv10(0x8000_0000 * 10) == 0x8000_0000;
    assert ToInt32(0x8000_0000) == -0x8000_0000;
    assert TruncDiv10(0x8000_0000 * 10 - 1) == 0x7fff_ffff;
  }

  /** Every numeric level is looked up under the same key as the string of
      its bucket, and any two levels whose tenth truncates to the same
      integer (5 and 7, -3 and 3, 31 and 35) share a severity. */
  lemma NumericLevelsShareBucket(table: SeverityTable, n: int, m: int)
    requires TruncDiv10(n) == TruncDiv10(m)
    ensures MapSeverity(table, Num(n)) == MapSeverity(table, Num(m))
    ensures MapSeverity(table, Num(n)) == MapSeverity(table, Str(Decimal(Bucket(n))))
  {
  }

  /** Distinct buckets are distinct table keys, and no numeric key is one
      of the level names. */
  lemma NumericKeysDistinct(n: int, m: int)
    ensures Bucket(n) != Bucket(m) ==> LevelKey(Num(n)) != LevelKey(Num(m))
    ensures LevelKey(Num(n)) !in {"trace", "debug", "info", "warn", "error", "fatal"}
  {
    if LevelKey(Num(n)) == LevelKey(Num(m)) {
      DecimalInjective(Bucket(n), Bucket(m));
    }
    var k := LevelKey(Num(n));
    assert '0' <= k[0] <= '9';
  }

  /** The level `10 * d` of a pino level number `d` is looked up under the
      digit of `d` followed by `0`. */
  lemma PinoLevelKey(d: nat)
    requires 1 <= d <= 6
    ensures LevelKey(Num(10 * d)) == [DigitChar(d), '0']
  {
    BucketRule(10 * d);
    assert Bucket(10 * d) == 10 * d;
    assert Decimal(10 * d) == Decimal(d) + [DigitChar(0)];
  }

  /** The numeric levels 10, 20, ..., 60 are looked up under "10", ..., "60". */
  lemma PinoLevelKeys()
    ensures LevelKey(Num(10)) == "10" && LevelKey(Num(20)) == "20"
    ensures LevelKey(Num(30)) == "30" && LevelKey(Num(40)) == "40"
    ensures LevelKey(Num(50)) == "50" && LevelKey(Num(60)) == "60"
  {
    PinoLevelKey(1);
    PinoLevelKey(2);
    PinoLevelKey(3);
    PinoLevelKey(4);
    PinoLevelKey(5);
    PinoLevelKey(6);
  }

  /** With no overrides, pino's numeric levels 10 to 60 map to debug,
      debug, info, warning, error and critical. */
  lemma DefaultSeverities()
    ensures var t := SeverityTableOf(map[]);
      && MapSeverity(t, Num(10)) == Debug && MapSeverity(t, Num(20)) == Debug
      && MapSeverity(t, Num(30)) == Info && MapSeverity(t, Num(40)) == Warning
      && MapSeverity(t, Num(50)) == Error && MapSeverity(t, Num(60)) == Critical
  {
    AssignEmpty(DefaultSeverityMap);
    PinoLevelKeys();
  }

  /** With no overrides, pino's level names map like their numbers. */
  lemma DefaultNamedSeverities()
    ensures var t := SeverityTableOf(map[]);
      && MapSeverity(t, Str("trace")) == Debug && MapSeverity(t, Str("debug")) == Debug
      && MapSeverity(t, Str("info")) == Info && MapSeverity(t, Str("warn")) == Warning
      && MapSeverity(t, Str("error")) == Error && MapSeverity(t, Str("fatal")) == Critical
  {
    AssignEmpty(DefaultSeverityMap);
  }

  /** The table lookup with overrides: a user entry wins, a default entry
      is kept otherwise, and a key in neither falls back to `info`. */
  lemma OverridesWin(overrides: SeverityTable, level: Value)
    requires IsLevel(level)
    ensures var key := LevelKey(level);
      && (key in overrides ==> MapSeverity(SeverityTableOf(overrides), level) == overrides[key])
      && (key !in overrides && key in DefaultSeverityMap ==>
            MapSeverity(SeverityTableOf(overrides), level) == DefaultSeverityMap[key])
      && (key !in overrides && key !in DefaultSeverityMap ==>
            MapSeverity(SeverityTableOf(overrides), level) == Info)
  {
  }

  /** The two revisions agree wherever the level is present and mapped;
      elsewhere the compiled revision answers `default` where src answers
      `info`. */
  lemma RevisionsAgreeWhenMapped(table: SeverityTable, level: Value)
    requires IsLevel(level) || level.Undef? || level.Null?
    ensures MapSeverityDist(table, level) == "default" <==>
      !IsLevel(level) || level == Str("") || LevelKey(level) !in table
    ensures IsLevel(level) && level != Str("") && LevelKey(level) in table ==>
      MapSeverityDist(table, level) == Name(MapSeverity(table, level))
    ensures IsLevel(level) && LevelKey(level) !in table ==> MapSeverity(table, level) == Info
  {
    if IsLevel(level) && level != Str("") && LevelKey(level) in table {
      var s := table[LevelKey(level)];
      assert Name(s) != "default" by { assert Name(s)[0] != 'd' || Name(s) == "debug"; }
    }
  }

  /** The compiled revision's entry severity is the upper-cased mapping:
      40 gives WARNING, 0 gives DEBUG, an absent level DEFAULT. */
  lemma DistUpperCaseSeverities()
    ensures var t := SeverityTableOf(map[]);
      && UpperCase(MapSeverityDist(t, Num(40))) == "WARNING"
      && UpperCase(MapSeverityDist(t, Num(0))) == "DEBUG"
      && UpperCase(MapSeverityDist(t, Undef)) == "DEFAULT"
      && UpperCase(MapSeverityDist(t, Str("notice"))) == "DEFAULT"
  {
    DefaultSeverities();
    var t := SeverityTableOf(map[]);
    assert Bucket(0) == 10;
    assert "notice" !in t;
    UpperCaseNames();
  }

  lemma UpperCaseNames()
    ensures UpperCase("warning") == "WARNING"
    ensures UpperCase("debug") == "DEBUG"
    ensures UpperCase("default") == "DEFAULT"
  {
  }

  // ---------------------------------------------------------------------
  // The severity table is a plain JavaScript object, so the source's
  // lookup `this.#severityMap[logLevel]` also finds the members every
  // object inherits from Object.prototype.

  /** Keys every plain JavaScript object inherits from `Object.prototype`. */
  const ObjectPrototypeKeys: set<string> := {
    "constructor", "hasOwnProperty", "isPrototypeOf", "propertyIsEnumerable",
    "toLocaleString", "toString", "valueOf", "__proto__",
    "__defineGetter__", "__defineSetter__", "__lookupGetter__", "__lookupSetter__"
  }

  /** What a lookup in the table yields: a severity, or an inherited
      prototype member (a function or `Object.prototype` itself). */
  datatype Lookup = Mapped(severity: Severity) | Inherited(member: string)

  /** `this.#severityMap[logLevel] ?? "info"` as written, with JavaScript's
      full property lookup. */
  function MapSeverityAsWritten(table: SeverityTable, level: Value): (r: Lookup)
    requires IsLevel(level)
    ensures r.Inherited? <==> LevelKey(level) !in table && LevelKey(level) in ObjectPrototypeKeys
  {
    var key := LevelKey(level);
    if key in table then Mapped(table[key])
    else if key in ObjectPrototypeKeys then Inherited(key)
    else Mapped(Info)
  }

  /** The compiled revision's entry severity as written:
      `((logLevel && map[logLevel]) || "default").toUpperCase()`. An
      inherited member is truthy, so it survives the `||`; it has no
      `toUpperCase`, so the call throws a TypeError, shown here as `None`. */
  function DistSeverityAsWritten(table: SeverityTable, level: Value): (r: Option<string>)
    requires IsLevel(level) || level.Undef? || level.Null?
    ensures r.None? <==>
      IsLevel(level) && LevelKey(level) !in table && LevelKey(level) in ObjectPrototypeKeys
    ensures r.Some? ==> r.value == UpperCase(MapSeverityDist(table, level))
  {
    if (level.Num? || (level.Str? && Truthy(level)))
       && LevelKey(level) !in table && LevelKey(level) in ObjectPrototypeKeys
    then None
    else Some(UpperCase(MapSeverityDist(table, level)))
  }

  /** A record with level `"toString"` gets a function, not a severity, as
      written in src, and makes the compiled revision's `log` throw; the
      own-property lookup gives `info` and `DEFAULT`. */
  lemma InheritedMemberEscapesEnumeration()
    ensures MapSeverityAsWritten(SeverityTableOf(map[]), Str("toString")) == Inherited("toString")
    ensures MapSeverity(SeverityTableOf(map[]), Str("toString")) == Info
    ensures DistSeverityAsWritten(SeverityTableOf(map[]), Str("toString")) == None
    ensures UpperCase(MapSeverityDist(SeverityTableOf(map[]), Str("toString"))) == "DEFAULT"
  {
    assert "toString" !in SeverityTableOf(map[]);
    UpperCaseNames();
  }

  /** Away from the inherited keys the as-written lookup and the
      own-property lookup agree. */
  lemma AsWrittenAgreesOffPrototype(table: SeverityTable, level: Value)
    requires IsLevel(level)
    requires LevelKey(level) in table || LevelKey(level) !in ObjectPrototypeKeys
    ensures MapSeverityAsWritten(table, level) == Mapped(MapSeverity(table, level))
  {
  }
}
