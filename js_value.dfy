/** JavaScript values as they appear in a pino record and in a log entry's
    metadata, with the few pieces of JavaScript semantics the logging core
    relies on: truthiness, `typeof x === "object"`, property reads that
    default to `undefined`, and the own enumerable properties that object
    spread and `Object.assign` copy. */
module JsValue {

  datatype Option<+T> = None | Some(value: T)

  /** A JSON-like value. `Undef` is `undefined`; `Date` is a `Date` object
      holding epoch milliseconds. Numbers are integers. */
  datatype Value =
    | Undef
    | Null
    | Bool(b: bool)
    | Num(n: int)
    | Str(s: string)
    | Arr(elems: seq<Value>)
    | Obj(fields: map<string, Value>)
    | Date(epochMs: int)

  /** JavaScript truthiness: `undefined`, `null`, `false`, `0` and `""` are falsy. */
  predicate Truthy(v: Value)
  {
    match v
    case Undef => false
    case Null => false
    case Bool(b) => b
    case Num(n) => n != 0
    case Str(s) => s != ""
    case _ => true
  }

  /** `typeof v === "object"`: true for objects, arrays, dates and `null`. */
  predicate TypeofObject(v: Value)
  {
    v.Obj? || v.Arr? || v.Date? || v.Null?
  }

  /** `o[k]` on a plain record: `undefined` when the key is missing. */
  function Get(o: map<string, Value>, k: string): Value
  {
    if k in o then o[k] else Undef
  }

  /** `v.k` on a non-null value whose own properties are the only ones that
      matter for the keys the core reads (`labels`, `resource`, `trace`,
      `spanId`, `traceSampled`): an object's field, otherwise `undefined`. */
  function Prop(v: Value, k: string): Value
  {
    if v.Obj? then Get(v.fields, k) else Undef
  }

  function DigitChar(d: nat): (c: char)
    requires d < 10
    ensures '0' <= c <= '9'
  {
    "0123456789"[d]
  }

  /** The decimal property key of a non-negative integer, as JavaScript
      converts `30` to `"30"` when it is used to index an object. */
  function Decimal(n: nat): (s: string)
    ensures |s| >= 1
    ensures forall i :: 0 <= i < |s| ==> '0' <= s[i] <= '9'
    ensures n < 10 <==> |s| == 1
    ensures n >= 1 ==> s[0] != '0'
    decreases n
  {
    if n < 10 then [DigitChar(n)] else Decimal(n / 10) + [DigitChar(n % 10)]
  }

  /** Distinct integers have distinct decimal keys. */
  lemma {:induction false} DecimalInjective(a: nat, b: nat)
    requires Decimal(a) == Decimal(b)
    ensures a == b
    decreases a
  {
    if a >= 10 && b >= 10 {
      var da, db := Decimal(a), Decimal(b);
      assert da[..|da| - 1] == Decimal(a / 10);
      assert db[..|db| - 1] == Decimal(b / 10);
      DecimalInjective(a / 10, b / 10);
      assert da[|da| - 1] == DigitChar(a % 10);
      assert db[|db| - 1] == DigitChar(b % 10);
    }
  }

  /** The number a string of decimal digits stands for, most significant
      digit first. */
  function DigitsValue(s: string): (n: int)
    requires forall i :: 0 <= i < |s| ==> '0' <= s[i] <= '9'
    ensures n >= 0
    decreases |s|
  {
    if s == [] then 0
    else DigitsValue(s[..|s| - 1]) * 10 + (s[|s| - 1] as int - '0' as int)
  }

  /** The decimal key of `n` reads back as `n`: the digits stand for the
      number, as `String(n)` promises. */
  lemma {:induction false} DecimalValue(n: nat)
    ensures DigitsValue(Decimal(n)) == n
    decreases n
  {
    var s := Decimal(n);
    if n >= 10 {
      assert s[..|s| - 1] == Decimal(n / 10);
      assert s[|s| - 1] == DigitChar(n % 10);
      DecimalValue(n / 10);
      assert "0123456789"[n % 10] as int - '0' as int == n % 10;
    } else {
      assert s[..0] == [];
      assert "0123456789"[n] as int - '0' as int == n;
    }
  }

  /** Index-keyed properties `"0"`, `"1"`, ... of an array or string. */
  function Indexed(elems: seq<Value>): map<string, Value>
    decreases |elems|
  {
    if elems == [] then map[]
    else Indexed(elems[..|elems| - 1])[Decimal(|elems| - 1) := elems[|elems| - 1]]
  }

  /** The own enumerable properties that `{...v}` and `Object.assign({}, v)`
      copy: an object's fields, an array's or a string's indexed elements,
      nothing for `null`, `undefined`, booleans, numbers and dates. */
  function OwnEnumerable(v: Value): map<string, Value>
  {
    match v
    case Obj(m) => m
    case Arr(e) => Indexed(e)
    case Str(s) => Indexed(seq(|s|, i requires 0 <= i < |s| => Str([s[i]])))
    case _ => map[]
  }

  /** `Object.assign({}, base, top)` on own enumerable properties: every key
      of either, the top's value winning on a shared key. */
  function Assign<V>(base: map<string, V>, top: map<string, V>): (r: map<string, V>)
    ensures r.Keys == base.Keys + top.Keys
    ensures forall k :: k in top ==> r[k] == top[k]
    ensures forall k :: k in base && k !in top ==> r[k] == base[k]
  {
    base + top
  }

  /** Overlaying nothing leaves the base as it was. */
  lemma AssignEmpty<V>(base: map<string, V>)
    ensures Assign(base, map[]) == base
  {
  }

  /** `String.prototype.toUpperCase` restricted to ASCII letters. */
  function UpperChar(c: char): char
  {
    if 'a' <= c <= 'z' then (c as int - 32) as char else c
  }

  function UpperCase(s: string): (u: string)
    ensures |u| == |s|
  {
    seq(|s|, i requires 0 <= i < |s| => UpperChar(s[i]))
  }
}
