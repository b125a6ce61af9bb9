/**
 * Bunyan's numeric severity codes and their names, and the in-place rewrite of a
 * record's `level` field (`LEVEL_NAMES` and `safeRewriteLevel` in index.js).
 *
 * The table is an ordinary JavaScript object, so it is keyed by property-key
 * strings: a number is looked up by its decimal rendering, a string as it is.
 */
module Levels {
  import opened Wrappers

  /**
   * The value read from a record's `level` property. `Undefined` stands for both an
   * absent property and one holding `undefined` (the encoder omits either). `Other`
   * is any remaining value (boolean, null, object, symbol), given by its truthiness
   * and by the property key it converts to, where None means the conversion throws
   * (an object whose `toString` throws). `Inherited(name)` is the value of the property
   * `name` that every plain object inherits from `Object.prototype`: the prototype
   * itself for `__proto__`, a built-in function for the others.
   */
  datatype Level =
    | Undefined
    | Num(n: int)
    | Str(s: string)
    | Other(truthy: bool, key: Option<string>)
    | Inherited(name: string)

  /** JavaScript truthiness of the level value. */
  predicate Truthy(l: Level) {
    match l
    case Undefined => false
    case Num(n) => n != 0
    case Str(s) => s != ""
    case Other(t, _) => t
    case Inherited(_) => true
  }

  /** `LEVEL_NAMES`. */
  const LevelNames: map<string, string> :=
    map["10" := "TRACE", "20" := "DEBUG", "30" := "INFO", "40" := "WARN", "50" := "ERROR", "60" := "FATAL"]

  /**
   * The properties a plain object such as `LEVEL_NAMES` inherits from `Object.prototype`;
   * looking one of them up finds the inherited value rather than nothing.
   */
  const ObjectProtoKeys: set<string> := {
    "__proto__", "constructor", "hasOwnProperty", "isPrototypeOf", "propertyIsEnumerable",
    "toLocaleString", "toString", "valueOf",
    "__defineGetter__", "__defineSetter__", "__lookupGetter__", "__lookupSetter__"}

  function Digit(d: nat): char
    requires d < 10
  {
    "0123456789"[d]
  }

  /** Decimal rendering of a natural number, without leading zeros. */
  function NatDecimal(n: nat): (r: string)
    ensures |r| >= 1
    ensures forall i :: 0 <= i < |r| ==> '0' <= r[i] <= '9'
    ensures n < 10 <==> |r| == 1
  {
    if n < 10 then [Digit(n)] else NatDecimal(n / 10) + [Digit(n % 10)]
  }

  /** `String(n)` for an integer-valued number. */
  function DecimalString(n: int): (r: string)
    ensures |r| >= 1
    ensures r[0] == '-' <==> n < 0
    ensures r[0] == '-' || '0' <= r[0] <= '9'
  {
    if n < 0 then "-" + NatDecimal(-n) else NatDecimal(n)
  }

  /** The property key a level value converts to; None if the conversion throws. */
  function PropertyKey(l: Level): Option<string> {
    match l
    case Undefined => Some("undefined")
    case Num(n) => Some(DecimalString(n))
    case Str(s) => Some(s)
    case Other(_, k) => k
    case Inherited(name) =>
      // Object.prototype renders as "[object Object]"; a built-in function as its source text.
      Some(if name == "__proto__" then "[object Object]" else "function " + name + "() { [native code] }")
  }

  /**
   * The level after `safeRewriteLevel`: a falsy level is kept; a truthy one is replaced
   * by its table entry, by the value inherited from `Object.prototype` under that key,
   * or by `undefined` when there is neither; when reading the table throws, the catch
   * keeps the level.
   */
  function RewriteLevel(l: Level): (r: Level)
    ensures !Truthy(l) ==> r == l
    ensures PropertyKey(l).None? ==> r == l
    ensures r == l || r == Undefined || (r.Str? && r.s in LevelNames.Values) ||
            (r.Inherited? && r.name in ObjectProtoKeys)
  {
    if !Truthy(l) then l
    else match PropertyKey(l)
      case None => l
      case Some(k) => Lookup(k)
  }

  /** `LEVEL_NAMES[key]`: an own entry, else the inherited property, else `undefined`. */
  function Lookup(key: string): Level {
    if key in LevelNames then Str(LevelNames[key])
    else if key in ObjectProtoKeys then Inherited(key)
    else Undefined
  }

  /** No number converts to the name of an inherited property: a number's key starts with a digit or '-'. */
  lemma NumberKeyNotInherited(n: int)
    ensures DecimalString(n) !in ObjectProtoKeys
  {
    assert forall k :: k in ObjectProtoKeys ==> k[0] == '_' || 'a' <= k[0] <= 'z';
  }

  /** Distinct natural numbers have distinct decimal renderings. */
  lemma {:induction false} NatDecimalInjective(a: nat, b: nat)
    requires NatDecimal(a) == NatDecimal(b)
    ensures a == b
  {
    var s := NatDecimal(a);
    if a >= 10 && b >= 10 {
      assert NatDecimal(a / 10) == s[..|s| - 1] == NatDecimal(b / 10);
      NatDecimalInjective(a / 10, b / 10);
      assert Digit(a % 10) == s[|s| - 1] == Digit(b % 10);
    }
  }

  /** Distinct integers have distinct decimal renderings. */
  lemma DecimalStringInjective(a: int, b: int)
    requires DecimalString(a) == DecimalString(b)
    ensures a == b
  {
    if a < 0 {
      assert NatDecimal(-a) == DecimalString(a)[1..] == NatDecimal(-b);
      NatDecimalInjective(-a, -b);
    } else {
      NatDecimalInjective(a, b);
    }
  }

  /**
   * The rewrite of a numeric level: 0 is kept, the six Bunyan codes become their
   * names, and any other number becomes `undefined`.
   */
  lemma RewriteNumericLevel(n: int)
    ensures n == 0 ==> RewriteLevel(Num(n)) == Num(0)
    ensures n == 10 ==> RewriteLevel(Num(n)) == Str("TRACE")
    ensures n == 20 ==> RewriteLevel(Num(n)) == Str("DEBUG")
    ensures n == 30 ==> RewriteLevel(Num(n)) == Str("INFO")
    ensures n == 40 ==> RewriteLevel(Num(n)) == Str("WARN")
    ensures n == 50 ==> RewriteLevel(Num(n)) == Str("ERROR")
    ensures n == 60 ==> RewriteLevel(Num(n)) == Str("FATAL")
    ensures n !in {0, 10, 20, 30, 40, 50, 60} ==> RewriteLevel(Num(n)) == Undefined
  {
    assert DecimalString(10) == "10" && DecimalString(20) == "20" && DecimalString(30) == "30";
    assert DecimalString(40) == "40" && DecimalString(50) == "50" && DecimalString(60) == "60";
    NumberKeyNotInherited(n);
    if n !in {0, 10, 20, 30, 40, 50, 60} && DecimalString(n) in LevelNames {
      var k := DecimalString(n);
      if k == "10" { DecimalStringInjective(n, 10); }
      else if k == "20" { DecimalStringInjective(n, 20); }
      else if k == "30" { DecimalStringInjective(n, 30); }
      else if k == "40" { DecimalStringInjective(n, 40); }
      else if k == "50" { DecimalStringInjective(n, 50); }
      else { DecimalStringInjective(n, 60); }
    }
  }

  /**
   * A string level is looked up as it is: a numeric string finds its name, the name of
   * an inherited property finds the inherited value (`{level: "__proto__"}` gets
   * `Object.prototype`), and any other non-empty string becomes `undefined`.
   */
  lemma RewriteStringLevel(s: string)
    ensures s in LevelNames ==> RewriteLevel(Str(s)) == Str(LevelNames[s])
    ensures s in ObjectProtoKeys ==> RewriteLevel(Str(s)) == Inherited(s)
    ensures s != "" && s !in LevelNames && s !in ObjectProtoKeys ==> RewriteLevel(Str(s)) == Undefined
    ensures RewriteLevel(Str("30")) == Str("INFO")
  {
    assert forall k :: k in ObjectProtoKeys ==> k[0] == '_' || 'a' <= k[0] <= 'z';
  }

  /** An inherited value converts to a key that is neither in the table nor inherited, so rewriting it again stores `undefined`. */
  lemma RewriteInheritedLosesIt(name: string)
    requires name in ObjectProtoKeys
    ensures RewriteLevel(Inherited(name)) == Undefined
  {
    var k := PropertyKey(Inherited(name)).value;
    assert k[0] == '[' || k[0] == 'f';
    assert k !in LevelNames;
    if name != "__proto__" {
      assert k[..9] == "function ";
      assert forall p :: p in ObjectProtoKeys ==> |p| < 9 || p[..9] != "function ";
    }
  }

  /**
   * A name is not a key of the table, so rewriting an already rewritten level
   * replaces the name by `undefined`.
   */
  lemma RewriteTwiceLosesName(n: int)
    requires n in {10, 20, 30, 40, 50, 60}
    ensures RewriteLevel(Num(n)).Str?
    ensures RewriteLevel(RewriteLevel(Num(n))) == Undefined
  {
    RewriteNumericLevel(n);
  }

  /** A record whose `level` property the logger may overwrite; `payload` is the rest of it. */
  class LogRecord<P> {
    var level: Level
    const payload: P

    constructor (level: Level, payload: P)
      ensures this.level == level && this.payload == payload
    {
      this.level := level;
      this.payload := payload;
    }
  }

  /** `safeRewriteLevel(obj)`: overwrites `obj.level` in place, as RewriteLevel says. */
  method SafeRewriteLevel<P>(obj: LogRecord<P>)
    modifies obj
    ensures obj.level == RewriteLevel(old(obj.level))
  {
    if Truthy(obj.level) {
      var key := PropertyKey(obj.level);
      if key.Some? {
        obj.level := Lookup(key.value);
      }
    }
  }
}
