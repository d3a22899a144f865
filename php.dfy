/**
 * The slice of PHP's runtime the health-check library relies on: optional
 * values, the values its serialisers build (arrays, objects, scalars),
 * exceptions as values, `implode`, decimal formatting of integers and the
 * `(object)` cast.
 */
module Php {

  datatype Option<+T> = None | Some(value: T)

  /** A thrown PHP exception: its class name, message and code. */
  datatype Throwable = Throwable(className: string, message: string, code: int)

  /** What a PHP call does: it returns a value or it throws. */
  datatype Outcome<+T> = Return(value: T) | Throw(thrown: Throwable)

  /** `new \InvalidArgumentException($message)`: code 0. */
  function InvalidArgumentException(message: string): (e: Throwable)
    ensures e.message == message && e.code == 0
  {
    Throwable("InvalidArgumentException", message, 0)
  }

  /**
   * A PHP value as the serialisers build it. `VArray` is an array with
   * string keys in insertion order, `VList` an array with the keys
   * 0 .. n-1, `VObject` an instance of stdClass.
   */
  datatype Value =
    | VNull
    | VBool(b: bool)
    | VInt(i: int)
    | VString(s: string)
    | VList(items: seq<Value>)
    | VArray(entries: seq<(string, Value)>)
    | VObject(properties: seq<(string, Value)>)

  /** `array_keys`: the keys of a string-keyed array, in order. */
  function Keys(entries: seq<(string, Value)>): (ks: seq<string>)
    ensures |ks| == |entries|
    ensures forall i | 0 <= i < |entries| :: ks[i] == entries[i].0
  {
    if entries == [] then [] else [entries[0].0] + Keys(entries[1..])
  }

  /** `$array[$key] ?? null` on a string-keyed array without duplicate keys. */
  function Lookup(entries: seq<(string, Value)>, key: string): (r: Option<Value>)
    ensures r.None? <==> key !in Keys(entries)
    ensures r.Some? ==> exists i | 0 <= i < |entries| :: entries[i] == (key, r.value)
  {
    if entries == [] then None
    else if entries[0].0 == key then Some(entries[0].1)
    else Lookup(entries[1..], key)
  }

  /** An array of four entries under four different keys. */
  lemma FourEntries(k0: string, v0: Value, k1: string, v1: Value, k2: string, v2: Value, k3: string, v3: Value)
    requires k0 != k1 && k0 != k2 && k0 != k3 && k1 != k2 && k1 != k3 && k2 != k3
    ensures var a := [(k0, v0), (k1, v1), (k2, v2), (k3, v3)];
      && Keys(a) == [k0, k1, k2, k3]
      && Lookup(a, k0) == Some(v0) && Lookup(a, k1) == Some(v1)
      && Lookup(a, k2) == Some(v2) && Lookup(a, k3) == Some(v3)
  {
    var a := [(k0, v0), (k1, v1), (k2, v2), (k3, v3)];
    FourKeys(a);
    assert a[1..] == [(k1, v1), (k2, v2), (k3, v3)];
    assert a[1..][1..] == [(k2, v2), (k3, v3)];
    assert a[1..][1..][1..] == [(k3, v3)];
  }

  lemma FourKeys(a: seq<(string, Value)>)
    requires |a| == 4
    ensures Keys(a) == [a[0].0, a[1].0, a[2].0, a[3].0]
  {
  }

  // ---------------------------------------------------------------------
  // Decimal digits
  // ---------------------------------------------------------------------

  predicate IsDigit(c: char) {
    '0' <= c <= '9'
  }

  predicate AllDigits(s: string) {
    forall i | 0 <= i < |s| :: IsDigit(s[i])
  }

  function DigitChar(d: nat): (c: char)
    requires d < 10
    ensures IsDigit(c)
  {
    ('0' as int + d) as char
  }

  function DigitValue(c: char): (d: nat)
    requires IsDigit(c)
    ensures d < 10 && DigitChar(d) == c
  {
    (c as int - '0' as int) as nat
  }

  /** The decimal digits of `n`, without leading zeros. */
  function NatToString(n: nat): (s: string)
    ensures |s| >= 1 && AllDigits(s)
    ensures |s| > 1 ==> s[0] != '0'
  {
    if n < 10 then [DigitChar(n)] else NatToString(n / 10) + [DigitChar(n % 10)]
  }

  /** PHP's `(string) $int`, `%d` and `%s` of an int. */
  function IntToString(i: int): (s: string)
    ensures |s| >= 1
    ensures i < 0 <==> s[0] == '-'
  {
    if i < 0 then "-" + NatToString(-i) else NatToString(i)
  }

  /** The value of a string of decimal digits, as `(int)` reads it. */
  function DigitsValue(s: string): (n: nat)
    requires AllDigits(s)
  {
    if s == [] then 0 else DigitsValue(s[..|s| - 1]) * 10 + DigitValue(s[|s| - 1])
  }

  /** Reading back the digits `NatToString` wrote gives the number again. */
  lemma {:induction false} DigitsValueOfNatToString(n: nat)
    ensures DigitsValue(NatToString(n)) == n
  {
    if n >= 10 {
      var s := NatToString(n / 10) + [DigitChar(n % 10)];
      assert s[..|s| - 1] == NatToString(n / 10);
      DigitsValueOfNatToString(n / 10);
    }
  }

  /** Different numbers print differently. */
  lemma NatToStringInjective(m: nat, n: nat)
    requires NatToString(m) == NatToString(n)
    ensures m == n
  {
    DigitsValueOfNatToString(m);
    DigitsValueOfNatToString(n);
  }

  lemma DropSign(digits: string)
    ensures ("-" + digits)[1..] == digits
  {
  }

  /** Different integers print differently, the sign included. */
  lemma IntToStringInjective(a: int, b: int)
    requires IntToString(a) == IntToString(b)
    ensures a == b
  {
    if a < 0 {
      assert b < 0;
      DropSign(NatToString(-a));
      DropSign(NatToString(-b));
      NatToStringInjective(-a, -b);
    } else {
      assert b >= 0;
      NatToStringInjective(a, b);
    }
  }

  // ---------------------------------------------------------------------
  // Strings
  // ---------------------------------------------------------------------

  /** `str_starts_with($s, $prefix)`. */
  predicate StartsWith(s: string, prefix: string) {
    |prefix| <= |s| && s[..|prefix|] == prefix
  }

  /** `implode($separator, $parts)`. */
  function Join(separator: string, parts: seq<string>): (s: string)
    ensures parts == [] ==> s == ""
    ensures |parts| == 1 ==> s == parts[0]
  {
    if parts == [] then ""
    else if |parts| == 1 then parts[0]
    else parts[0] + separator + Join(separator, parts[1..])
  }

  /** Joining one more part adds the separator and the part at the end. */
  lemma {:induction false} JoinSnoc(separator: string, parts: seq<string>, last: string)
    requires parts != []
    ensures Join(separator, parts + [last]) == Join(separator, parts) + separator + last
  {
    if |parts| > 1 {
      assert (parts + [last])[1..] == parts[1..] + [last];
      JoinSnoc(separator, parts[1..], last);
    }
  }

  /** With a non-empty separator, `implode` is empty only for no parts or one empty part. */
  lemma {:induction false} JoinEmpty(separator: string, parts: seq<string>)
    requires separator != []
    ensures Join(separator, parts) == "" <==> parts == [] || parts == [""]
  {
    if |parts| > 1 {
      assert |Join(separator, parts)| >= |separator|;
    }
  }

  // ---------------------------------------------------------------------
  // The (object) cast
  // ---------------------------------------------------------------------

  /** The properties `(object)` gives a list: its indexes, as strings, as keys. */
  function IndexedProperties(items: seq<Value>, from: nat): (props: seq<(string, Value)>)
    ensures |props| == |items|
    ensures forall i | 0 <= i < |items| :: props[i] == (IntToString(from + i), items[i])
  {
    if items == [] then [] else [(IntToString(from), items[0])] + IndexedProperties(items[1..], from + 1)
  }

  /**
   * PHP's `(object) $value`: an array becomes an object with the same
   * properties, null an empty object, an object stays as it is, and any
   * other scalar an object whose one property `scalar` holds it.
   */
  function CastToObject(v: Value): (o: Value)
    ensures o.VObject?
    ensures v.VArray? ==> o.properties == v.entries
    ensures v.VObject? ==> o == v
    ensures v.VNull? ==> o.properties == []
  {
    match v
    case VNull => VObject([])
    case VArray(entries) => VObject(entries)
    case VList(items) => VObject(IndexedProperties(items, 0))
    case VObject(_) => v
    case _ => VObject([("scalar", v)])
  }
}
