/** The conventional optional value, used for PHP's nullable types. */
module Wrappers {

  datatype Option<+T> = None | Some(value: T)

  /** PHP's `$x ?? $default` on a nullable string. */
  function OrElse(o: Option<string>, default: string): (s: string)
    ensures o.Some? ==> s == o.value
    ensures o.None? ==> s == default
  {
    match o
    case Some(v) => v
    case None => default
  }
}

/**
 * PHP values as the sync command receives them from a decoded JSON response.
 * A PHP array is an ordered sequence of key/value pairs: it is both the list
 * that `foreach` and `end()` walk in insertion order and the map that
 * `$a['key']` reads.
 */
module Php {
  import opened Wrappers

  /** An array key: PHP keys are integers or strings. */
  datatype Key = IntKey(n: int) | StrKey(s: string)

  /** A decoded JSON value. Floats are not modelled. */
  datatype Value =
    | Null
    | Bool(b: bool)
    | Int(i: int)
    | Str(s: string)
    | Arr(entries: seq<Entry>)

  /** One key/value pair of a PHP array. */
  datatype Entry = Entry(key: Key, value: Value)

  /** A string-keyed entry, as written `'key' => value` in PHP. */
  function Field(name: string, v: Value): Entry
  {
    Entry(StrKey(name), v)
  }

  /** `array_key_exists($k, $a)` followed by `$a[$k]`: the first pair with key `k`. */
  function Lookup(a: seq<Entry>, k: Key): (r: Option<Value>)
    ensures r.Some? ==> Entry(k, r.value) in a
    ensures r.None? ==> forall e :: e in a ==> e.key != k
  {
    if a == [] then None
    else if a[0].key == k then Some(a[0].value)
    else Lookup(a[1..], k)
  }

  /** `$a['name'] ?? null`: a missing key reads as null. */
  function Get(a: seq<Entry>, name: string): (v: Value)
    ensures Lookup(a, StrKey(name)).None? ==> v == Null
    ensures Lookup(a, StrKey(name)).Some? ==> v == Lookup(a, StrKey(name)).value
  {
    match Lookup(a, StrKey(name))
    case Some(x) => x
    case None => Null
  }

  /** The values of an array in the order `foreach` visits them. */
  function Values(a: seq<Entry>): (vs: seq<Value>)
    ensures |vs| == |a|
    ensures forall i :: 0 <= i < |a| ==> vs[i] == a[i].value
  {
    if a == [] then [] else [a[0].value] + Values(a[1..])
  }

  // ---------------------------------------------------------------------
  // is_numeric and the (int) cast, restricted to integers and strings of
  // decimal digits with an optional sign.
  // ---------------------------------------------------------------------

  predicate IsDigit(c: char)
  {
    '0' <= c <= '9'
  }

  predicate IsDigits(s: string)
  {
    |s| > 0 && forall i :: 0 <= i < |s| ==> IsDigit(s[i])
  }

  /** A numeric string: decimal digits, optionally preceded by `+` or `-`. */
  predicate IsNumericString(s: string)
  {
    IsDigits(s) || (|s| > 1 && (s[0] == '-' || s[0] == '+') && IsDigits(s[1..]))
  }

  /** `is_numeric($v)` on the values the model has: integers and numeric strings. */
  predicate IsNumeric(v: Value)
  {
    v.Int? || (v.Str? && IsNumericString(v.s))
  }

  /** The number a string of decimal digits denotes. */
  function DigitsValue(s: string): nat
    requires forall i :: 0 <= i < |s| ==> IsDigit(s[i])
  {
    if s == [] then 0
    else
      assert IsDigit(s[|s| - 1]);
      10 * DigitsValue(s[..|s| - 1]) + (s[|s| - 1] as int - '0' as int)
  }

  /** `(int)$s` on a numeric string. */
  function ParseInt(s: string): int
    requires IsNumericString(s)
  {
    if IsDigits(s) then DigitsValue(s) as int
    else if s[0] == '-' then 0 - DigitsValue(s[1..])
    else DigitsValue(s[1..]) as int
  }

  /** `(int)$v` on a numeric value. */
  function ToInt(v: Value): int
    requires IsNumeric(v)
  {
    if v.Int? then v.i else ParseInt(v.s)
  }

  /** The decimal digits of `n`, without leading zeros, as PHP's `(string)` prints them. */
  function NatToDigits(n: nat): (s: string)
    ensures IsDigits(s)
  {
    if n < 10 then [('0' as int + n) as char]
    else NatToDigits(n / 10) + [('0' as int + n % 10) as char]
  }

  /** `(string)$i` for an integer. */
  function IntToString(i: int): (s: string)
    ensures IsNumericString(s)
  {
    if i >= 0 then NatToDigits(i)
    else
      var d := NatToDigits(-i);
      assert ("-" + d)[1..] == d;
      "-" + d
  }

  lemma {:induction false} DigitsRoundTrip(n: nat)
    ensures DigitsValue(NatToDigits(n)) == n
  {
    if n >= 10 {
      var s := NatToDigits(n);
      var p := NatToDigits(n / 10);
      assert s[..|s| - 1] == p;
      DigitsRoundTrip(n / 10);
    }
  }

  /** Printing an integer and casting the string back gives the integer. */
  lemma {:induction false} IntStringRoundTrip(i: int)
    ensures ParseInt(IntToString(i)) == i
  {
    if i >= 0 {
      DigitsRoundTrip(i);
    } else {
      var d := NatToDigits(-i);
      assert ("-" + d)[1..] == d;
      assert ("-" + d)[0] == '-' && !IsDigit('-');
      DigitsRoundTrip(-i);
    }
  }
}
