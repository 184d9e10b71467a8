/** The fragment of PHP's value semantics that the contact-form service relies on:
    dynamically typed values, `empty()`, reading an array element, the cast of a
    value to an array key and the cast of a value to a string. */
module Php {

  datatype Option<+T> = None | Some(value: T)

  /** A PHP value as it reaches the service: an absent parameter or key reads as
      `Null`; an array is a map from (canonical) keys to values. Floats and objects
      are not part of this model. */
  datatype Value =
    | Null
    | Bool(b: bool)
    | Int(i: int)
    | Str(s: string)
    | Arr(entries: map<string, Value>)

  /** PHP's `empty()`: null, false, 0, "", "0" and the empty array are empty;
      every other value is not. */
  predicate Empty(v: Value)
  {
    match v
    case Null => true
    case Bool(b) => !b
    case Int(i) => i == 0
    case Str(s) => s == "" || s == "0"
    case Arr(m) => |m| == 0
  }

  /** `$v[$key]` for a string key: reading an array is the lookup of the string `key`,
      and reading anything else gives null. A missing key also reads as null, as
      plain PHP does after its "undefined index" notice. */
  function Index(v: Value, key: string): (r: Value)
    ensures v.Arr? ==> r == Lookup(v.entries, Str(key))
    ensures !v.Arr? ==> r == Null
  {
    match v
    case Arr(m) => if key in m then m[key] else Null
    case _ => Null
  }

  /** The digit character for 0..9. */
  function DigitChar(d: int): (c: char)
    requires 0 <= d < 10
    ensures '0' <= c <= '9'
    ensures c as int - '0' as int == d
  {
    (48 + d) as char
  }

  predicate IsDigits(s: string)
  {
    forall k :: 0 <= k < |s| ==> '0' <= s[k] <= '9'
  }

  /** The number a digit string denotes, read most significant digit first. */
  function DecimalValue(s: string): nat
    requires IsDigits(s)
  {
    if s == [] then 0 else 10 * DecimalValue(s[..|s| - 1]) + (s[|s| - 1] as int - '0' as int)
  }

  /** Decimal notation of a natural number, most significant digit first, without
      leading zeros. */
  function NatToString(n: nat): (r: string)
    ensures |r| > 0 && IsDigits(r)
    ensures DecimalValue(r) == n
    ensures n < 10 <==> |r| == 1
    ensures r[0] == '0' <==> n == 0
    decreases n
  {
    if n < 10 then [DigitChar(n)]
    else
      var front := NatToString(n / 10);
      var r := front + [DigitChar(n % 10)];
      assert r[..|r| - 1] == front;
      r
  }

  /** PHP's decimal rendering of an integer, as used when an integer becomes an array
      key or is concatenated into a string: a minus sign for negatives, then the
      digits of the magnitude. */
  function IntToString(i: int): (r: string)
    ensures |r| > 0
    ensures r[0] == '-' <==> i < 0
    ensures i >= 0 ==> IsDigits(r) && DecimalValue(r) == i
    ensures i < 0 ==> IsDigits(r[1..]) && DecimalValue(r[1..]) == -i
    ensures i >= 0 ==> (r[0] == '0' <==> i == 0)
    ensures i < 0 ==> |r| > 1 && r[1] != '0'
    ensures 0 <= i < 10 <==> |r| == 1
  {
    if i < 0 then
      var r := "-" + NatToString(-i);
      assert r[1..] == NatToString(-i);
      r
    else NatToString(i)
  }

  /** Distinct integers have distinct decimal renderings, so distinct integer handles
      select distinct keys. */
  lemma IntToStringInjective(i: int, j: int)
    ensures IntToString(i) == IntToString(j) <==> i == j
  {
    if IntToString(i) == IntToString(j) {
      var r := IntToString(i);
      if i < 0 {
        assert -i == DecimalValue(r[1..]) == -j;
      } else {
        assert i == DecimalValue(r) == j;
      }
    }
  }

  /** The key that `$array[$v]` looks up: null reads key "", a boolean reads key 0 or
      1, an integer reads its decimal key and a string reads itself. An array is an
      illegal offset: under PHP 7.4 the read warns and yields null, so it finds no key
      (`None`). */
  function ArrayKey(v: Value): (k: Option<string>)
    ensures k.None? <==> v.Arr?
    ensures v.Str? ==> k == Some(v.s)
    ensures v.Int? ==> k == Some(IntToString(v.i))
  {
    match v
    case Null => Some("")
    case Bool(b) => Some(if b then "1" else "0")
    case Int(i) => Some(IntToString(i))
    case Str(s) => Some(s)
    case Arr(_) => None
  }

  /** `$m[$v]` on an associative array: the element under the key `v` casts to,
      or null when there is no such element. */
  function Lookup(m: map<string, Value>, v: Value): (r: Value)
    ensures r != Null ==> ArrayKey(v).Some? && ArrayKey(v).value in m && r == m[ArrayKey(v).value]
    ensures ArrayKey(v).Some? && ArrayKey(v).value in m ==> r == m[ArrayKey(v).value]
  {
    match ArrayKey(v)
    case Some(k) => if k in m then m[k] else Null
    case None => Null
  }

  /** PHP's key casting as the form lookup sees it: a string selects the entry under
      itself, an integer the same entry as its decimal string, false the same as 0 and
      "0", true the same as 1 and "1", and null the same as "". */
  lemma LookupKeyCasting(m: map<string, Value>, i: int)
    ensures Lookup(m, Int(i)) == Lookup(m, Str(IntToString(i)))
    ensures Lookup(m, Bool(false)) == Lookup(m, Int(0)) == Lookup(m, Str("0"))
    ensures Lookup(m, Bool(true)) == Lookup(m, Int(1)) == Lookup(m, Str("1"))
    ensures Lookup(m, Null) == Lookup(m, Str(""))
    ensures forall s :: Lookup(m, Str(s)) == (if s in m then m[s] else Null)
  {
    SmallIntKeys();
    assert ArrayKey(Bool(false)) == ArrayKey(Int(0)) == ArrayKey(Str("0"));
    assert ArrayKey(Bool(true)) == ArrayKey(Int(1)) == ArrayKey(Str("1"));
  }

  lemma SmallIntKeys()
    ensures IntToString(0) == "0" && IntToString(1) == "1"
  {
    assert NatToString(0) == [DigitChar(0)];
    assert NatToString(1) == [DigitChar(1)];
  }

  /** The string a value turns into under PHP's `.` operator: null and false give "",
      true gives "1", an array gives "Array". */
  function ToString(v: Value): (r: string)
    ensures v.Str? ==> r == v.s
    ensures v.Null? ==> r == ""
  {
    match v
    case Null => ""
    case Bool(b) => if b then "1" else ""
    case Int(i) => IntToString(i)
    case Str(s) => s
    case Arr(_) => "Array"
  }

  /** For every value but an array, `empty()` holds exactly when the value's string
      form is "" or "0": null, false, 0, "" and "0" are empty, and true, every other
      integer and every other string are not. */
  lemma EmptyScalarsAsStrings(v: Value)
    ensures !v.Arr? ==> (Empty(v) <==> ToString(v) == "" || ToString(v) == "0")
  {
    match v
    case Int(i) =>
      if i == 0 {
        assert ToString(v) == [DigitChar(0)] == "0";
      } else {
        assert ToString(v) == IntToString(i);
        assert ToString(v)[0] != '0';
        assert ToString(v) != "0";
      }
    case _ =>
  }

  /** An empty value that can be used as a key casts to one of exactly two keys,
      "" and "0". */
  lemma EmptyValueKeys(v: Value)
    requires Empty(v) && ArrayKey(v).Some?
    ensures ArrayKey(v).value == "" || ArrayKey(v).value == "0"
  {
    if v.Int? {
      assert v.i == 0;
      assert IntToString(0) == [DigitChar(0)];
    }
  }
}
