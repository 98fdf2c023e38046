/**
 The slice of JavaScript value semantics that the three linting rules rely on:
 JSON-like values, truthiness, `typeof`, property access, the `in` operator,
 `Object.keys` membership and the decimal rendering of non-negative integers
 used by template literals and array index keys.
 */
module JsValue {

  /** A JSON-like value as the rules receive it. Numbers are integers. */
  datatype Value =
    | Null
    | Undefined
    | Bool(b: bool)
    | Num(n: int)
    | Str(s: string)
    | Arr(elems: seq<Value>)
    | Obj(props: map<string, Value>)

  datatype Option<T> = None | Some(value: T)

  datatype Exception = TypeError

  /** The result of evaluating JavaScript code: a normal value or a thrown exception. */
  datatype Completion<T> = Normal(value: T) | Abrupt(error: Exception) {
    predicate IsFailure() {
      Abrupt?
    }

    function PropagateFailure<U>(): Completion<U>
      requires Abrupt?
    {
      Abrupt(error)
    }

    function Extract(): T
      requires Normal?
    {
      value
    }
  }

  /** ToBoolean: `null`, `undefined`, `false`, `0` and `""` are the falsy values. */
  predicate Truthy(v: Value): (b: bool)
    ensures !b <==> v in {Null, Undefined, Bool(false), Num(0), Str("")}
  {
    match v
    case Null => false
    case Undefined => false
    case Bool(b) => b
    case Num(n) => n != 0
    case Str(s) => s != ""
    case Arr(_) => true
    case Obj(_) => true
  }

  /** The `typeof` operator; note that `typeof null` is "object". */
  function TypeOf(v: Value): (r: string)
    ensures r == "object" <==> v.Null? || v.Arr? || v.Obj?
    ensures r == "string" <==> v.Str?
  {
    match v
    case Null => "object"
    case Undefined => "undefined"
    case Bool(_) => "boolean"
    case Num(_) => "number"
    case Str(_) => "string"
    case Arr(_) => "object"
    case Obj(_) => "object"
  }

  /** The guard `input && typeof input === "object"` passes exactly for arrays and objects. */
  predicate IsNonNullObject(v: Value): (b: bool)
    ensures b <==> v.Arr? || v.Obj?
  {
    Truthy(v) && TypeOf(v) == "object"
  }

  predicate IsDigit(c: char) {
    '0' <= c <= '9'
  }

  predicate AllDigits(s: string) {
    forall i :: 0 <= i < |s| ==> IsDigit(s[i])
  }

  function DigitChar(d: nat): (c: char)
    requires d < 10
    ensures IsDigit(c) && c as int - '0' as int == d
  {
    ('0' as int + d) as char
  }

  /** The decimal rendering of a non-negative integer, as `String(n)` gives it. */
  function NatToString(n: nat): (r: string)
    ensures |r| >= 1 && AllDigits(r)
    ensures n < 10 ==> |r| == 1
    ensures |r| > 1 ==> r[0] != '0'
  {
    if n < 10 then [DigitChar(n)] else NatToString(n / 10) + [DigitChar(n % 10)]
  }

  /** The number a string of decimal digits denotes. */
  function DigitsValue(s: string): nat
    requires AllDigits(s)
  {
    if s == [] then 0 else DigitsValue(s[..|s| - 1]) * 10 + (s[|s| - 1] as int - '0' as int)
  }

  /** Reading back the decimal rendering of `n` gives `n`. */
  lemma {:induction false} NatToStringRoundTrip(n: nat)
    ensures DigitsValue(NatToString(n)) == n
  {
    var s := NatToString(n);
    if n < 10 {
      assert s[..|s| - 1] == [];
    } else {
      var front := NatToString(n / 10);
      assert s == front + [DigitChar(n % 10)];
      assert s[..|s| - 1] == front;
      NatToStringRoundTrip(n / 10);
    }
  }

  /** Distinct numbers render differently. */
  lemma NatToStringInjective(m: nat, n: nat)
    ensures NatToString(m) == NatToString(n) <==> m == n
  {
    NatToStringRoundTrip(m);
    NatToStringRoundTrip(n);
  }

  /** The array index a property key names: `key` is the canonical rendering of that index. */
  function CanonicalIndex(key: string): Option<nat> {
    if |key| > 0 && AllDigits(key) && NatToString(DigitsValue(key)) == key
    then Some(DigitsValue(key))
    else None
  }

  lemma CanonicalIndexIff(key: string, i: nat)
    ensures CanonicalIndex(key) == Some(i) <==> key == NatToString(i)
  {
    if key == NatToString(i) {
      NatToStringRoundTrip(i);
    }
  }

  lemma CanonicalIndexNames(key: string)
    ensures CanonicalIndex(key).Some? ==> key == NatToString(CanonicalIndex(key).value)
    ensures forall i: nat :: CanonicalIndex(key) == Some(i) <==> key == NatToString(i)
  {
    forall i: nat {
      CanonicalIndexIff(key, i);
    }
  }

  /** A key whose first character is not a digit names no array index. */
  lemma NonDigitKeyIsNoIndex(key: string)
    requires |key| > 0 && !IsDigit(key[0])
    ensures CanonicalIndex(key) == None
  {
  }

  /** `Object.keys(v).includes(key)` for an array or object (JSON arrays have no holes). */
  predicate IsOwnEnumerableKey(v: Value, key: string): (b: bool)
    requires v.Arr? || v.Obj?
    ensures v.Obj? ==> (b <==> key in v.props)
    ensures v.Arr? ==> (b <==> exists i: nat :: i < |v.elems| && key == NatToString(i))
  {
    match v
    case Obj(props) => key in props
    case Arr(elems) =>
      CanonicalIndexNames(key);
      match CanonicalIndex(key)
      case Some(i) => i < |elems|
      case None => false
  }

  /** `key in v` for an array or object: own properties, with an array's `length`. */
  predicate HasProperty(v: Value, key: string)
    requires v.Arr? || v.Obj?
  {
    match v
    case Obj(props) => key in props
    case Arr(elems) => key == "length" || IsOwnEnumerableKey(v, key)
  }

  /** The `in` operator, which throws a TypeError when its right operand is not an object. */
  function In(key: string, v: Value): Completion<bool> {
    if v.Arr? || v.Obj? then Normal(HasProperty(v, key)) else Abrupt(TypeError)
  }

  /** `in` throws exactly on the values the guard `v && typeof v === "object"` rejects. */
  lemma InThrowsIffNotObject(key: string, v: Value)
    ensures In(key, v).Abrupt? <==> !Truthy(v) || TypeOf(v) != "object"
  {
  }

  /**
   On a JSON array or object (which never holds `undefined`), `key in v`
   agrees with "reading `v[key]` does not give `undefined`".
   */
  lemma InAgreesWithGet(key: string, v: Value)
    requires v.Arr? || v.Obj?
    requires v.Obj? ==> forall k :: k in v.props ==> !v.props[k].Undefined?
    requires v.Arr? ==> forall i :: 0 <= i < |v.elems| ==> !v.elems[i].Undefined?
    ensures In(key, v) == Normal(!Get(v, key).Undefined?)
  {
  }

  /** Property access `v[key]` on a value that is not null or undefined. */
  function Get(v: Value, key: string): (r: Value)
    requires !v.Null? && !v.Undefined?
    ensures v.Obj? && IsOwnEnumerableKey(v, key) ==> r == v.props[key]
    ensures v.Arr? && IsOwnEnumerableKey(v, key) ==>
      CanonicalIndex(key).Some? && r == v.elems[CanonicalIndex(key).value]
    ensures (v.Arr? || v.Obj?) && !IsOwnEnumerableKey(v, key) && key != "length" ==> r == Undefined
    ensures v.Bool? || v.Num? ==> r == Undefined
  {
    match v
    case Obj(props) => if key in props then props[key] else Undefined
    case Arr(elems) =>
      if key == "length" then Num(|elems|)
      else (match CanonicalIndex(key)
            case Some(i) => if i < |elems| then elems[i] else Undefined
            case None => Undefined)
    case Str(s) =>
      if key == "length" then Num(|s|)
      else (match CanonicalIndex(key)
            case Some(i) => if i < |s| then Str([s[i]]) else Undefined
            case None => Undefined)
    case _ => Undefined
  }

  /** Reading a non-index key other than `length` finds nothing on anything but an object. */
  lemma GetNamedKey(v: Value, key: string)
    requires !v.Null? && !v.Undefined?
    requires |key| > 0 && !IsDigit(key[0]) && key != "length"
    ensures Get(v, key) == if v.Obj? && key in v.props then v.props[key] else Undefined
  {
  }
}
