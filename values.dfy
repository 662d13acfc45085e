/** JavaScript values as the server's plain objects hold them, with the few
    language rules the core relies on: truthiness, `||` defaulting, strict
    equality, relational comparison and integer-to-string conversion. */
module Values {

  datatype Option<T> = None | Some(value: T)

  /** The ways a step of the pipeline can throw. */
  datatype Error =
    | TypeError(what: string)        // a property read or call on the wrong kind of value
    | GeometryError(what: string)    // the geometry library rejected its input
    | ProviderError(what: string)    // the position feed failed
    | Unmodelled(what: string)       // a JavaScript conversion this model does not spell out

  /** A step's outcome; a thrown error propagates with `:-`. */
  datatype Result<T> = Ok(value: T) | Err(error: Error)
  {
    predicate IsFailure() { Err? }

    function PropagateFailure<U>(): Result<U>
      requires Err?
    {
      Err(error)
    }

    function Extract(): T
      requires Ok?
    {
      value
    }
  }

  /** A JavaScript value. Numbers are reals (no NaN, no infinities); a Date
      object is its epoch milliseconds; arrays and plain objects nest. */
  datatype Value =
    | Undefined
    | Null
    | Bool(b: bool)
    | Num(n: real)
    | Str(s: string)
    | Date(ms: int)
    | Arr(items: seq<Value>)
    | Obj(fields: map<string, Value>)

  /** A plain object: the records every collection holds. A key mapped to
      `Undefined` is an own property whose value is `undefined`. */
  type Doc = map<string, Value>

  /** `d[key]`: a missing property reads as `undefined`. */
  function Get(d: Doc, key: string): Value
  {
    if key in d then d[key] else Undefined
  }

  /** JavaScript truthiness. */
  predicate Truthy(v: Value)
  {
    match v
    case Undefined => false
    case Null => false
    case Bool(b) => b
    case Num(n) => n != 0.0
    case Str(s) => s != ""
    case _ => true
  }

  /** `v || fallback`. */
  function Or(v: Value, fallback: Value): (r: Value)
    ensures Truthy(v) ==> r == v
    ensures !Truthy(v) ==> r == fallback
  {
    if Truthy(v) then v else fallback
  }

  /** `v.key` on any value: reading a property of `undefined` or `null`
      throws; a value that is not a plain object has none of the properties
      this model reads (`lat`, `lon`, `coordinates`, ...). */
  function Prop(v: Value, key: string): (r: Result<Value>)
    ensures v.Obj? ==> r == Ok(Get(v.fields, key))
    ensures v.Undefined? || v.Null? ==> r.Err? && r.error.TypeError?
    ensures !v.Obj? && !v.Undefined? && !v.Null? ==> r == Ok(Undefined)
  {
    match v
    case Undefined => Err(TypeError("cannot read properties of undefined"))
    case Null => Err(TypeError("cannot read properties of null"))
    case Obj(fields) => Ok(Get(fields, key))
    case _ => Ok(Undefined)
  }

  /** `typeof v === 'object' && v !== null`. */
  predicate IsObject(v: Value)
  {
    v.Date? || v.Arr? || v.Obj?
  }

  /** JavaScript's white space and line terminators, which `Number(text)`
      and `parseInt` skip around a number. */
  predicate JsSpace(c: char)
  {
    || c == ' ' || c == '\t' || c == '\n' || c == '\r' || c == '\U{000B}' || c == '\U{000C}'
    || c == '\U{00A0}' || c == '\U{1680}' || ('\U{2000}' <= c <= '\U{200A}')
    || c == '\U{2028}' || c == '\U{2029}' || c == '\U{202F}' || c == '\U{205F}'
    || c == '\U{3000}' || c == '\U{FEFF}'
  }

  function TrimStart(s: string): (r: string)
    ensures r == [] || !JsSpace(r[0])
    ensures |r| <= |s| && r == s[|s| - |r|..]
  {
    if s != [] && JsSpace(s[0]) then TrimStart(s[1..]) else s
  }

  predicate DecimalText(s: string)
  {
    forall i :: 0 <= i < |s| ==> '0' <= s[i] <= '9'
  }

  predicate IsDigit(c: char)
  {
    '0' <= c <= '9'
  }

  /** The value of one character read as a digit; a non-digit counts as 0. */
  function DigitOf(c: char): nat
  {
    if IsDigit(c) then c as int - 48 else 0
  }

  /** The number the digits `s[i..j]` denote. */
  function WholeIn(s: string, i: nat, j: nat): nat
    requires i <= j <= |s|
    decreases j - i
  {
    if j == i then 0 else WholeIn(s, i, j - 1) * 10 + DigitOf(s[j - 1])
  }

  /** The value of the digits `s[i..j]` after a decimal point: `25` is 0.25. */
  function FractionIn(s: string, i: nat, j: nat): real
    requires i <= j <= |s|
    decreases j - i
  {
    if i == j then 0.0 else (DigitOf(s[i]) as real + FractionIn(s, i + 1, j)) / 10.0
  }

  function Signed(neg: bool, x: real): real
  {
    if neg then -x else x
  }

  /** Where `Number(text)` is while it reads the text left to right: in the
      leading white space, after a sign, in the digits before the point
      (from `start`), after the point (at `dot`), or in the trailing white
      space after the value `v`. */
  datatype Phase =
    | Lead
    | Sign(neg: bool)
    | Whole(neg: bool, start: nat)
    | Fraction(neg: bool, start: nat, dot: nat)
    | Trail(v: real)

  /** The rest of `Number(text)` from position `i` on. */
  function Scan(s: string, i: nat, p: Phase): Option<real>
    requires i <= |s|
    requires p.Whole? ==> p.start < i
    requires p.Fraction? ==> p.start <= p.dot < i
    decreases |s| - i
  {
    match p
    case Lead =>
      if i == |s| then Some(0.0)
      else if JsSpace(s[i]) then Scan(s, i + 1, Lead)
      else if s[i] == '-' || s[i] == '+' then Scan(s, i + 1, Sign(s[i] == '-'))
      else if IsDigit(s[i]) then Scan(s, i + 1, Whole(false, i))
      else if s[i] == '.' then Scan(s, i + 1, Fraction(false, i, i))
      else None
    case Sign(neg) =>
      if i == |s| then None
      else if IsDigit(s[i]) then Scan(s, i + 1, Whole(neg, i))
      else if s[i] == '.' then Scan(s, i + 1, Fraction(neg, i, i))
      else None
    case Whole(neg, start) =>
      if i == |s| then Some(Signed(neg, WholeIn(s, start, i) as real))
      else if IsDigit(s[i]) then Scan(s, i + 1, p)
      else if s[i] == '.' then Scan(s, i + 1, Fraction(neg, start, i))
      else if JsSpace(s[i]) then Scan(s, i + 1, Trail(Signed(neg, WholeIn(s, start, i) as real)))
      else None
    case Fraction(neg, start, dot) =>
      if i < |s| && IsDigit(s[i]) then Scan(s, i + 1, p)
      else if start == dot && i == dot + 1 then None
      else
        var v := Signed(neg, WholeIn(s, start, dot) as real + FractionIn(s, dot + 1, i));
        if i == |s| then Some(v)
        else if JsSpace(s[i]) then Scan(s, i + 1, Trail(v))
        else None
    case Trail(v) =>
      if i == |s| then Some(v)
      else if JsSpace(s[i]) then Scan(s, i + 1, p)
      else None
  }

  /** `Number(text)`: white space around the literal is ignored and empty
      text is 0; the literal is an optional sign and decimal digits with at
      most one point (`12`, `-12.5`, `12.`, `.5`). Exponents, `Infinity`
      and the `0x`/`0o`/`0b` forms are read as NaN. */
  function StringToNumber(s: string): Option<real>
  {
    Scan(s, 0, Lead)
  }

  /** The numeric value a relational operator sees, `None` for NaN. Arrays
      and plain objects count as NaN here. */
  function ToNumber(v: Value): Option<real>
  {
    match v
    case Null => Some(0.0)
    case Bool(b) => Some(if b then 1.0 else 0.0)
    case Num(n) => Some(n)
    case Str(s) => StringToNumber(s)
    case Date(ms) => Some(ms as real)
    case _ => None
  }

  datatype Ordering = Less | Same | Greater | Unordered

  /** Lexicographic order of two strings, character by character. */
  function StrCompare(a: string, b: string): Ordering
  {
    if a == [] && b == [] then Same
    else if a == [] then Less
    else if b == [] then Greater
    else if a[0] < b[0] then Less
    else if a[0] > b[0] then Greater
    else StrCompare(a[1..], b[1..])
  }

  /** How `<`, `>`, `<=` and `>=` see two values: two strings compare
      lexicographically; otherwise both sides go through numeric conversion
      (a string becomes the number its text denotes), and a NaN side makes
      every relational operator false. */
  function Compare(a: Value, b: Value): Ordering
  {
    if a.Str? && b.Str? then StrCompare(a.s, b.s)
    else
      match (ToNumber(a), ToNumber(b))
      case (Some(x), Some(y)) => if x < y then Less else if x > y then Greater else Same
      case _ => Unordered
  }

  /** `a <= b` */
  predicate AtMost(a: Value, b: Value)
  {
    Compare(a, b) == Less || Compare(a, b) == Same
  }

  lemma {:induction false} StrCompareAntisymmetric(a: string, b: string)
    ensures StrCompare(a, b) != Unordered
    ensures StrCompare(a, b) == Less <==> StrCompare(b, a) == Greater
    ensures StrCompare(a, b) == Same <==> a == b
    decreases |a|
  {
    if a != [] && b != [] && a[0] == b[0] {
      StrCompareAntisymmetric(a[1..], b[1..]);
      if a[1..] == b[1..] {
        assert a == [a[0]] + a[1..] && b == [b[0]] + b[1..];
      }
    }
  }

  lemma {:induction false} StrCompareTransitive(a: string, b: string, c: string)
    requires StrCompare(a, b) == Less || StrCompare(a, b) == Same
    requires StrCompare(b, c) == Less || StrCompare(b, c) == Same
    ensures StrCompare(a, c) == Less || StrCompare(a, c) == Same
    decreases |a|
  {
    StrCompareAntisymmetric(a, b);
    StrCompareAntisymmetric(b, c);
    if a != [] && b != [] && c != [] && a[0] == b[0] && b[0] == c[0] {
      StrCompareTransitive(a[1..], b[1..], c[1..]);
    }
  }

  /** `a < b` holds exactly when `b > a` does, and the comparison is symmetric
      in whether the two values are ordered at all. */
  lemma CompareAntisymmetric(a: Value, b: Value)
    ensures Compare(a, b) == Less <==> Compare(b, a) == Greater
    ensures Compare(a, b) == Same <==> Compare(b, a) == Same
    ensures Compare(a, b) == Unordered <==> Compare(b, a) == Unordered
  {
    if a.Str? && b.Str? {
      StrCompareAntisymmetric(a.s, b.s);
      StrCompareAntisymmetric(b.s, a.s);
    }
  }

  /** `<=` is transitive among values of one kind: all strings, compared as
      text, or none, compared as numbers. */
  lemma CompareTransitive(a: Value, b: Value, c: Value)
    requires a.Str? == b.Str? == c.Str?
    requires AtMost(a, b) && AtMost(b, c)
    ensures AtMost(a, c)
  {
    if a.Str? {
      StrCompareTransitive(a.s, b.s, c.s);
    }
  }

  /** Across kinds it is not: when two numeric texts are ordered as text
      against their values (`"10" <= "9"`), a number between the values
      (`9.5`) comes after the smaller text yet not after the larger one. */
  lemma CompareMixedNotTransitive(s: string, t: string, x: real)
    requires AtMost(Str(s), Str(t))
    requires StringToNumber(s).Some? && StringToNumber(t).Some?
    requires StringToNumber(t).value <= x < StringToNumber(s).value
    ensures AtMost(Str(t), Num(x))
    ensures !AtMost(Str(s), Num(x))
  {
    TextAgainstNumber(t, x);
    TextAgainstNumber(s, x);
  }

  /** Text against a number compares the number the text denotes. */
  lemma TextAgainstNumber(t: string, x: real)
    requires StringToNumber(t).Some?
    ensures AtMost(Str(t), Num(x)) <==> StringToNumber(t).value <= x
  {
    assert ToNumber(Str(t)) == StringToNumber(t);
  }

  /** The character of a decimal digit. */
  function Digit(d: nat): char
    requires d < 10
  {
    (48 + d) as char
  }

  /** `n.toString()` for a non-negative integer. */
  function Decimal(n: nat): (s: string)
    ensures 1 <= |s|
    ensures n >= 10 ==> 2 <= |s|
  {
    if n < 10 then [Digit(n)] else Decimal(n / 10) + [Digit(n % 10)]
  }

  /** The number a string of decimal digits denotes (`Number(s)` for such a
      string); a non-digit character counts as 0. */
  function DecimalValue(s: string): nat
  {
    if s == [] then 0
    else
      var c := s[|s| - 1];
      DecimalValue(s[..|s| - 1]) * 10 + (if '0' <= c <= '9' then c as int - 48 else 0)
  }

  /** Printing a counter and reading the text back gives the counter. */
  lemma {:induction false} DecimalRoundTrip(n: nat)
    ensures DecimalValue(Decimal(n)) == n
  {
    if n >= 10 {
      var s := Decimal(n);
      assert s[..|s| - 1] == Decimal(n / 10);
      DecimalRoundTrip(n / 10);
    }
  }

  /** Different counters print as different strings, so ids made from
      distinct numbers are distinct. */
  lemma {:induction false} DecimalInjective(a: nat, b: nat)
    requires Decimal(a) == Decimal(b)
    ensures a == b
  {
    DecimalRoundTrip(a);
    DecimalRoundTrip(b);
  }

  /** A counter's text has only decimal digits, with no leading zero. */
  lemma {:induction false} DecimalDigits(n: nat)
    ensures DecimalText(Decimal(n))
    ensures n > 0 ==> Decimal(n)[0] != '0'
  {
    if n >= 10 {
      DecimalDigits(n / 10);
      var s := Decimal(n);
      assert forall i :: 0 <= i < |s| - 1 ==> s[i] == Decimal(n / 10)[i];
    }
  }

  /** Digits run together read as their decimal value. */
  lemma {:induction false} WholeInText(s: string, i: nat, j: nat)
    requires i <= j <= |s|
    ensures WholeIn(s, i, j) == DecimalValue(s[i..j])
    decreases j - i
  {
    if j > i {
      var t := s[i..j];
      assert t[..|t| - 1] == s[i..j - 1] && t[|t| - 1] == s[j - 1];
      WholeInText(s, i, j - 1);
    }
  }

  /** Digits up to the end of the text finish the number they began. */
  lemma {:induction false} ScanDigits(s: string, i: nat, neg: bool, start: nat)
    requires start < i <= |s|
    requires forall k :: i <= k < |s| ==> IsDigit(s[k])
    ensures Scan(s, i, Whole(neg, start)) == Some(Signed(neg, WholeIn(s, start, |s|) as real))
    decreases |s| - i
  {
    if i < |s| {
      ScanDigits(s, i + 1, neg, start);
    }
  }

  /** The text of a counter denotes that counter as a number. */
  lemma NumericText(n: nat)
    ensures StringToNumber(Decimal(n)) == Some(n as real)
  {
    var d := Decimal(n);
    assert DecimalText(d) by {
      DecimalDigits(n);
    }
    assert StringToNumber(d) == Scan(d, 1, Whole(false, 0)) by {
      assert IsDigit(d[0]) && !JsSpace(d[0]);
    }
    ScanDigits(d, 1, false, 0);
    assert WholeIn(d, 0, |d|) == n by {
      WholeInText(d, 0, |d|);
      assert d[0..|d|] == d;
      DecimalRoundTrip(n);
    }
  }

  /** `n.toString()` for any integer. */
  function IntDecimal(n: int): (s: string)
    ensures n >= 0 ==> s == Decimal(n)
    ensures n < 0 ==> s == "-" + Decimal(-n)
  {
    if n >= 0 then Decimal(n) else "-" + Decimal(-n)
  }

  /** `String(v)` / `v.toString()` for the values whose text this model spells
      out; `undefined` and `null` have no `toString` and throw. */
  function ToJsString(v: Value): (r: Result<string>)
    ensures v.Str? ==> r == Ok(v.s)
    ensures v.Undefined? || v.Null? ==> r.Err? && r.error.TypeError?
  {
    match v
    case Undefined => Err(TypeError("cannot read toString of undefined"))
    case Null => Err(TypeError("cannot read toString of null"))
    case Bool(b) => Ok(if b then "true" else "false")
    case Str(s) => Ok(s)
    case Num(n) =>
      if n == n.Floor as real && -1000000000000000000000.0 < n < 1000000000000000000000.0
      then Ok(IntDecimal(n.Floor))
      else Err(Unmodelled("text of a fractional or very large number"))
    case Obj(_) => Ok("[object Object]")
    case _ => Err(Unmodelled("text of a Date or an array"))
  }

  /** `||` keeps its first operand when it is truthy, is truthy exactly when
      one operand is, and groups either way: `(a || b) || c` is
      `a || (b || c)`. */
  lemma OrLaws(a: Value, b: Value, c: Value)
    ensures Truthy(Or(a, b)) <==> Truthy(a) || Truthy(b)
    ensures Or(Or(a, b), c) == Or(a, Or(b, c))
    ensures Or(a, a) == a
  {
  }

  /** Distinct integers have distinct texts, so mmsi numbers stay distinct
      as strings. */
  lemma IntDecimalInjective(a: int, b: int)
    requires IntDecimal(a) == IntDecimal(b)
    ensures a == b
  {
    var sa, sb := IntDecimal(a), IntDecimal(b);
    if a >= 0 && b >= 0 {
      DecimalInjective(a, b);
    } else if a < 0 && b < 0 {
      assert sa[1..] == Decimal(-a) && sb[1..] == Decimal(-b);
      DecimalInjective(-a, -b);
    } else if a >= 0 {
      DecimalDigits(a);
    } else {
      DecimalDigits(b);
    }
  }

  /** A minus sign in front of a counter's text negates it. */
  lemma NegativeText(m: nat)
    ensures StringToNumber("-" + Decimal(m)) == Some(-(m as real))
  {
    var d := Decimal(m);
    var t := "-" + d;
    assert forall k :: 1 <= k < |t| ==> IsDigit(t[k]) by {
      DecimalDigits(m);
      assert forall k :: 1 <= k < |t| ==> t[k] == d[k - 1];
    }
    assert StringToNumber(t) == Scan(t, 1, Sign(true)) by {
      assert t[0] == '-' && !JsSpace(t[0]);
    }
    assert Scan(t, 1, Sign(true)) == Scan(t, 2, Whole(true, 1)) by {
      assert IsDigit(t[1]);
    }
    ScanDigits(t, 2, true, 1);
    assert WholeIn(t, 1, |t|) == m by {
      WholeInText(t, 1, |t|);
      assert t[1..|t|] == d;
      DecimalRoundTrip(m);
    }
  }

  /** `String(n)` of an integer that prints without an exponent is its
      signed decimal text. */
  lemma IntegerText(n: int)
    requires -1000000000000000000000 < n < 1000000000000000000000
    ensures ToJsString(Num(n as real)) == Ok(IntDecimal(n))
  {
    assert (n as real).Floor == n;
  }

  /** `Number(String(n))` is `n` for an integer that prints without an
      exponent. */
  lemma NumberTextRoundTrip(n: int)
    requires -1000000000000000000000 < n < 1000000000000000000000
    ensures ToJsString(Num(n as real)) == Ok(IntDecimal(n))
    ensures StringToNumber(IntDecimal(n)) == Some(n as real)
  {
    IntegerText(n);
    if n >= 0 {
      NumericText(n);
    } else {
      NegativeText(-n);
    }
  }
}
