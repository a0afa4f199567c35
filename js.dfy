/**
 * The few JavaScript value semantics the client code relies on: JSON-like
 * values, property reads that may yield `undefined`, truthiness, the string
 * conversion performed by template literals, the number conversion
 * performed by relational operators, the `\s` character class and
 * `String.prototype.trim`.
 */
module Js {

  datatype Option<T> = None | Some(value: T)

  /** A JSON value as the API delivers it; an absent property is `undefined`. */
  datatype Value =
    | Null
    | Bool(b: bool)
    | Num(n: int)
    | Str(s: string)
    | Obj(fields: map<string, Value>)

  /** A plain object: property name to value. */
  type Record = map<string, Value>

  /** A notification shown by `react-toastify`, by kind. */
  datatype Toast = Success(text: string) | Error(text: string) | Warning(text: string) | Info(text: string)

  /** `r[k]`, with `None` standing for `undefined`. */
  function Get(r: Record, k: string): (v: Option<Value>)
    ensures v.Some? <==> k in r
    ensures v.Some? ==> v.value == r[k]
  {
    if k in r then Some(r[k]) else None
  }

  /** `{...r, [k]: v}`: an `undefined` value reads back like an absent property. */
  function Put(r: Record, k: string, v: Option<Value>): (r': Record)
    ensures Get(r', k) == v
    ensures forall j :: j != k ==> Get(r', j) == Get(r, j)
  {
    if v.Some? then r[k := v.value] else r - {k}
  }

  /** JavaScript `ToBoolean`. */
  predicate Truthy(v: Option<Value>)
  {
    match v
    case None => false
    case Some(Null) => false
    case Some(Bool(b)) => b
    case Some(Num(n)) => n != 0
    case Some(Str(s)) => s != ""
    case Some(Obj(_)) => true
  }

  function DigitChar(d: nat): (c: char)
    requires d < 10
    ensures '0' <= c <= '9'
  {
    "0123456789"[d]
  }

  /** Decimal digits of a natural number, no leading zeros. */
  function Digits(n: nat): (s: string)
    ensures |s| > 0
    ensures forall i :: 0 <= i < |s| ==> '0' <= s[i] <= '9'
    decreases n
  {
    if n < 10 then [DigitChar(n)] else Digits(n / 10) + [DigitChar(n % 10)]
  }

  /** `String(v)`, which is also what `${v}` in a template literal produces. */
  function ToStr(v: Option<Value>): string
  {
    match v
    case None => "undefined"
    case Some(Null) => "null"
    case Some(Bool(b)) => if b then "true" else "false"
    case Some(Num(n)) => if n < 0 then "-" + Digits(-n) else Digits(n)
    case Some(Str(s)) => s
    case Some(Obj(_)) => "[object Object]"
  }

  /** `x || fallback` where the result is rendered as text. */
  function OrElse(v: Option<Value>, fallback: string): (s: string)
    ensures Truthy(v) && v.value.Str? ==> s == v.value.s
    ensures !Truthy(v) ==> s == fallback
  {
    if Truthy(v) then ToStr(v) else fallback
  }

  /** The characters matched by `\s` (WhiteSpace and LineTerminator of ECMAScript). */
  predicate IsSpace(c: char)
  {
    c == '\t' || c == '\n' || c == '\U{000B}' || c == '\U{000C}' || c == '\r' || c == ' '
    || c == '\U{00A0}' || c == '\U{1680}' || ('\U{2000}' <= c <= '\U{200A}')
    || c == '\U{2028}' || c == '\U{2029}' || c == '\U{202F}' || c == '\U{205F}'
    || c == '\U{3000}' || c == '\U{FEFF}'
  }

  function TrimStart(s: string): (r: string)
    ensures |r| <= |s| && r == s[|s| - |r|..]
    ensures r != [] ==> !IsSpace(r[0])
    ensures forall i :: 0 <= i < |s| - |r| ==> IsSpace(s[i])
  {
    if s != [] && IsSpace(s[0]) then TrimStart(s[1..]) else s
  }

  function TrimEnd(s: string): (r: string)
    ensures |r| <= |s| && r == s[..|r|]
    ensures r != [] ==> !IsSpace(r[|r| - 1])
    ensures forall i :: |r| <= i < |s| ==> IsSpace(s[i])
  {
    if s != [] && IsSpace(s[|s| - 1]) then TrimEnd(s[..|s| - 1]) else s
  }

  /** `String.prototype.trim`. */
  function Trim(s: string): (r: string)
  {
    TrimEnd(TrimStart(s))
  }

  /** The trimmed string is empty exactly when the input is all whitespace. */
  lemma TrimEmpty(s: string)
    ensures Trim(s) == "" <==> forall i :: 0 <= i < |s| ==> IsSpace(s[i])
  {
  }

  /** A string without whitespace at either end trims to itself. */
  lemma TrimNoSpace(s: string)
    requires s != [] ==> !IsSpace(s[0]) && !IsSpace(s[|s| - 1])
    ensures Trim(s) == s
  {
  }

  predicate AllDigits(s: string)
  {
    forall i :: 0 <= i < |s| ==> '0' <= s[i] <= '9'
  }

  /** The value of a run of decimal digits. */
  function DigitsValue(s: string): nat
    requires AllDigits(s)
  {
    if s == [] then 0 else DigitsValue(s[..|s| - 1]) * 10 + (s[|s| - 1] as int - '0' as int)
  }

  /**
   * `Number(s)` for the integer literals: surrounding whitespace is
   * ignored, the empty string is 0, a sign may precede the digits. Any
   * other text is `None` (NaN).
   */
  function StrToNumber(s: string): Option<int>
  {
    var t := Trim(s);
    if t == "" then Some(0)
    else if AllDigits(t) then Some(DigitsValue(t))
    else if |t| > 1 && (t[0] == '-' || t[0] == '+') && AllDigits(t[1..]) then
      var m: int := DigitsValue(t[1..]);
      Some(if t[0] == '-' then -m else m)
    else None
  }

  /**
   * JavaScript `ToNumber`, as `<`, `<=`, `>` and `>=` apply it to a
   * non-string operand: `None` stands for NaN, which every comparison
   * answers false.
   */
  function ToNumber(v: Option<Value>): (r: Option<int>)
    ensures v.None? ==> r.None?
    ensures v == Some(Null) || v == Some(Bool(false)) ==> r == Some(0)
    ensures v == Some(Bool(true)) ==> r == Some(1)
    ensures v.Some? && v.value.Num? ==> r == Some(v.value.n)
    ensures v.Some? && v.value.Str? ==> r == StrToNumber(v.value.s)
    ensures v.Some? && v.value.Obj? ==> r.None?
  {
    match v
    case None => None
    case Some(Null) => Some(0)
    case Some(Bool(b)) => Some(if b then 1 else 0)
    case Some(Num(n)) => Some(n)
    case Some(Str(s)) => StrToNumber(s)
    case Some(Obj(_)) => None
  }

  lemma {:induction false} DigitsValueOfDigits(n: nat)
    ensures AllDigits(Digits(n)) && DigitsValue(Digits(n)) == n
    decreases n
  {
    if n >= 10 {
      DigitsValueOfDigits(n / 10);
      var s := Digits(n);
      assert s[..|s| - 1] == Digits(n / 10);
    }
  }

  /** A number written out as text converts back to the same number. */
  lemma NumberTextRoundTrip(n: int)
    ensures ToNumber(Some(Str(ToStr(Some(Num(n)))))) == Some(n)
  {
    var d := Digits(if n < 0 then -n else n);
    DigitsValueOfDigits(if n < 0 then -n else n);
    if n < 0 {
      NegativeText(n, d);
      NegativeTextToNumber(d);
    } else {
      DigitTextToNumber(d);
    }
  }

  /** A negative number is written as a minus sign and the digits of its magnitude. */
  lemma NegativeText(n: int, d: string)
    requires n < 0 && d == Digits(-n)
    ensures ToStr(Some(Num(n))) == "-" + d
  {
  }

  /** A minus sign followed by digits converts to the negated value. */
  lemma NegativeTextToNumber(d: string)
    requires d != "" && AllDigits(d)
    ensures StrToNumber("-" + d) == Some(-(DigitsValue(d) as int))
  {
    var s := "-" + d;
    TrimNoSpace(s);
    assert s[1..] == d;
    assert !AllDigits(s) by { assert s[0] == '-'; }
  }

  /** A run of digits converts to its value. */
  lemma DigitTextToNumber(s: string)
    requires s != "" && AllDigits(s)
    ensures StrToNumber(s) == Some(DigitsValue(s))
  {
    TrimNoSpace(s);
  }

  /** Text that starts with a letter converts to NaN. */
  lemma WordTextToNumber(s: string)
    requires s != "" && ('a' <= s[0] <= 'z' || 'A' <= s[0] <= 'Z')
    ensures StrToNumber(s) == None
  {
    var t := TrimStart(s);
    assert t == s;
    var u := TrimEnd(t);
    assert u != [] && u[0] == s[0];
  }
}
