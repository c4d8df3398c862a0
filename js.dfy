/**
 * The JavaScript values the front end manipulates, and the coercions its
 * expressions rely on: truthiness (`||`, `!x`), property lookup on plain
 * objects, template-literal rendering and `String.prototype.trim`.
 */
module Js {

  import opened Common

  /**
   * A JavaScript value. Numbers are integers (money in cents). `NumText(n)`
   * is the text held by a number input, which parses to `n`; being a
   * non-empty string it is truthy even when `n == 0`. `NaN` is what
   * `parseFloat` and `parseInt` give for text that is not a number. `Obj`
   * is a plain object, opaque here.
   */
  datatype JsValue =
    | Undefined
    | Null
    | Bool(b: bool)
    | Num(n: int)
    | NumText(t: int)
    | NaN
    | Str(s: string)
    | Obj

  /** A plain object: a key absent from the map reads as `undefined`. */
  type Record = map<string, JsValue>

  /** `!!v` */
  predicate Truthy(v: JsValue) {
    match v
    case Undefined => false
    case Null => false
    case Bool(b) => b
    case Num(n) => n != 0
    case NumText(_) => true
    case NaN => false
    case Str(s) => s != ""
    case Obj => true
  }

  /** `v || d` */
  function Or(v: JsValue, d: JsValue): JsValue {
    if Truthy(v) then v else d
  }

  /** `v !== undefined ? v : d`: unlike `||`, keeps `false` and `null`. */
  function DefinedOr(v: JsValue, d: JsValue): JsValue {
    if v.Undefined? then d else v
  }

  /** `r.k` */
  function Get(r: Record, k: string): JsValue {
    if k in r then r[k] else Undefined
  }

  /** The number a value holds, if it is a number or the text of a number input. */
  function NumberOf(v: JsValue): Option<int> {
    match v
    case Num(n) => Some(n)
    case NumText(n) => Some(n)
    case _ => None
  }

  function DigitChar(d: nat): char
    requires d < 10
  {
    "0123456789"[d]
  }

  /** Decimal digits of a natural number, most significant first. */
  function Digits(n: nat): (r: string)
    ensures |r| >= 1
    ensures forall k :: 0 <= k < |r| ==> '0' <= r[k] <= '9'
  {
    if n < 10 then [DigitChar(n)] else Digits(n / 10) + [DigitChar(n % 10)]
  }

  /** `String(n)` for an integer. */
  function IntText(n: int): (r: string)
    ensures r != []
    ensures forall k :: 0 <= k < |r| ==> r[k] == '-' || '0' <= r[k] <= '9'
  {
    if n < 0 then "-" + Digits(-n) else Digits(n)
  }

  /** `${v}`: how a template literal renders a value. */
  function Render(v: JsValue): string {
    match v
    case Undefined => "undefined"
    case Null => "null"
    case Bool(b) => if b then "true" else "false"
    case Num(n) => IntText(n)
    case NumText(n) => IntText(n)
    case NaN => "NaN"
    case Str(s) => s
    case Obj => "[object Object]"
  }

  /** `parseFloat(v)` (and `parseInt(v)`, the model's numbers being whole): the number, or NaN. */
  function ParseNumber(v: JsValue): (r: JsValue)
    ensures r.Num? || r == NaN
    ensures r.Num? <==> NumberOf(v).Some?
  {
    match NumberOf(v)
    case Some(n) => Num(n)
    case None => NaN
  }

  /** The values `+` turns into text: strings (a number input's text among them) and objects. */
  predicate Concatenates(v: JsValue) {
    v.Str? || v.NumText? || v.Obj?
  }

  /** `Number(v)` for the other values: null is 0, a boolean 0 or 1; undefined and NaN give NaN (None). */
  function NumericValue(v: JsValue): (r: Option<int>)
    ensures r.Some? <==> v.Null? || v.Bool? || v.Num?
    ensures v.Num? ==> r == Some(v.n)
  {
    match v
    case Null => Some(0)
    case Bool(b) => Some(if b then 1 else 0)
    case Num(n) => Some(n)
    case _ => None
  }

  /**
   * `a + b`: when either side is text or an object both are rendered and
   * joined; otherwise both are converted to numbers and added, NaN
   * absorbing.
   */
  function Add(a: JsValue, b: JsValue): (r: JsValue)
    ensures Concatenates(a) || Concatenates(b) ==> r == Str(Render(a) + Render(b))
    ensures !Concatenates(a) && !Concatenates(b) ==>
      (r.Num? <==> NumericValue(a).Some? && NumericValue(b).Some?)
      && (r.Num? ==> r.n == NumericValue(a).value + NumericValue(b).value)
      && (!r.Num? ==> r == NaN)
  {
    if Concatenates(a) || Concatenates(b) then Str(Render(a) + Render(b))
    else if NumericValue(a).Some? && NumericValue(b).Some? then Num(NumericValue(a).value + NumericValue(b).value)
    else NaN
  }

  /** `null + 5 === 5`, `true + 5 === 6`, `'10' + 5 === '105'`, `undefined + 5` is NaN. */
  lemma AddCoercions()
    ensures Add(Null, Num(5)) == Num(5)
    ensures Add(Bool(true), Num(5)) == Num(6)
    ensures Add(Str("10"), Num(5)) == Str("105")
    ensures Add(Undefined, Num(5)) == NaN
  {
    assert Render(Num(5)) == "5";
  }

  /** `table[key] || fallback` for a table of non-empty strings. */
  function LookupOr(table: map<string, string>, key: string, fallback: string): (r: string)
    ensures key in table && table[key] != "" ==> r == table[key]
    ensures !(key in table) ==> r == fallback
  {
    if key in table && table[key] != "" then table[key] else fallback
  }

  /** `${v || ''}` */
  function TextOr(v: JsValue): string {
    if Truthy(v) then Render(v) else ""
  }

  /** The characters JavaScript's `trim` and the regular-expression class `\s` treat as white space. */
  predicate IsSpace(c: char) {
    c == ' ' || c == '\t' || c == '\n' || c == '\r' || c == '\U{000B}' || c == '\U{000C}'
    || c == '\U{00A0}' || c == '\U{1680}' || ('\U{2000}' <= c <= '\U{200A}')
    || c == '\U{2028}' || c == '\U{2029}' || c == '\U{202F}' || c == '\U{205F}'
    || c == '\U{3000}' || c == '\U{FEFF}'
  }

  predicate AllSpace(s: string) {
    forall k :: 0 <= k < |s| ==> IsSpace(s[k])
  }

  /** No white space at either end. */
  predicate Trimmed(s: string) {
    s == [] || (!IsSpace(s[0]) && !IsSpace(s[|s| - 1]))
  }

  function TrimStart(s: string): string {
    if s != [] && IsSpace(s[0]) then TrimStart(s[1..]) else s
  }

  function TrimEnd(s: string): string {
    if s != [] && IsSpace(s[|s| - 1]) then TrimEnd(s[..|s| - 1]) else s
  }

  /** `s.trim()` */
  function Trim(s: string): string {
    TrimEnd(TrimStart(s))
  }

  lemma {:induction false} TrimStartShape(s: string)
    ensures |TrimStart(s)| <= |s| && TrimStart(s) == s[|s| - |TrimStart(s)|..]
    ensures AllSpace(s[..|s| - |TrimStart(s)|])
    ensures TrimStart(s) == [] || !IsSpace(TrimStart(s)[0])
  {
    if s != [] && IsSpace(s[0]) {
      TrimStartShape(s[1..]);
      var t := TrimStart(s[1..]);
      assert s[1..][..|s| - 1 - |t|] == s[1..|s| - |t|];
      assert forall k :: 1 <= k < |s| - |t| ==> s[k] == s[1..][..|s| - 1 - |t|][k - 1];
    }
  }

  lemma {:induction false} TrimEndShape(s: string)
    ensures |TrimEnd(s)| <= |s| && TrimEnd(s) == s[..|TrimEnd(s)|]
    ensures AllSpace(s[|TrimEnd(s)|..])
    ensures TrimEnd(s) == [] || !IsSpace(TrimEnd(s)[|TrimEnd(s)| - 1])
    ensures TrimEnd(s) == [] ==> AllSpace(s)
  {
    assert s[0..] == s;
    if s != [] && IsSpace(s[|s| - 1]) {
      var p := s[..|s| - 1];
      TrimEndShape(p);
      var t := TrimEnd(p);
      assert forall k :: |t| <= k < |s| - 1 ==> s[k] == p[|t|..][k - |t|];
    }
  }

  /**
   * `trim` yields the text between the leading and the trailing white space:
   * a contiguous part of `s`, with nothing but white space cut off, and
   * with no white space left at either end.
   */
  lemma TrimIsTrimmedInfix(s: string)
    ensures exists i, j :: 0 <= i <= j <= |s| && Trim(s) == s[i..j] && AllSpace(s[..i]) && AllSpace(s[j..])
    ensures Trimmed(Trim(s))
  {
    TrimStartShape(s);
    var t := TrimStart(s);
    var i := |s| - |t|;
    TrimEndShape(t);
    var j := i + |TrimEnd(t)|;
    assert Trim(s) == s[i..j];
    assert AllSpace(s[j..]) by {
      assert s[j..] == t[|TrimEnd(t)|..];
    }
  }

  /** `trim` returns the empty string exactly for all-white-space input. */
  lemma {:induction false} TrimEmptyIff(s: string)
    ensures Trim(s) == [] <==> AllSpace(s)
  {
    TrimStartShape(s);
    var t := TrimStart(s);
    if t == [] {
      assert s[..|s|] == s;
    } else {
      TrimEndShape(t);
      assert !AllSpace(s) by { assert s[|s| - |t|] == t[0]; }
    }
  }

  /**
   * `${a} ${b}`.trim() for two parts without surrounding white space: the
   * parts joined by one space, or the single non-empty part, or "".
   */
  lemma {:induction false} TrimJoin(a: string, b: string)
    requires Trimmed(a) && Trimmed(b)
    ensures Trim(a + " " + b) ==
      if a == [] then b else if b == [] then a else a + " " + b
  {
    var s := a + " " + b;
    if a == [] {
      assert s == " " + b;
      assert TrimStart(s) == TrimStart(b) by { assert s[1..] == b; }
    } else if b == [] {
      assert TrimStart(s) == s;
      assert TrimEnd(s) == TrimEnd(a) by { assert s[..|s| - 1] == a; }
    } else {
      assert s[0] == a[0] && s[|s| - 1] == b[|b| - 1];
    }
  }
}
