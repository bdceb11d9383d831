/** Column values as the JavaScript job sees them, their truthiness, their
    rendering inside a template literal, and the quote-replacing step
    `s.replace(/'/g, '"')`. */
module JsValues {

  /** A column value returned by a source query. Numbers are integral here. */
  datatype Value =
    | Undefined
    | JsNull
    | Text(s: string)
    | Number(n: int)
    | Flag(b: bool)

  /** JavaScript truthiness, the test behind every `x ? … : null` of the formatter. */
  predicate Truthy(v: Value) {
    match v
    case Undefined => false
    case JsNull => false
    case Text(s) => s != ""
    case Number(n) => n != 0
    case Flag(b) => b
  }

  predicate IsDigit(c: char) {
    '0' <= c <= '9'
  }

  function DigitChar(d: nat): (c: char)
    requires d < 10
    ensures IsDigit(c) && c as int - '0' as int == d
  {
    (d + '0' as int) as char
  }

  function DigitValue(c: char): (d: nat)
    requires IsDigit(c)
    ensures d < 10 && DigitChar(d) == c
  {
    c as int - '0' as int
  }

  /** The decimal digits of n, most significant first, without leading zeros. */
  function Decimal(n: nat): (r: string)
    ensures 0 < |r|
    ensures forall i :: 0 <= i < |r| ==> IsDigit(r[i])
    ensures n < 10 <==> |r| == 1
    decreases n
  {
    if n < 10 then [DigitChar(n)] else Decimal(n / 10) + [DigitChar(n % 10)]
  }

  /** Reads a string of decimal digits as a number. */
  function ParseDecimal(s: string): nat
    requires forall i :: 0 <= i < |s| ==> IsDigit(s[i])
    decreases |s|
  {
    if |s| == 0 then 0 else ParseDecimal(s[..|s| - 1]) * 10 + DigitValue(s[|s| - 1])
  }

  /** Reading back the digits of n gives n. */
  lemma {:induction false} DecimalRoundTrip(n: nat)
    ensures ParseDecimal(Decimal(n)) == n
    decreases n
  {
    if n >= 10 {
      var r := Decimal(n);
      assert r[..|r| - 1] == Decimal(n / 10);
      DecimalRoundTrip(n / 10);
    }
  }

  /** The text `${v}` produces for v. */
  function Render(v: Value): string {
    match v
    case Undefined => "undefined"
    case JsNull => "null"
    case Text(s) => s
    case Number(n) => if n < 0 then "-" + Decimal(-n) else Decimal(n)
    case Flag(b) => if b then "true" else "false"
  }

  /** Rendering a number and reading it back gives the number. */
  lemma RenderNumberRoundTrip(n: int)
    ensures var r := Render(Number(n));
            if n < 0 then r[0] == '-' && ParseDecimal(r[1..]) == -n
            else ParseDecimal(r) == n
  {
    var r := Render(Number(n));
    if n < 0 {
      assert r[1..] == Decimal(-n);
      DecimalRoundTrip(-n);
    } else {
      DecimalRoundTrip(n);
    }
  }

  /** The character `s.replace(/'/g, '"')` puts in place of c. */
  function Substitute(c: char): char {
    if c == '\'' then '"' else c
  }

  /** `s.replace(/'/g, '"')`: every single quote becomes a double quote. */
  function Escape(s: string): (r: string)
    ensures |r| == |s|
    ensures forall i :: 0 <= i < |s| ==> r[i] == Substitute(s[i])
    ensures '\'' !in r
    decreases |s|
  {
    if |s| == 0 then [] else [Substitute(s[0])] + Escape(s[1..])
  }

  /** Number of occurrences of c in s. */
  function Occurrences(c: char, s: string): nat
    decreases |s|
  {
    if |s| == 0 then 0 else (if s[0] == c then 1 else 0) + Occurrences(c, s[1..])
  }

  /** Escaping turns exactly the single quotes into double quotes: the result
      has as many double quotes as the source had single and double quotes. */
  lemma {:induction false} EscapeCountsQuotes(s: string)
    ensures Occurrences('"', Escape(s)) == Occurrences('"', s) + Occurrences('\'', s)
    ensures Occurrences('\'', Escape(s)) == 0
    decreases |s|
  {
    if |s| > 0 {
      var r := Escape(s);
      assert r[1..] == Escape(s[1..]);
      EscapeCountsQuotes(s[1..]);
    }
  }

  /** Escaping changes a string exactly when it holds a single quote, so a
      second escape changes nothing. */
  lemma EscapeFixedPoints(s: string)
    ensures Escape(s) == s <==> '\'' !in s
    ensures Escape(Escape(s)) == Escape(s)
  {
    if '\'' in s {
      var i :| 0 <= i < |s| && s[i] == '\'';
      assert Escape(s)[i] != s[i];
    }
  }

  /** Rendered numbers and flags hold no single quote, so escaping them is the identity. */
  lemma EscapeLeavesNumbers(v: Value)
    requires v.Number? || v.Flag?
    ensures Escape(Render(v)) == Render(v)
  {
    var r := Render(v);
    assert forall i :: 0 <= i < |r| ==> r[i] != '\'';
    EscapeFixedPoints(r);
  }

  /** `it's fine` becomes `it"s fine`. */
  lemma EscapeExample()
    ensures Escape("it's fine") == "it\"s fine"
  {
  }
}
