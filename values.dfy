/** Tool-input values: the JSON-like data a tool call carries, as a tagged union,
    with the Python views of them the evaluator uses (truthiness, `type()`,
    `str()` and `repr()`). */
module JsonValues {
  import opened Text

  /** A JSON value as Python holds it after parsing: `None`, `bool`, `int`,
      `float`, `str`, `list` or `dict`. */
  datatype Value =
    | Null
    | Bool(b: bool)
    | Int(i: int)
    | Float(f: real)
    | Str(s: string)
    | Arr(items: seq<Value>)
    | Obj(fields: map<string, Value>)

  /** `bool(v)`. */
  predicate Truthy(v: Value)
  {
    match v
    case Null => false
    case Bool(b) => b
    case Int(i) => i != 0
    case Float(f) => f != 0.0
    case Str(s) => s != []
    case Arr(items) => items != []
    case Obj(fields) => fields != map[]
  }

  /** `type(v) == type(w)`. */
  predicate SameKind(v: Value, w: Value)
  {
    || (v.Null? && w.Null?)
    || (v.Bool? && w.Bool?)
    || (v.Int? && w.Int?)
    || (v.Float? && w.Float?)
    || (v.Str? && w.Str?)
    || (v.Arr? && w.Arr?)
    || (v.Obj? && w.Obj?)
  }

  /** `type(v).__name__`. */
  function TypeName(v: Value): string
  {
    match v
    case Null => "NoneType"
    case Bool(_) => "bool"
    case Int(_) => "int"
    case Float(_) => "float"
    case Str(_) => "str"
    case Arr(_) => "list"
    case Obj(_) => "dict"
  }

  /** Up to `n` decimal digits of a fraction in [0, 1), without trailing zeros. */
  function FractionDigits(frac: real, n: nat): string
    requires 0.0 <= frac < 1.0
    decreases n
  {
    if n == 0 || frac == 0.0 then ""
    else
      var x := frac * 10.0;
      var d := x.Floor;
      [DigitChar(d)] + FractionDigits(x - d as real, n - 1)
  }

  /** `repr(f)` for a float, in positional notation with at most 17 fraction digits. */
  function FloatRepr(f: real): string
  {
    var a := if f < 0.0 then -f else f;
    var whole := a.Floor;
    var frac := a - whole as real;
    var digits := FractionDigits(frac, 17);
    (if f < 0.0 then "-" else "") + NatToString(whole) + "." + (if digits == "" then "0" else digits)
  }

  // ---------------------------------------------------------------------------
  // `repr` of a string

  /** The quote `repr` puts around a string: double quotes when the text holds
      a single quote and no double quote, single quotes otherwise. */
  function QuoteChar(s: string): (q: char)
    ensures q == '\'' || q == '"'
    ensures q == '"' <==> '\'' in s && '"' !in s
  {
    if '\'' in s && '"' !in s then '"' else '\''
  }

  /** Characters `repr` prints as themselves. Below U+0100 the non-printable
      ones are the C0 controls, DEL, the C1 controls, the no-break space and the
      soft hyphen; every character above U+00FF counts as printable here. */
  predicate Printable(c: char)
  {
    var n := c as int;
    !(n < 0x20 || (0x7f <= n <= 0xa0) || n == 0xad)
  }

  /** A lower-case hexadecimal digit. */
  function HexDigit(d: nat): char
    requires d < 16
  {
    if d < 10 then ('0' as int + d) as char else ('a' as int + d - 10) as char
  }

  /** The value of a hexadecimal digit; 0 for any other character. */
  function HexValue(c: char): (d: nat)
    ensures d < 16
  {
    if '0' <= c <= '9' then c as int - '0' as int
    else if 'a' <= c <= 'f' then c as int - 'a' as int + 10
    else 0
  }

  /** `repr`'s rendering of one character inside the quote `q`: a backslash
      before the quote and before a backslash, `\t`, `\n` and `\r` for those
      controls, `\xNN` for the other non-printable characters. */
  function ReprChar(c: char, q: char): (r: string)
    ensures 1 <= |r| <= 4
    ensures |r| == 1 <==> Printable(c) && c != q && c != '\\'
    ensures |r| == 1 ==> r == [c]
  {
    if c == q || c == '\\' then ['\\', c]
    else if c == '\t' then "\\t"
    else if c == '\n' then "\\n"
    else if c == '\r' then "\\r"
    else if !Printable(c) then ['\\', 'x', HexDigit(c as int / 16), HexDigit(c as int % 16)]
    else [c]
  }

  /** The text between the quotes of `repr(s)`. */
  function EscapeBody(s: string, q: char): (r: string)
    ensures |s| <= |r| <= 4 * |s|
  {
    if s == [] then [] else ReprChar(s[0], q) + EscapeBody(s[1..], q)
  }

  /** `repr(s)` for a string. */
  function QuoteString(s: string): (r: string)
    ensures |s| + 2 <= |r| <= 4 * |s| + 2
    ensures r[0] == r[|r| - 1] == QuoteChar(s)
  {
    var q := QuoteChar(s);
    [q] + EscapeBody(s, q) + [q]
  }

  /** Reads escaped text back: the inverse of `EscapeBody`. */
  function Unescape(t: string): string
    decreases |t|
  {
    if t == [] then []
    else if t[0] != '\\' || |t| == 1 then [t[0]] + Unescape(t[1..])
    else if t[1] == 't' then "\t" + Unescape(t[2..])
    else if t[1] == 'n' then "\n" + Unescape(t[2..])
    else if t[1] == 'r' then "\r" + Unescape(t[2..])
    else if t[1] == 'x' && |t| >= 4 then [(HexValue(t[2]) * 16 + HexValue(t[3])) as char] + Unescape(t[4..])
    else [t[1]] + Unescape(t[2..])
  }

  lemma HexDigitValue(d: nat)
    requires d < 16
    ensures HexValue(HexDigit(d)) == d
  {
  }

  /** One escaped character reads back as itself. */
  lemma UnescapeReprChar(c: char, q: char, rest: string)
    requires q == '\'' || q == '"'
    ensures Unescape(ReprChar(c, q) + rest) == [c] + Unescape(rest)
  {
    var t := ReprChar(c, q) + rest;
    if !(c == q || c == '\\') && c != '\t' && c != '\n' && c != '\r' && !Printable(c) {
      var n := c as int;
      HexDigitValue(n / 16);
      HexDigitValue(n % 16);
      assert t[2] == HexDigit(n / 16) && t[3] == HexDigit(n % 16);
      assert t[4..] == rest;
    } else if |ReprChar(c, q)| == 2 {
      assert t[2..] == rest;
    } else {
      assert t[1..] == rest;
    }
  }

  /** Escaping loses nothing: the escaped text reads back as the original. */
  lemma {:induction false} UnescapeEscapeBody(s: string, q: char)
    requires q == '\'' || q == '"'
    ensures Unescape(EscapeBody(s, q)) == s
  {
    if s != [] {
      UnescapeReprChar(s[0], q, EscapeBody(s[1..], q));
      UnescapeEscapeBody(s[1..], q);
    }
  }

  /** The text between the quotes of `repr(s)` reads back as `s`, so two
      different strings never print alike. */
  lemma ReprRoundTrip(s: string)
    ensures var r := QuoteString(s); Unescape(r[1..|r| - 1]) == s
    ensures forall s' :: QuoteString(s') == QuoteString(s) ==> s' == s
  {
    var q := QuoteChar(s);
    var r := QuoteString(s);
    assert r[1..|r| - 1] == EscapeBody(s, q);
    UnescapeEscapeBody(s, q);
    forall s' | QuoteString(s') == QuoteString(s)
      ensures s' == s
    {
      var q' := QuoteChar(s');
      var r' := QuoteString(s');
      assert r'[1..|r'| - 1] == EscapeBody(s', q');
      UnescapeEscapeBody(s', q');
    }
  }

  /** Text `repr` need not escape, holding no single quote, is wrapped in
      single quotes as it is. */
  lemma {:induction false} QuotePlain(s: string)
    requires forall i :: 0 <= i < |s| ==> Printable(s[i]) && s[i] != '\\' && s[i] != '\''
    ensures QuoteString(s) == "'" + s + "'"
  {
    assert '\'' !in s;
    EscapePlain(s);
  }

  lemma {:induction false} EscapePlain(s: string)
    requires forall i :: 0 <= i < |s| ==> Printable(s[i]) && s[i] != '\\' && s[i] != '\''
    ensures EscapeBody(s, '\'') == s
  {
    if s != [] {
      EscapePlain(s[1..]);
    }
  }

  /** `repr(v)`; a dict lists its keys in sorted order. */
  function Repr(v: Value): string
    decreases v
  {
    match v
    case Null => "None"
    case Bool(b) => if b then "True" else "False"
    case Int(i) => IntToString(i)
    case Float(f) => FloatRepr(f)
    case Str(s) => QuoteString(s)
    case Arr(items) =>
      "[" + Join(", ", seq(|items|, k requires 0 <= k < |items| => Repr(items[k]))) + "]"
    case Obj(fields) =>
      var keys := SortedKeys(fields.Keys);
      "{" + Join(", ", seq(|keys|, k requires 0 <= k < |keys| =>
                             assert keys[k] in keys;
                             QuoteString(keys[k]) + ": " + Repr(fields[keys[k]]))) + "}"
  }

  /** `str(v)`: a string is itself, everything else is its `repr`. */
  function Show(v: Value): string
  {
    if v.Str? then v.s else Repr(v)
  }
}
