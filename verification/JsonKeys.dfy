/**
 The text of the repository's lock and link keys: JSON arrays of strings. Quotation marks,
 backslashes and control characters are escaped, with one letter or as a code of four digits.
 An array of n strings is an opening bracket, n quoted strings with commas between them, and a
 closing bracket; a quoted string ends at the first quotation mark that no backslash precedes.
 */
module JsonKeys {
  import opened Wrappers

  /** The character after the backslash, for the characters that have an escape of their own. */
  function ShortEscape(c: char): Option<char> {
    match c
    case '"' => Some('"')
    case '\\' => Some('\\')
    case '\U{0008}' => Some('b')
    case '\t' => Some('t')
    case '\n' => Some('n')
    case '\U{000C}' => Some('f')
    case '\r' => Some('r')
    case _ => None
  }

  function HexDigit(n: int): char
    requires 0 <= n < 16
  {
    "0123456789abcdef"[n]
  }

  function EscapedChar(c: char): string {
    if ShortEscape(c).Some? then ['\\', ShortEscape(c).value]
    else if c < ' ' then ['\\', 'u', '0', '0', HexDigit(c as int / 16), HexDigit(c as int % 16)]
    else [c]
  }

  /** The JSON text of a character, by code point. */
  lemma CharactersAreEscapedIff(c: char)
    ensures EscapedChar(c) ==
      match c as int
      case 34 => "\\\""
      case 92 => "\\\\"
      case 8 => "\\b"
      case 9 => "\\t"
      case 10 => "\\n"
      case 12 => "\\f"
      case 13 => "\\r"
      case n =>
        if n < 32 then "\\u00" + [if n < 16 then '0' else '1', "0123456789abcdef"[n % 16]] else [c]
  {
  }

  lemma EscapesDiffer(c: char, d: char)
    requires EscapedChar(c) == EscapedChar(d)
    ensures c == d
  {
    var e, f := EscapedChar(c), EscapedChar(d);
    assert |e| > 1 ==> e[1] == f[1];
    if |e| == 6 {
      assert e[4] == f[4] && e[5] == f[5];
      HexDigitsDiffer(c as int / 16, d as int / 16);
      HexDigitsDiffer(c as int % 16, d as int % 16);
    } else {
      assert e[0] == f[0];
    }
  }

  lemma HexDigitsDiffer(m: int, n: int)
    requires 0 <= m < 16 && 0 <= n < 16 && HexDigit(m) == HexDigit(n)
    ensures m == n
  {
  }

  function Escaped(s: string): string {
    if s == "" then "" else EscapedChar(s[0]) + Escaped(s[1..])
  }

  function Quoted(s: string): string {
    ['"'] + (Escaped(s) + ['"'])
  }

  function Items(xs: seq<string>): string
    requires xs != []
  {
    if |xs| == 1 then Quoted(xs[0]) + [']'] else Quoted(xs[0]) + ([','] + Items(xs[1..]))
  }

  function Stringify(xs: seq<string>): string
    requires xs != []
  {
    ['['] + Items(xs)
  }

  lemma MarkFirstIffEmpty(s: string, r: string)
    ensures var text := Escaped(s) + (['"'] + r);
      && text != ""
      && (text[0] == '"' <==> s == "")
      && (s == "" ==> text[1..] == r)
  {
    if s != "" { assert (Escaped(s) + (['"'] + r))[0] == EscapedChar(s[0])[0]; }
  }

  lemma Regroup(x: string, y: string, z: string)
    ensures (x + y) + z == x + (y + z)
  {
  }

  lemma PeelFirst(a: string, b: string, r: string, t: string)
    requires a != "" && b != "" && Escaped(a) + (['"'] + r) == Escaped(b) + (['"'] + t)
    ensures a[0] == b[0] && Escaped(a[1..]) + (['"'] + r) == Escaped(b[1..]) + (['"'] + t)
  {
    Regroup(EscapedChar(a[0]), Escaped(a[1..]), ['"'] + r);
    Regroup(EscapedChar(b[0]), Escaped(b[1..]), ['"'] + t);
    FirstCharAgrees(a[0], b[0], Escaped(a[1..]) + (['"'] + r), Escaped(b[1..]) + (['"'] + t));
  }

  /** A closing quotation mark ends the same string wherever it is read. */
  lemma {:induction false} EscapedEndsOnce(a: string, b: string, r: string, t: string)
    requires Escaped(a) + (['"'] + r) == Escaped(b) + (['"'] + t)
    ensures a == b && r == t
  {
    MarkFirstIffEmpty(a, r);
    MarkFirstIffEmpty(b, t);
    if a != "" && b != "" {
      PeelFirst(a, b, r, t);
      EscapedEndsOnce(a[1..], b[1..], r, t);
      assert a == [a[0]] + a[1..] && b == [b[0]] + b[1..];
    }
  }

  lemma FirstCharAgrees(c: char, d: char, r: string, t: string)
    requires EscapedChar(c) + r == EscapedChar(d) + t
    ensures c == d && r == t
  {
    var left := EscapedChar(c) + r;
    var right := EscapedChar(d) + t;
    assert left[0] == EscapedChar(c)[0] && right[0] == EscapedChar(d)[0];
    assert |EscapedChar(c)| > 1 ==> left[1] == EscapedChar(c)[1];
    assert |EscapedChar(d)| > 1 ==> right[1] == EscapedChar(d)[1];
    var n := |EscapedChar(c)|;
    assert n == |EscapedChar(d)|;
    assert left[..n] == EscapedChar(c) && right[..n] == EscapedChar(d);
    EscapesDiffer(c, d);
    assert left[n..] == r && right[n..] == t;
  }

  lemma QuotedEndsOnce(a: string, b: string, r: string, t: string)
    requires Quoted(a) + r == Quoted(b) + t
    ensures a == b && r == t
  {
    assert (Quoted(a) + r)[1..] == Escaped(a) + (['"'] + r);
    assert (Quoted(b) + t)[1..] == Escaped(b) + (['"'] + t);
    EscapedEndsOnce(a, b, r, t);
  }

  function AfterFirst(xs: seq<string>): string
    requires xs != []
  {
    if |xs| == 1 then [']'] else [','] + Items(xs[1..])
  }

  lemma AfterFirstDecides(xs: seq<string>, ys: seq<string>)
    requires xs != [] && ys != [] && AfterFirst(xs) == AfterFirst(ys)
    ensures |xs| == 1 <==> |ys| == 1
    ensures |xs| > 1 && |ys| > 1 ==> Items(xs[1..]) == Items(ys[1..])
  {
    assert AfterFirst(xs)[0] == AfterFirst(ys)[0];
    assert |xs| > 1 ==> AfterFirst(xs)[1..] == Items(xs[1..]);
    assert |ys| > 1 ==> AfterFirst(ys)[1..] == Items(ys[1..]);
  }

  lemma {:induction false} ItemsAreUnique(xs: seq<string>, ys: seq<string>)
    requires xs != [] && ys != [] && Items(xs) == Items(ys)
    ensures xs == ys
    decreases |xs|
  {
    QuotedEndsOnce(xs[0], ys[0], AfterFirst(xs), AfterFirst(ys));
    AfterFirstDecides(xs, ys);
    if |xs| > 1 { ItemsAreUnique(xs[1..], ys[1..]); }
    assert xs == [xs[0]] + xs[1..] && ys == [ys[0]] + ys[1..];
  }

  /** Two arrays share their text only when they are the same array, whatever their lengths. */
  lemma StringifyIsInjective(xs: seq<string>, ys: seq<string>)
    requires xs != [] && ys != []
    ensures Stringify(xs) == Stringify(ys) <==> xs == ys
  {
    if Stringify(xs) == Stringify(ys) {
      assert Stringify(xs)[1..] == Items(xs) && Stringify(ys)[1..] == Items(ys);
      ItemsAreUnique(xs, ys);
    }
  }
}
