/**
 The LDAP search filter a login turns into, against the filter grammar of section 3 of
 RFC 4515. Filter text is a string with one character per byte.
 */
module LdapFilter {
  import opened Wrappers

  newtype byte = b: int | 0 <= b < 256

  datatype Filter =
    | And(filters: seq<Filter>)
    | Or(filters: seq<Filter>)
    | Not(filter: Filter)
    | Equality(attribute: string, value: seq<byte>)
    | Approx(attribute: string, value: seq<byte>)
    | AtLeast(attribute: string, value: seq<byte>)
    | AtMost(attribute: string, value: seq<byte>)
    | Present(attribute: string)
    | Substring(attribute: string, parts: seq<seq<byte>>)

  // ---------- the grammar, as a parser ----------

  /** A parser's answer: what it read, and what is left. */
  datatype Parsed<T> = Rejected | Parsed(value: T, rest: string)

  /** LPAREN, RPAREN, ASTERISK, ESC and NUL; all other bytes are `normal`. */
  predicate Normal(c: char) {
    c as int < 256 && c !in {'(', ')', '*', '\\', '\0'}
  }

  function HexValue(c: char): Option<nat> {
    if '0' <= c <= '9' then Some(c as int - '0' as int)
    else if 'a' <= c <= 'f' then Some(c as int - 'a' as int + 10)
    else if 'A' <= c <= 'F' then Some(c as int - 'A' as int + 10)
    else None
  }

  lemma HexValueIsDigit(c: char)
    ensures HexValue(c).Some? ==> HexValue(c).value < 16
  {
  }

  /** assertionvalue: as many normal characters and escapes as there are. */
  function ParseValue(s: string): (r: Parsed<seq<byte>>)
    ensures r.Parsed? ==> |r.rest| <= |s|
  {
    if s == "" then Parsed([], s)
    else if s[0] == '\\' then
      if |s| >= 3 && HexValue(s[1]).Some? && HexValue(s[2]).Some? then
        match ParseValue(s[3..])
        case Rejected => Rejected
        case Parsed(value, rest) =>
          HexValueIsDigit(s[1]);
          HexValueIsDigit(s[2]);
          Parsed([(16 * HexValue(s[1]).value + HexValue(s[2]).value) as byte] + value, rest)
      else Rejected
    else if Normal(s[0]) then
      match ParseValue(s[1..])
      case Rejected => Rejected
      case Parsed(value, rest) => Parsed([s[0] as int as byte] + value, rest)
    else Parsed([], s)
  }

  /** The rest of a substring: values between and after asterisks. */
  function ParseParts(s: string): (r: Parsed<seq<seq<byte>>>)
    ensures r.Parsed? ==> |r.rest| <= |s|
    decreases |s|
  {
    if s == "" || s[0] != '*' then Parsed([], s)
    else
      match ParseValue(s[1..])
      case Rejected => Rejected
      case Parsed(value, rest) =>
        match ParseParts(rest)
        case Rejected => Rejected
        case Parsed(values, last) => Parsed([value] + values, last)
  }

  predicate AttributeChar(c: char) {
    'a' <= c <= 'z' || 'A' <= c <= 'Z' || '0' <= c <= '9' || c in {'-', ';', '.'}
  }

  /** attr: a key string or a numeric OID, with options. */
  function ParseAttribute(s: string): (r: (string, string))
    ensures |r.1| <= |s| && r.0 + r.1 == s
    ensures forall c :: c in r.0 ==> AttributeChar(c)
    ensures r.1 == "" || !AttributeChar(r.1[0])
  {
    if s == "" || !AttributeChar(s[0]) then ("", s)
    else
      var (name, rest) := ParseAttribute(s[1..]);
      ([s[0]] + name, rest)
  }

  function Simple(attribute: string, operator: char, value: seq<byte>): Filter {
    if operator == '~' then Approx(attribute, value)
    else if operator == '>' then AtLeast(attribute, value)
    else AtMost(attribute, value)
  }

  /** item, without the extensible form. */
  function ParseItem(s: string): (r: Parsed<Filter>)
    ensures r.Parsed? ==> |r.rest| < |s|
  {
    var (attribute, after) := ParseAttribute(s);
    if attribute == "" || after == "" then Rejected
    else if after[0] == '=' then
      match ParseValue(after[1..])
      case Rejected => Rejected
      case Parsed(value, rest) =>
        if rest == "" || rest[0] != '*' then Parsed(Equality(attribute, value), rest)
        else
          match ParseParts(rest)
          case Rejected => Rejected
          case Parsed(values, last) =>
            Parsed(if value == [] && values == [[]] then Present(attribute)
              else Substring(attribute, [value] + values), last)
    else if |after| >= 2 && after[0] in {'~', '>', '<'} && after[1] == '=' then
      match ParseValue(after[2..])
      case Rejected => Rejected
      case Parsed(value, rest) => Parsed(Simple(attribute, after[0], value), rest)
    else Rejected
  }

  function Closed(r: Parsed<Filter>): Parsed<Filter> {
    if r.Parsed? && r.rest != "" && r.rest[0] == ')' then Parsed(r.value, r.rest[1..]) else Rejected
  }

  function ParseFilter(s: string): (r: Parsed<Filter>)
    ensures r.Parsed? ==> |r.rest| < |s|
    decreases |s|, 0
  {
    if |s| < 2 || s[0] != '(' then Rejected
    else if s[1] == '&' then
      match ParseList(s[2..])
      case Rejected => Rejected
      case Parsed(filters, rest) => Closed(Parsed(And(filters), rest))
    else if s[1] == '|' then
      match ParseList(s[2..])
      case Rejected => Rejected
      case Parsed(filters, rest) => Closed(Parsed(Or(filters), rest))
    else if s[1] == '!' then
      match ParseFilter(s[2..])
      case Rejected => Rejected
      case Parsed(filter, rest) => Closed(Parsed(Not(filter), rest))
    else Closed(ParseItem(s[1..]))
  }

  /** filterlist: one filter or more. */
  function ParseList(s: string): (r: Parsed<seq<Filter>>)
    ensures r.Parsed? ==> |r.rest| < |s|
    decreases |s|, 1
  {
    match ParseFilter(s)
    case Rejected => Rejected
    case Parsed(first, rest) =>
      if rest == "" || rest[0] != '(' then Parsed([first], rest)
      else
        match ParseList(rest)
        case Rejected => Rejected
        case Parsed(others, last) => Parsed([first] + others, last)
  }

  /** What a filter string means, if it is one. */
  function Meaning(s: string): Option<Filter> {
    var r := ParseFilter(s);
    if r.Parsed? && r.rest == "" then Some(r.value) else None
  }

  // ---------- escaping ----------

  function HexDigit(n: int): (c: char)
    requires 0 <= n < 16
    ensures HexValue(c) == Some(n)
  {
    if n < 10 then (n + '0' as int) as char else (n - 10 + 'a' as int) as char
  }

  predicate Escaped(b: byte) {
    b < 0x20 || b > 0x7e || b in {0x2a, 0x28, 0x29, 0x5c}
  }

  function EscapeByte(b: byte): string {
    if Escaped(b) then ['\\', HexDigit(b as int / 16), HexDigit(b as int % 16)] else [b as int as char]
  }

  /**
   Printable ASCII stands for itself but for the parentheses, the asterisk and the backslash; every
   other byte becomes a backslash and its two lower-case hexadecimal digits.
   */
  lemma BytesAreEscapedIff(b: byte)
    ensures EscapeByte(b) ==
      if 32 <= b <= 126 && b as int as char !in {'(', ')', '*', '\\'} then [b as int as char]
      else ['\\', "0123456789abcdef"[b as int / 16], "0123456789abcdef"[b as int % 16]]
  {
    HexDigitIs(b as int / 16);
    HexDigitIs(b as int % 16);
  }

  lemma HexDigitIs(n: int)
    requires 0 <= n < 16
    ensures HexDigit(n) == "0123456789abcdef"[n]
  {
  }

  function Escape(value: seq<byte>): string {
    if value == [] then "" else EscapeByte(value[0]) + Escape(value[1..])
  }

  lemma {:induction false} EscapeOfMore(value: seq<byte>, b: byte)
    ensures Escape(value + [b]) == Escape(value) + EscapeByte(b)
  {
    if value == [] {
      assert value + [b] == [b] && [b][1..] == [];
    } else {
      assert (value + [b])[1..] == value[1..] + [b];
      EscapeOfMore(value[1..], b);
    }
  }

  method EscapeLdapFilterValue(value: seq<byte>) returns (result: string)
    ensures result == Escape(value)
  {
    result := "";
    for i := 0 to |value|
      invariant result == Escape(value[..i])
    {
      var b := value[i];
      if b < 0x20 || b > 0x7e || b in {0x2a, 0x28, 0x29, 0x5c} {
        result := result + ['\\', HexDigit(b as int / 16), HexDigit(b as int % 16)];
      } else {
        result := result + [b as int as char];
      }
      EscapeOfMore(value[..i], b);
      assert value[..i + 1] == value[..i] + [b];
    }
    assert value[..|value|] == value;
  }

  /** A value ends where the grammar says: at a character that is neither normal nor an escape. */
  predicate Ends(rest: string) {
    rest == "" || (!Normal(rest[0]) && rest[0] != '\\')
  }

  lemma ParseHexPair(high: char, low: char, text: string)
    requires HexValue(high).Some? && HexValue(low).Some? && ParseValue(text).Parsed?
    requires HexValue(high).value < 16 && HexValue(low).value < 16
    ensures ParseValue(['\\', high, low] + text) ==
      var b := (16 * HexValue(high).value + HexValue(low).value) as byte;
      Parsed([b] + ParseValue(text).value, ParseValue(text).rest)
  {
    var s := ['\\', high, low] + text;
    assert s[1] == high && s[2] == low && s[3..] == text;
  }

  lemma ParseEscapedByte(b: byte, text: string)
    requires ParseValue(text).Parsed?
    ensures ParseValue(EscapeByte(b) + text) == Parsed([b] + ParseValue(text).value, ParseValue(text).rest)
  {
    if Escaped(b) {
      ParseHexPair(HexDigit(b as int / 16), HexDigit(b as int % 16), text);
      assert 16 * (b as int / 16) + b as int % 16 == b as int;
    } else {
      var s := [b as int as char] + text;
      assert s[1..] == text;
    }
  }

  /** Reading back an escaped value yields its bytes, whatever they are, and stops at its end. */
  lemma {:induction false} ParseEscaped(value: seq<byte>, rest: string)
    requires Ends(rest)
    ensures ParseValue(Escape(value) + rest) == Parsed(value, rest)
  {
    if value == [] {
      assert Escape(value) + rest == rest;
    } else {
      ParseEscaped(value[1..], rest);
      ParseEscapedByte(value[0], Escape(value[1..]) + rest);
      assert Escape(value) + rest == EscapeByte(value[0]) + (Escape(value[1..]) + rest);
      assert [value[0]] + value[1..] == value;
    }
  }

  /** Unescaping inverts escaping, so no two logins share an escaped form. */
  lemma EscapingLosesNothing(value: seq<byte>)
    ensures ParseValue(Escape(value)) == Parsed(value, "")
  {
    ParseEscaped(value, "");
    assert Escape(value) + "" == Escape(value);
  }

  lemma {:induction false} EscapedIsPrintable(value: seq<byte>)
    ensures forall c :: c in Escape(value) ==> ' ' <= c <= '~' && c !in {'(', ')', '*'}
  {
    if value != [] { EscapedIsPrintable(value[1..]); }
  }

  // ---------- printing ----------

  predicate AttributeName(s: string) {
    s != "" && forall c :: c in s ==> AttributeChar(c)
  }

  /** The filters there are texts for: lists are not empty, and a substring has a place for an asterisk. */
  predicate Printable(f: Filter)
    decreases f
  {
    match f
    case And(filters) => filters != [] && AllPrintable(filters)
    case Or(filters) => filters != [] && AllPrintable(filters)
    case Not(g) => Printable(g)
    case Substring(attribute, parts) => AttributeName(attribute) && |parts| >= 2 && parts != [[], []]
    case _ => AttributeName(f.attribute)
  }

  predicate AllPrintable(filters: seq<Filter>)
    decreases filters
  {
    filters == [] || (Printable(filters[0]) && AllPrintable(filters[1..]))
  }

  /** Values with an asterisk before each. */
  function Starred(parts: seq<seq<byte>>): string {
    if parts == [] then "" else ['*'] + (Escape(parts[0]) + Starred(parts[1..]))
  }

  /** What stands behind the attribute of an item. */
  function Test(f: Filter): string
    requires !f.And? && !f.Or? && !f.Not? && Printable(f)
  {
    match f
    case Equality(_, value) => ['='] + Escape(value)
    case Approx(_, value) => ['~', '='] + Escape(value)
    case AtLeast(_, value) => ['>', '='] + Escape(value)
    case AtMost(_, value) => ['<', '='] + Escape(value)
    case Present(_) => ['=', '*']
    case Substring(_, parts) => ['='] + (Escape(parts[0]) + Starred(parts[1..]))
  }

  function Enclosed(inner: string): string {
    ['('] + (inner + [')'])
  }

  function Print(f: Filter): (s: string)
    requires Printable(f)
    ensures s != "" && s[0] == '('
    decreases f
  {
    match f
    case And(filters) => Enclosed(['&'] + PrintAll(filters))
    case Or(filters) => Enclosed(['|'] + PrintAll(filters))
    case Not(g) => Enclosed(['!'] + Print(g))
    case _ => Enclosed(f.attribute + Test(f))
  }

  function PrintAll(filters: seq<Filter>): string
    requires AllPrintable(filters)
    decreases filters
  {
    if filters == [] then "" else Print(filters[0]) + PrintAll(filters[1..])
  }

  lemma {:induction false} AttributeEndsAtTest(name: string, rest: string)
    requires forall c :: c in name ==> AttributeChar(c)
    requires rest != "" && rest[0] in {'=', '~', '>', '<'}
    ensures ParseAttribute(name + rest) == (name, rest)
    decreases |name|
  {
    if name == "" {
      assert name + rest == rest;
    } else {
      assert (name + rest)[1..] == name[1..] + rest;
      AttributeEndsAtTest(name[1..], rest);
      assert [name[0]] + name[1..] == name;
    }
  }

  lemma OneMorePart(part: seq<byte>, more: string, parts: seq<seq<byte>>, rest: string)
    requires ParseValue(Escape(part) + more) == Parsed(part, more) && ParseParts(more) == Parsed(parts, rest)
    ensures ParseParts(['*'] + (Escape(part) + more)) == Parsed([part] + parts, rest)
  {
    StarFirst(Escape(part) + more, part, more, parts, rest);
  }

  lemma StarFirst(tail: string, part: seq<byte>, more: string, parts: seq<seq<byte>>, rest: string)
    requires ParseValue(tail) == Parsed(part, more) && ParseParts(more) == Parsed(parts, rest)
    ensures ParseParts(['*'] + tail) == Parsed([part] + parts, rest)
  {
    var s := ['*'] + tail;
    assert s[0] == '*' && s[1..] == tail;
  }

  lemma StarredSplits(parts: seq<seq<byte>>, rest: string)
    requires parts != []
    ensures Starred(parts) + rest == ['*'] + (Escape(parts[0]) + (Starred(parts[1..]) + rest))
  {
  }

  lemma {:induction false} ParsePrintedParts(parts: seq<seq<byte>>, rest: string)
    requires Ends(rest) && (rest == "" || rest[0] != '*')
    ensures ParseParts(Starred(parts) + rest) == Parsed(parts, rest)
    ensures Ends(Starred(parts) + rest)
  {
    if parts == [] {
      assert Starred(parts) + rest == rest;
    } else {
      var more := Starred(parts[1..]) + rest;
      ParsePrintedParts(parts[1..], rest);
      ParseEscaped(parts[0], more);
      OneMorePart(parts[0], more, parts[1..], rest);
      StarredSplits(parts, rest);
      assert [parts[0]] + parts[1..] == parts;
    }
  }

  lemma ParseComparison(attribute: string, operator: char, tail: string, value: seq<byte>, rest: string)
    requires AttributeName(attribute) && operator in {'~', '>', '<'} && ParseValue(tail) == Parsed(value, rest)
    ensures ParseItem(attribute + ([operator, '='] + tail)) == Parsed(Simple(attribute, operator, value), rest)
  {
    var after := [operator, '='] + tail;
    AttributeEndsAtTest(attribute, after);
    assert after[0] == operator && after[1] == '=' && after[2..] == tail;
  }

  lemma ParsePrintedComparison(f: Filter, operator: char, rest: string)
    requires (f.Approx? || f.AtLeast? || f.AtMost?) && AttributeName(f.attribute) && operator in {'~', '>', '<'}
    requires f == Simple(f.attribute, operator, f.value) && Test(f) == [operator, '='] + Escape(f.value)
    ensures ParseItem((f.attribute + Test(f)) + ([')'] + rest)) == Parsed(f, [')'] + rest)
  {
    var tail := Escape(f.value) + ([')'] + rest);
    ParseEscaped(f.value, [')'] + rest);
    ParseComparison(f.attribute, operator, tail, f.value, [')'] + rest);
    CloseComparison(f.attribute, operator, Escape(f.value), [')'] + rest);
  }

  lemma CloseComparison(attribute: string, operator: char, value: string, rest: string)
    ensures (attribute + ([operator, '='] + value)) + rest == attribute + ([operator, '='] + (value + rest))
  {
  }

  /** Equality, presence and substrings differ in the asterisks behind the equals sign only. */
  lemma ParsePrintedEquals(attribute: string, first: seq<byte>, parts: seq<seq<byte>>, rest: string)
    requires AttributeName(attribute)
    ensures ParseItem((attribute + (['='] + (Escape(first) + Starred(parts)))) + ([')'] + rest)) ==
      Parsed(if parts == [] then Equality(attribute, first)
             else if first == [] && parts == [[]] then Present(attribute)
             else Substring(attribute, [first] + parts), [')'] + rest)
  {
    var tail := Starred(parts) + ([')'] + rest);
    var after := ['='] + (Escape(first) + tail);
    assert (attribute + (['='] + (Escape(first) + Starred(parts)))) + ([')'] + rest) == attribute + after;
    AttributeEndsAtTest(attribute, after);
    assert after[1..] == Escape(first) + tail;
    ParsePrintedParts(parts, [')'] + rest);
    ParseEscaped(first, tail);
    if parts == [] { assert tail == [')'] + rest; }
  }

  lemma ParsePrintedItem(f: Filter, rest: string)
    requires !f.And? && !f.Or? && !f.Not? && Printable(f)
    ensures ParseItem((f.attribute + Test(f)) + ([')'] + rest)) == Parsed(f, [')'] + rest)
  {
    match f
    case Equality(attribute, value) =>
      assert Escape(value) + Starred([]) == Escape(value);
      ParsePrintedEquals(attribute, value, [], rest);
    case Present(attribute) =>
      assert Starred([[]]) == ['*'] + ([] + Starred([])) && Starred([]) == "";
      assert Test(f) == ['='] + (Escape([]) + Starred([[]]));
      ParsePrintedEquals(attribute, [], [[]], rest);
    case Substring(attribute, parts) =>
      assert [parts[0]] + parts[1..] == parts;
      assert parts[0] == [] && parts[1..] == [[]] ==> parts == [[], []];
      ParsePrintedEquals(attribute, parts[0], parts[1..], rest);
    case Approx(_, _) => ParsePrintedComparison(f, '~', rest);
    case AtLeast(_, _) => ParsePrintedComparison(f, '>', rest);
    case AtMost(_, _) => ParsePrintedComparison(f, '<', rest);
  }

  /** An enclosed text, opened up where the parser opens it. */
  lemma OpenText(inner: string, rest: string)
    requires inner != ""
    ensures var s := Enclosed(inner) + rest;
      && |s| >= 2 && s[0] == '(' && s[1] == inner[0]
      && s[1..] == inner + ([')'] + rest)
      && s[2..] == inner[1..] + ([')'] + rest)
    ensures ([')'] + rest)[1..] == rest
  {
    var s := Enclosed(inner) + rest;
    assert s[1..] == inner + ([')'] + rest);
    assert s[2..] == s[1..][1..];
  }

  lemma ParsePrintedCompound(filters: seq<Filter>, rest: string)
    requires filters != [] && AllPrintable(filters)
    requires ParseList(PrintAll(filters) + ([')'] + rest)) == Parsed(filters, [')'] + rest)
    ensures ParseFilter(Print(And(filters)) + rest) == Parsed(And(filters), rest)
    ensures ParseFilter(Print(Or(filters)) + rest) == Parsed(Or(filters), rest)
  {
    OpenText(['&'] + PrintAll(filters), rest);
    OpenText(['|'] + PrintAll(filters), rest);
    assert (['&'] + PrintAll(filters))[1..] == PrintAll(filters) &&
      (['|'] + PrintAll(filters))[1..] == PrintAll(filters);
  }

  lemma ParsePrintedTest(f: Filter, rest: string)
    requires !f.And? && !f.Or? && !f.Not? && Printable(f)
    ensures ParseFilter(Print(f) + rest) == Parsed(f, rest)
  {
    var inner := f.attribute + Test(f);
    OpenText(inner, rest);
    assert inner[0] == f.attribute[0] && f.attribute[0] in f.attribute;
    ParsePrintedItem(f, rest);
  }

  lemma ParsePrintedNegation(g: Filter, rest: string)
    requires Printable(g) && ParseFilter(Print(g) + ([')'] + rest)) == Parsed(g, [')'] + rest)
    ensures ParseFilter(Print(Not(g)) + rest) == Parsed(Not(g), rest)
  {
    OpenText(['!'] + Print(g), rest);
    assert (['!'] + Print(g))[1..] == Print(g);
  }

  /** Every printed filter reads back as itself, whatever follows it. */
  lemma {:induction false} ParsePrinted(f: Filter, rest: string)
    requires Printable(f)
    ensures ParseFilter(Print(f) + rest) == Parsed(f, rest)
    decreases f, 0
  {
    match f
    case And(filters) =>
      ParsePrintedList(filters, PrintAll(filters) + ([')'] + rest), [')'] + rest);
      ParsePrintedCompound(filters, rest);
    case Or(filters) =>
      ParsePrintedList(filters, PrintAll(filters) + ([')'] + rest), [')'] + rest);
      ParsePrintedCompound(filters, rest);
    case Not(g) =>
      ParsePrinted(g, [')'] + rest);
      ParsePrintedNegation(g, rest);
    case _ => ParsePrintedTest(f, rest);
  }

  lemma PrintAllSplits(filters: seq<Filter>, rest: string)
    requires filters != [] && AllPrintable(filters)
    ensures PrintAll(filters) + rest == Print(filters[0]) + (PrintAll(filters[1..]) + rest)
    ensures PrintAll(filters) + rest != "" && (PrintAll(filters) + rest)[0] == '('
  {
  }

  lemma ParseLast(text: string, first: Filter, rest: string)
    requires ParseFilter(text) == Parsed(first, rest) && (rest == "" || rest[0] != '(')
    ensures ParseList(text) == Parsed([first], rest)
  {
  }

  lemma ParseOneMore(text: string, first: Filter, more: string, others: seq<Filter>, rest: string)
    requires ParseFilter(text) == Parsed(first, more) && more != "" && more[0] == '('
    requires ParseList(more) == Parsed(others, rest)
    ensures ParseList(text) == Parsed([first] + others, rest)
  {
  }

  lemma {:induction false} ParsePrintedList(filters: seq<Filter>, text: string, rest: string)
    requires filters != [] && AllPrintable(filters) && text == PrintAll(filters) + rest
    requires rest == "" || rest[0] != '('
    ensures ParseList(text) == Parsed(filters, rest)
    decreases filters, 1
  {
    var more := PrintAll(filters[1..]) + rest;
    PrintAllSplits(filters, rest);
    ParsePrinted(filters[0], more);
    assert text == Print(filters[0]) + more;
    if |filters| == 1 {
      OnlyOneIsPrinted(filters, rest);
      ParseLast(text, filters[0], rest);
    } else {
      PrintAllSplits(filters[1..], rest);
      ParsePrintedList(filters[1..], more, rest);
      ParseOneMore(text, filters[0], more, filters[1..], rest);
      assert [filters[0]] + filters[1..] == filters;
    }
  }

  lemma OnlyOneIsPrinted(filters: seq<Filter>, rest: string)
    requires |filters| == 1 && AllPrintable(filters)
    ensures PrintAll(filters[1..]) + rest == rest && filters == [filters[0]]
  {
    assert filters[1..] == [] && PrintAll([]) == "";
  }

  // ---------- the filter of a login ----------

  datatype Provider = Provider(userObjectClass: string, loginAttributes: seq<string>)

  predicate NameChar(c: char) {
    'a' <= c <= 'z' || 'A' <= c <= 'Z' || '0' <= c <= '9' || c == '-'
  }

  predicate Plain(s: string) {
    forall i :: 0 <= i < |s| ==> NameChar(s[i])
  }

  predicate ConfiguredName(s: string) {
    1 <= |s| <= 64 && ('a' <= s[0] <= 'z' || 'A' <= s[0] <= 'Z') && Plain(s)
  }

  /** What the configuration schema lets through. */
  predicate Configured(p: Provider) {
    && ConfiguredName(p.userObjectClass)
    && 1 <= |p.loginAttributes| <= 5
    && forall i :: 0 <= i < |p.loginAttributes| ==> ConfiguredName(p.loginAttributes[i])
  }

  function Bytes(s: string): seq<byte>
    requires Plain(s)
  {
    if s == "" then [] else [s[0] as int as byte] + Bytes(s[1..])
  }

  function Alternative(attribute: string, escaped: string): string {
    "(" + attribute + "=" + escaped + ")"
  }

  function Alternatives(attributes: seq<string>, escaped: string): string {
    if attributes == [] then "" else Alternative(attributes[0], escaped) + Alternatives(attributes[1..], escaped)
  }

  lemma {:induction false} AlternativesOfMore(attributes: seq<string>, a: string, escaped: string)
    ensures Alternatives(attributes + [a], escaped) == Alternatives(attributes, escaped) + Alternative(a, escaped)
  {
    if attributes == [] {
      assert attributes + [a] == [a] && [a][1..] == [];
    } else {
      assert (attributes + [a])[1..] == attributes[1..] + [a];
      AlternativesOfMore(attributes[1..], a, escaped);
    }
  }

  function UserFilterText(p: Provider, login: seq<byte>): string {
    "(&(objectClass=" + p.userObjectClass + ")(|" + Alternatives(p.loginAttributes, Escape(login)) + "))"
  }

  /** The template of `userFilter`, with its map and join; whatever the login, the text means that login. */
  method UserFilter(p: Provider, login: seq<byte>) returns (filter: string)
    requires Configured(p)
    ensures filter == UserFilterText(p, login) && Meaning(filter) == Some(LoginFilter(p, login))
  {
    var escaped := EscapeLdapFilterValue(login);
    var alternatives := "";
    for i := 0 to |p.loginAttributes|
      invariant alternatives == Alternatives(p.loginAttributes[..i], escaped)
    {
      AlternativesOfMore(p.loginAttributes[..i], p.loginAttributes[i], escaped);
      assert p.loginAttributes[..i + 1] == p.loginAttributes[..i] + [p.loginAttributes[i]];
      alternatives := alternatives + Alternative(p.loginAttributes[i], escaped);
    }
    assert p.loginAttributes[..|p.loginAttributes|] == p.loginAttributes;
    filter := "(&(objectClass=" + p.userObjectClass + ")(|" + alternatives + "))";
    UserFilterMeansLogin(p, login);
  }

  function LoginTests(attributes: seq<string>, login: seq<byte>): (tests: seq<Filter>)
    ensures |tests| == |attributes| && forall i :: 0 <= i < |tests| ==> tests[i] == Equality(attributes[i], login)
  {
    if attributes == [] then [] else [Equality(attributes[0], login)] + LoginTests(attributes[1..], login)
  }

  /** A person of the configured class one of whose login attributes equals the login. */
  function LoginFilter(p: Provider, login: seq<byte>): Filter
    requires Configured(p)
  {
    And([Equality("objectClass", Bytes(p.userObjectClass)), Or(LoginTests(p.loginAttributes, login))])
  }

  lemma PlainBytesStay(c: char)
    requires NameChar(c)
    ensures EscapeByte(c as int as byte) == [c]
  {
  }

  lemma EscapeCons(b: byte, value: seq<byte>)
    ensures Escape([b] + value) == EscapeByte(b) + Escape(value)
  {
    assert ([b] + value)[1..] == value;
  }

  lemma {:induction false} PlainNamesAreNotEscaped(s: string)
    requires Plain(s)
    ensures Escape(Bytes(s)) == s
  {
    if s != "" {
      PlainNamesAreNotEscaped(s[1..]);
      EscapeCons(s[0] as int as byte, Bytes(s[1..]));
      PlainBytesStay(s[0]);
      assert s == [s[0]] + s[1..];
    }
  }

  lemma AlternativeText(a: string, e: string)
    ensures Enclosed(a + (['='] + e)) == Alternative(a, e)
  {
    assert Enclosed(a + (['='] + e)) == ['('] + (a + (['='] + (e + [')'])));
    assert Alternative(a, e) == ['('] + (a + (['='] + (e + [')'])));
  }

  lemma AlternativeIsPrinted(attribute: string, login: seq<byte>)
    requires ConfiguredName(attribute)
    ensures Printable(Equality(attribute, login))
    ensures Print(Equality(attribute, login)) == Alternative(attribute, Escape(login))
  {
    assert forall c :: c in attribute ==> AttributeChar(c);
    AlternativeText(attribute, Escape(login));
  }

  lemma {:induction false} AlternativesArePrinted(attributes: seq<string>, login: seq<byte>)
    requires forall i :: 0 <= i < |attributes| ==> ConfiguredName(attributes[i])
    ensures AllPrintable(LoginTests(attributes, login))
    ensures PrintAll(LoginTests(attributes, login)) == Alternatives(attributes, Escape(login))
  {
    if attributes != [] {
      AlternativeIsPrinted(attributes[0], login);
      AlternativesArePrinted(attributes[1..], login);
      assert LoginTests(attributes, login)[1..] == LoginTests(attributes[1..], login);
    }
  }

  lemma PairIsPrinted(a: Filter, b: Filter)
    requires Printable(a) && Printable(b)
    ensures Printable(And([a, b])) && Print(And([a, b])) == Enclosed(['&'] + (Print(a) + Print(b)))
  {
    assert [a, b][1..] == [b] && [b][1..] == [];
    assert AllPrintable([b]);
    assert PrintAll([b]) == Print(b);
  }

  lemma UserFilterIsPrinted(p: Provider, login: seq<byte>)
    requires Configured(p)
    ensures Printable(LoginFilter(p, login)) && Print(LoginFilter(p, login)) == UserFilterText(p, login)
  {
    var tests := LoginTests(p.loginAttributes, login);
    var person := Equality("objectClass", Bytes(p.userObjectClass));
    var alternatives := Alternatives(p.loginAttributes, Escape(login));
    AlternativesArePrinted(p.loginAttributes, login);
    PlainNamesAreNotEscaped(p.userObjectClass);
    AlternativeIsPrinted("objectClass", Bytes(p.userObjectClass));
    PairIsPrinted(person, Or(tests));
    TemplateText(Alternative("objectClass", p.userObjectClass), p.userObjectClass, alternatives);
  }

  lemma TemplateText(person: string, name: string, alternatives: string)
    requires person == Alternative("objectClass", name)
    ensures Enclosed(['&'] + (person + Enclosed(['|'] + alternatives))) ==
      "(&(objectClass=" + name + ")(|" + alternatives + "))"
  {
    var left := Enclosed(['&'] + (person + Enclosed(['|'] + alternatives)));
    assert person == "(objectClass=" + (name + ")");
    assert left == "(&(objectClass=" + (name + (")(|" + (alternatives + "))")));
  }

  /**
   Whatever bytes a login holds, the filter built from it is one filter of the grammar, and it
   means exactly the search intended: no login can close a value or add a test.
   */
  lemma UserFilterMeansLogin(p: Provider, login: seq<byte>)
    requires Configured(p)
    ensures Meaning(UserFilterText(p, login)) == Some(LoginFilter(p, login))
  {
    UserFilterIsPrinted(p, login);
    ParsePrinted(LoginFilter(p, login), "");
    assert UserFilterText(p, login) + "" == UserFilterText(p, login);
  }
}
