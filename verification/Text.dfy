/**
 Strings as the databases and JavaScript compare them.

 Case folding is that of ASCII: `toLowerCase` and the SQL `lower` agree on it, whatever they do
 with other letters. Trimming removes the white space JavaScript's `trim` removes. The order
 stands for the collation of a database; the proofs use no more than that it is total, transitive
 and antisymmetric.
 */
module Text {
  function LowerChar(c: char): char {
    if 'A' <= c <= 'Z' then c - 'A' + 'a' else c
  }

  function Lower(s: string): (r: string)
    ensures |r| == |s|
  {
    if s == "" then "" else [LowerChar(s[0])] + Lower(s[1..])
  }

  lemma {:induction false} LowerIsIdempotent(s: string)
    ensures Lower(Lower(s)) == Lower(s)
  {
    if s != "" { LowerIsIdempotent(s[1..]); }
  }

  /** Lexicographic order of code points; any other total order would serve as the collation. */
  predicate AtMost(a: string, b: string) {
    a == "" || (b != "" && (a[0] < b[0] || (a[0] == b[0] && AtMost(a[1..], b[1..]))))
  }

  lemma {:induction false} AtMostIsTotal(a: string, b: string)
    ensures AtMost(a, b) || AtMost(b, a)
  {
    if a != "" && b != "" { AtMostIsTotal(a[1..], b[1..]); }
  }

  lemma {:induction false} AtMostIsTransitive(a: string, b: string, c: string)
    requires AtMost(a, b) && AtMost(b, c)
    ensures AtMost(a, c)
  {
    if a != "" && a[0] == b[0] == c[0] { AtMostIsTransitive(a[1..], b[1..], c[1..]); }
  }

  lemma {:induction false} AtMostIsAntisymmetric(a: string, b: string)
    requires AtMost(a, b) && AtMost(b, a)
    ensures a == b
  {
    if a != "" {
      AtMostIsAntisymmetric(a[1..], b[1..]);
      assert a == [a[0]] + a[1..] && b == [b[0]] + b[1..];
    }
  }

  /** White space as `trim` removes it. */
  predicate Space(c: char) {
    c in {' ', '\t', '\n', '\r', '\U{000B}', '\U{000C}', '\U{00A0}', '\U{1680}', '\U{2028}', '\U{2029}', '\U{202F}',
      '\U{205F}', '\U{3000}', '\U{FEFF}'}
    || '\U{2000}' <= c <= '\U{200A}'
  }

  function TrimEnd(s: string): string {
    if s == "" || !Space(s[|s| - 1]) then s else TrimEnd(s[..|s| - 1])
  }

  function Trim(s: string): string {
    if s == "" || !Space(s[0]) then TrimEnd(s) else Trim(s[1..])
  }

  lemma {:induction false} TrimEndSettles(s: string)
    ensures TrimEnd(TrimEnd(s)) == TrimEnd(s)
    ensures TrimEnd(s) <= s
    ensures TrimEnd(s) != "" ==> !Space(TrimEnd(s)[|TrimEnd(s)| - 1])
    decreases |s|
  {
    if s != "" && Space(s[|s| - 1]) { TrimEndSettles(s[..|s| - 1]); }
  }

  lemma {:induction false} TrimSettles(s: string)
    ensures Trim(Trim(s)) == Trim(s) && |Trim(s)| <= |s|
    decreases |s|
  {
    if s == "" || !Space(s[0]) {
      TrimEndSettles(s);
      assert TrimEnd(s) != "" ==> TrimEnd(s)[0] == s[0];
    } else {
      TrimSettles(s[1..]);
    }
  }

  lemma {:induction false} LowerAt(s: string, i: nat)
    requires i < |s|
    ensures Lower(s)[i] == LowerChar(s[i])
  {
    if i > 0 { LowerAt(s[1..], i - 1); }
  }

  lemma LowerIs(s: string, lower: string)
    requires |s| == |lower| && forall i :: 0 <= i < |s| ==> LowerChar(s[i]) == lower[i]
    ensures Lower(s) == lower
  {
    forall i | 0 <= i < |s| ensures Lower(s)[i] == lower[i] { LowerAt(s, i); }
  }

  /** Nothing to trim: no white space at either end. */
  predicate Tidy(s: string) {
    s == "" || (!Space(s[0]) && !Space(s[|s| - 1]))
  }

  lemma {:induction false} TrimIsTidy(s: string)
    ensures Tidy(Trim(s)) && (Tidy(s) ==> Trim(s) == s)
    decreases |s|
  {
    if s == "" || !Space(s[0]) {
      TrimEndSettles(s);
      assert TrimEnd(s) != "" ==> TrimEnd(s)[0] == s[0];
    } else {
      TrimIsTidy(s[1..]);
    }
  }

  /** White space by code point: the tabs, line ends and spaces of ECMAScript. */
  lemma SpacesByCode(c: char)
    ensures Space(c) <==>
      || 9 <= c as int <= 13 || c as int in {32, 160, 5760, 8232, 8233, 8239, 8287, 12288, 65279}
      || 8192 <= c as int <= 8202
  {
  }

  lemma CapitalsFold(c: char)
    ensures LowerChar(c) as int == if 65 <= c as int <= 90 then c as int + 32 else c as int
  {
  }

  /** Trimming takes the white space off both ends, and nothing else. */
  lemma {:induction false} TrimIsTheMiddle(s: string) returns (from: nat, to: nat)
    ensures from <= to <= |s| && Trim(s) == s[from..to]
    ensures forall i :: (0 <= i < from || to <= i < |s|) ==> Space(s[i])
    ensures from < to ==> !Space(s[from]) && !Space(s[to - 1])
    decreases |s|
  {
    if s == "" {
      from, to := 0, 0;
    } else if Space(s[0]) {
      from, to := TrimIsTheMiddle(s[1..]);
      assert s[1..][from..to] == s[from + 1..to + 1];
      assert forall i :: 0 < i < |s| ==> s[i] == s[1..][i - 1];
      from, to := from + 1, to + 1;
    } else {
      TrimEndIsAPrefix(s);
      from, to := 0, |TrimEnd(s)|;
    }
  }

  lemma {:induction false} TrimEndIsAPrefix(s: string)
    ensures TrimEnd(s) <= s && forall i :: |TrimEnd(s)| <= i < |s| ==> Space(s[i])
    ensures TrimEnd(s) != "" ==> !Space(TrimEnd(s)[|TrimEnd(s)| - 1])
    ensures s != "" && !Space(s[0]) ==> TrimEnd(s) != ""
    decreases |s|
  {
    if s != "" && Space(s[|s| - 1]) { TrimEndIsAPrefix(s[..|s| - 1]); }
  }

  /** Trimming and folding a login again changes nothing. */
  lemma FoldSettles(s: string)
    ensures Lower(Trim(Lower(Trim(s)))) == Lower(Trim(s))
  {
    var t := Trim(s);
    TrimIsTidy(s);
    if t != "" {
      LowerAt(t, 0);
      LowerAt(t, |t| - 1);
    }
    TrimIsTidy(Lower(t));
    LowerIsIdempotent(t);
  }
}
