/** The JavaScript string operations the application relies on: `trim`,
    ASCII `toLowerCase`/`toUpperCase`, `includes`, `indexOf`, `replace` with a
    string pattern, `split` on one character, `join`, number-to-decimal
    conversion and the `||` fallback on strings. */
module Text {
  import opened Wrappers

  /** The code points `String.prototype.trim` strips and the regular-expression
      class `\s` matches: ECMAScript WhiteSpace and LineTerminator. */
  predicate IsSpace(c: char) {
    var n := c as int;
    n == 0x09 || n == 0x0A || n == 0x0B || n == 0x0C || n == 0x0D || n == 0x20
    || n == 0xA0 || n == 0x1680 || (0x2000 <= n <= 0x200A) || n == 0x2028
    || n == 0x2029 || n == 0x202F || n == 0x205F || n == 0x3000 || n == 0xFEFF
  }

  /** The code points a regular-expression `.` refuses without the `s` flag. */
  predicate IsLineTerminator(c: char) {
    var n := c as int;
    n == 0x0A || n == 0x0D || n == 0x2028 || n == 0x2029
  }

  predicate Blank(s: string) {
    forall i | 0 <= i < |s| :: IsSpace(s[i])
  }

  /** JavaScript truthiness of a string: it is non-empty. `a || b` on strings. */
  function OrElse(a: string, b: string): string {
    if a != "" then a else b
  }

  /** `o || d` where `o` may be `undefined`/`null`. */
  function OptOr(o: Option<string>, d: string): (r: string)
    ensures r == d || (o.Some? && r == o.value && r != "")
  {
    if o.Some? && o.value != "" then o.value else d
  }

  /** The first index at or after `i` that does not hold white space. */
  function SkipSpaces(s: string, i: nat): (k: nat)
    requires i <= |s|
    ensures i <= k <= |s|
    ensures forall m | i <= m < k :: IsSpace(s[m])
    ensures k == |s| || !IsSpace(s[k])
    decreases |s| - i
  {
    if i < |s| && IsSpace(s[i]) then SkipSpaces(s, i + 1) else i
  }

  /** The index just past the last character before `j`, and not before
      `lo`, that does not hold white space. */
  function SkipSpacesBack(s: string, lo: nat, j: nat): (k: nat)
    requires lo <= j <= |s|
    ensures lo <= k <= j
    ensures forall m | k <= m < j :: IsSpace(s[m])
    ensures k == lo || !IsSpace(s[k - 1])
    decreases j - lo
  {
    if lo < j && IsSpace(s[j - 1]) then SkipSpacesBack(s, lo, j - 1) else j
  }

  /** Where `s.trim()` starts: the length of the leading white space. */
  function TrimOffset(s: string): (i: nat)
    ensures i <= |s| && Blank(s[..i])
    ensures i == |s| || !IsSpace(s[i])
  {
    SkipSpaces(s, 0)
  }

  /** `s.trim()`: the slice of `s` past its leading white space and before its
      trailing white space; it neither starts nor ends with white space. */
  function Trim(s: string): (r: string)
    ensures r == [] || (!IsSpace(r[0]) && !IsSpace(r[|r| - 1]))
    ensures TrimOffset(s) + |r| <= |s| && r == s[TrimOffset(s)..TrimOffset(s) + |r|]
    ensures Blank(s[TrimOffset(s) + |r|..])
    ensures r == [] <==> Blank(s)
  {
    var i := TrimOffset(s);
    var j := SkipSpacesBack(s, i, |s|);
    BlankAround(s, i, j);
    s[i..j]
  }

  /** White space before `i` and from `i` on makes the whole string blank. */
  lemma BlankAround(s: string, i: nat, j: nat)
    requires i <= j <= |s| && Blank(s[..i]) && forall m | j <= m < |s| :: IsSpace(s[m])
    ensures i == j ==> Blank(s)
  {
    if i == j {
      forall m | 0 <= m < |s| ensures IsSpace(s[m]) {
        if m < i { assert s[m] == s[..i][m]; }
      }
    }
  }

  lemma TrimIdempotent(s: string)
    ensures Trim(Trim(s)) == Trim(s)
  {
    var r := Trim(s);
    assert TrimOffset(r) == 0;
    assert r == [] || SkipSpacesBack(r, 0, |r|) == |r|;
  }

  function LowerChar(c: char): char {
    if 'A' <= c <= 'Z' then (c as int + 32) as char else c
  }

  function UpperChar(c: char): char {
    if 'a' <= c <= 'z' then (c as int - 32) as char else c
  }

  /** `s.toLowerCase()` on the ASCII letters. */
  function ToLower(s: string): (r: string)
    ensures |r| == |s|
    ensures forall i | 0 <= i < |s| :: r[i] == LowerChar(s[i])
  {
    seq(|s|, i requires 0 <= i < |s| => LowerChar(s[i]))
  }

  lemma ToLowerIdempotent(s: string)
    ensures ToLower(ToLower(s)) == ToLower(s)
  {
  }

  lemma ToLowerKeepsSpaces(s: string)
    ensures forall i | 0 <= i < |s| :: IsSpace(ToLower(s)[i]) <==> IsSpace(s[i])
  {
  }

  /** `sub` occurs in `s` at index `i`. */
  predicate OccursAt(s: string, sub: string, i: int) {
    0 <= i && i + |sub| <= |s| && s[i..i + |sub|] == sub
  }

  /** `s.includes(sub)`. */
  predicate Contains(s: string, sub: string) {
    exists i | 0 <= i <= |s| - |sub| :: OccursAt(s, sub, i)
  }

  /** A string lacking some character of `sub` cannot contain `sub`. */
  lemma MissingCharNotContains(s: string, sub: string, c: char)
    requires c in sub && c !in s
    ensures !Contains(s, sub)
  {
  }

  /** `s.indexOf(sub)`: the first index at which `sub` occurs, or -1. */
  function IndexOf(s: string, sub: string): (r: int)
    ensures r == -1 || OccursAt(s, sub, r)
    ensures r == -1 <==> !Contains(s, sub)
    ensures forall j | 0 <= j && (r == -1 || j < r) :: !OccursAt(s, sub, j)
    decreases |s|
  {
    if sub <= s then 0
    else if |s| == 0 then -1
    else
      var k := IndexOf(s[1..], sub);
      OccursShift(s, sub);
      if k == -1 then -1
      else
        assert s[1..][k..k + |sub|] == s[k + 1..k + 1 + |sub|];
        k + 1
  }

  /** Every occurrence in `s` past index 0 is an occurrence in `s[1..]`. */
  lemma OccursShift(s: string, sub: string)
    requires |s| > 0
    ensures forall j | 1 <= j && OccursAt(s, sub, j) :: OccursAt(s[1..], sub, j - 1)
  {
    forall j | 1 <= j && OccursAt(s, sub, j) ensures OccursAt(s[1..], sub, j - 1) {
      assert s[1..][j - 1..j - 1 + |sub|] == s[j..j + |sub|];
    }
  }

  /** The replacement text `String.prototype.replace` inserts for one match of
      a string pattern: `$$`, `$&`, `` $` `` and `$'` are expanded; any other
      `$` is literal (a string pattern has no capture groups). */
  function Substitution(rep: string, matched: string, before: string, after: string): string
    decreases |rep|
  {
    if |rep| >= 2 && rep[0] == '$' then
      if rep[1] == '$' then "$" + Substitution(rep[2..], matched, before, after)
      else if rep[1] == '&' then matched + Substitution(rep[2..], matched, before, after)
      else if rep[1] == '`' then before + Substitution(rep[2..], matched, before, after)
      else if rep[1] == '\'' then after + Substitution(rep[2..], matched, before, after)
      else "$" + Substitution(rep[1..], matched, before, after)
    else if rep == [] then []
    else [rep[0]] + Substitution(rep[1..], matched, before, after)
  }

  lemma {:induction false} SubstitutionLiteral(rep: string, matched: string, before: string, after: string)
    requires '$' !in rep
    ensures Substitution(rep, matched, before, after) == rep
    decreases |rep|
  {
    if rep != [] {
      assert rep[0] in rep;
      SubstitutionLiteral(rep[1..], matched, before, after);
    }
  }

  /** `s.replace(pat, rep)` with a string pattern: only the first occurrence
      is replaced. */
  function ReplaceFirst(s: string, pat: string, rep: string): string {
    var i := IndexOf(s, pat);
    if i == -1 then s
    else s[..i] + Substitution(rep, pat, s[..i], s[i + |pat|..]) + s[i + |pat|..]
  }

  /** `ReplaceFirst` with a replacement holding no `$`: the text before the first
      occurrence is kept, the occurrence is replaced, the rest is kept verbatim
      (later occurrences included); without an occurrence nothing changes. */
  lemma ReplaceFirstLiteral(s: string, pat: string, rep: string)
    requires '$' !in rep
    ensures !Contains(s, pat) ==> ReplaceFirst(s, pat, rep) == s
    ensures Contains(s, pat) ==>
      exists i :: OccursAt(s, pat, i) && (forall j | 0 <= j < i :: !OccursAt(s, pat, j))
        && ReplaceFirst(s, pat, rep) == s[..i] + rep + s[i + |pat|..]
  {
    var i := IndexOf(s, pat);
    if i != -1 {
      SubstitutionLiteral(rep, pat, s[..i], s[i + |pat|..]);
    }
  }

  /** `ReplaceFirst` with a replacement holding no `$` and the first
      occurrence at `i`. */
  lemma ReplaceFirstAt(s: string, pat: string, rep: string, i: int)
    requires '$' !in rep && OccursAt(s, pat, i)
    requires forall j | 0 <= j < i :: !OccursAt(s, pat, j)
    ensures ReplaceFirst(s, pat, rep) == s[..i] + rep + s[i + |pat|..]
  {
    IndexOfFirst(s, pat, i);
    SubstitutionLiteral(rep, pat, s[..i], s[i + |pat|..]);
  }

  /** `indexOf` finds the first occurrence. */
  lemma IndexOfFirst(s: string, sub: string, i: int)
    requires OccursAt(s, sub, i)
    requires forall j | 0 <= j < i :: !OccursAt(s, sub, j)
    ensures IndexOf(s, sub) == i
  {
    var k := IndexOf(s, sub);
    assert 0 <= i <= |s| - |sub|;
    assert Contains(s, sub);
  }

  function CountChar(s: string, c: char): nat {
    if s == [] then 0 else (if s[0] == c then 1 else 0) + CountChar(s[1..], c)
  }

  /** `s.split(sep)` for a one-character separator. */
  function Split(s: string, sep: char): (r: seq<string>)
    ensures |r| >= 1
    decreases |s|
  {
    if |s| == 0 then [""]
    else
      var rest := Split(s[1..], sep);
      if s[0] == sep then [""] + rest
      else [[s[0]] + rest[0]] + rest[1..]
  }

  lemma {:induction false} SplitCount(s: string, sep: char)
    ensures |Split(s, sep)| == CountChar(s, sep) + 1
    decreases |s|
  {
    if |s| > 0 {
      SplitCount(s[1..], sep);
    }
  }

  lemma {:induction false} CountCharAppend(a: string, b: string, c: char)
    ensures CountChar(a + b, c) == CountChar(a, c) + CountChar(b, c)
    decreases |a|
  {
    if a != [] {
      assert (a + b)[1..] == a[1..] + b;
      assert (a + b)[0] == a[0];
      CountCharAppend(a[1..], b, c);
      assert CountChar(a + b, c) == (if a[0] == c then 1 else 0) + CountChar(a[1..] + b, c);
    } else {
      assert a + b == b;
    }
  }

  lemma CountCharAtLeast(s: string, c: char, i: int, j: int)
    requires 0 <= i < j < |s| && s[i] == c && s[j] == c
    ensures CountChar(s, c) >= 2
  {
    assert s == s[..j] + s[j..];
    CountCharAppend(s[..j], s[j..], c);
    assert s[..j] == s[..i] + s[i..j];
    CountCharAppend(s[..i], s[i..j], c);
    assert s[i..j][0] == c;
    assert s[j..][0] == c;
  }

  /** `parts.join(sep)`. */
  function Join(parts: seq<string>, sep: string): string {
    if |parts| == 0 then ""
    else if |parts| == 1 then parts[0]
    else parts[0] + sep + Join(parts[1..], sep)
  }

  lemma {:induction false} SplitSeparatorFree(a: string, sep: char)
    requires sep !in a
    ensures Split(a, sep) == [a]
    decreases |a|
  {
    if a != [] {
      assert a[0] in a;
      SplitSeparatorFree(a[1..], sep);
      assert [a[0]] + a[1..] == a;
    }
  }

  lemma {:induction false} SplitAfterPart(a: string, sep: char, b: string)
    requires sep !in a
    ensures Split(a + [sep] + b, sep) == [a] + Split(b, sep)
    decreases |a|
  {
    if a == [] {
      assert a + [sep] + b == [sep] + b;
      assert ([sep] + b)[1..] == b;
    } else {
      assert a[0] in a;
      assert (a + [sep] + b)[1..] == a[1..] + [sep] + b;
      SplitAfterPart(a[1..], sep, b);
      assert [a[0]] + a[1..] == a;
    }
  }

  /** No part of a split holds the separator. */
  lemma {:induction false} SplitPartsSeparatorFree(s: string, sep: char)
    ensures forall i | 0 <= i < |Split(s, sep)| :: sep !in Split(s, sep)[i]
    decreases |s|
  {
    if |s| > 0 {
      SplitPartsSeparatorFree(s[1..], sep);
    }
  }

  /** Splitting a join of separator-free parts gives the parts back. */
  lemma {:induction false} SplitJoin(parts: seq<string>, sep: char)
    requires |parts| >= 1
    requires forall i | 0 <= i < |parts| :: sep !in parts[i]
    ensures Split(Join(parts, [sep]), sep) == parts
    decreases |parts|
  {
    if |parts| == 1 {
      SplitSeparatorFree(parts[0], sep);
    } else {
      SplitJoin(parts[1..], sep);
      SplitAfterPart(parts[0], sep, Join(parts[1..], [sep]));
      assert [parts[0]] + parts[1..] == parts;
    }
  }

  /** Joining the parts of a split with the separator rebuilds the string. */
  lemma {:induction false} JoinSplit(s: string, sep: char)
    ensures Join(Split(s, sep), [sep]) == s
    decreases |s|
  {
    if |s| > 0 {
      var rest := Split(s[1..], sep);
      JoinSplit(s[1..], sep);
      if s[0] == sep {
        assert Join([""] + rest, [sep]) == "" + [sep] + Join(rest, [sep]) by {
          assert ([""] + rest)[1..] == rest;
        }
      } else if |rest| == 1 {
        assert Join(rest, [sep]) == rest[0];
      } else {
        var parts := [[s[0]] + rest[0]] + rest[1..];
        assert parts[1..] == rest[1..];
        assert Join(rest, [sep]) == rest[0] + [sep] + Join(rest[1..], [sep]);
        assert Join(parts, [sep]) == [s[0]] + rest[0] + [sep] + Join(rest[1..], [sep]);
      }
      assert [s[0]] + s[1..] == s;
    }
  }

  predicate IsDigit(c: char) {
    '0' <= c <= '9'
  }

  function DigitChar(d: int): (c: char)
    requires 0 <= d < 10
    ensures IsDigit(c) && c as int - '0' as int == d
  {
    ('0' as int + d) as char
  }

  /** The decimal rendering of a natural number (`String(n)`, `${n}`). */
  function NatToString(n: nat): (r: string)
    ensures |r| >= 1
    ensures forall i | 0 <= i < |r| :: IsDigit(r[i])
    decreases n
  {
    if n < 10 then [DigitChar(n)] else NatToString(n / 10) + [DigitChar(n % 10)]
  }

  /** The value of a string of decimal digits. */
  function DigitsValue(s: string): int
    decreases |s|
  {
    if s == [] then 0 else 10 * DigitsValue(s[..|s| - 1]) + (s[|s| - 1] as int - '0' as int)
  }

  lemma {:induction false} NatToStringRoundTrip(n: nat)
    ensures DigitsValue(NatToString(n)) == n
    decreases n
  {
    if n >= 10 {
      NatToStringRoundTrip(n / 10);
      var s := NatToString(n);
      assert s[..|s| - 1] == NatToString(n / 10);
    }
  }

  /** Distinct numbers render as distinct strings. */
  lemma NatToStringInjective(m: nat, n: nat)
    requires NatToString(m) == NatToString(n)
    ensures m == n
  {
    NatToStringRoundTrip(m);
    NatToStringRoundTrip(n);
  }

  /** The decimal rendering of an integer. */
  function IntToString(n: int): string {
    if n < 0 then "-" + NatToString(-n) else NatToString(n)
  }
}
