/**
 * The JavaScript string operations the extension relies on, as pure functions
 * over `string` (a sequence of Unicode scalar values).
 *
 * `String.prototype.replace` with a string pattern replaces the FIRST
 * occurrence only, and expands the `$`-patterns of its replacement text
 * (`$$`, `$&`, `` $` ``, `$'`); `Replace` models exactly that, and
 * `ReplaceLiteral` is the plain splice it coincides with whenever the
 * replacement contains no `$` (lemma `ReplaceIsLiteralWithoutDollar`).
 */
module Strings {
  import opened Wrappers

  /** `p` occurs in `s` starting at index `i`. */
  predicate OccursAt(s: string, p: string, i: int) {
    0 <= i && i + |p| <= |s| && s[i..i + |p|] == p
  }

  /** `s.includes(p)`. */
  predicate Contains(s: string, p: string) {
    exists i | 0 <= i <= |s| :: OccursAt(s, p, i)
  }

  /** `s.endsWith(p)`. */
  predicate EndsWith(s: string, p: string) {
    |p| <= |s| && s[|s| - |p|..] == p
  }

  /** `s.startsWith(p)`. */
  predicate StartsWith(s: string, p: string) {
    |p| <= |s| && s[..|p|] == p
  }

  /** An occurrence at the seam of `a + b` is a prefix of `b`, and conversely. */
  lemma OccursAtSeam(a: string, b: string, p: string)
    ensures OccursAt(a + b, p, |a|) <==> StartsWith(b, p)
  {
    if |p| <= |b| {
      assert (a + b)[|a|..|a| + |p|] == b[..|p|];
    }
  }

  /** The first occurrence of `p` in `s` at or after `k`. */
  function IndexFrom(s: string, p: string, k: nat): (r: Option<nat>)
    decreases |s| - k
    ensures r.Some? ==> k <= r.value && OccursAt(s, p, r.value)
    ensures r.Some? ==> forall j :: k <= j < r.value ==> !OccursAt(s, p, j)
    ensures r.None? ==> forall j :: k <= j ==> !OccursAt(s, p, j)
  {
    if k + |p| > |s| then None
    else if s[k..k + |p|] == p then Some(k)
    else IndexFrom(s, p, k + 1)
  }

  /** `s.indexOf(p)`, with -1 as `None`. */
  function IndexOf(s: string, p: string): (r: Option<nat>)
    ensures r.Some? <==> Contains(s, p)
    ensures r.Some? ==> OccursAt(s, p, r.value) && forall j :: 0 <= j < r.value ==> !OccursAt(s, p, j)
  {
    IndexFrom(s, p, 0)
  }

  /** The last occurrence of `p` in `s` that starts at or before `k`. */
  function LastIndexUpTo(s: string, p: string, k: int): (r: Option<nat>)
    decreases k + 1
    ensures r.Some? ==> r.value <= k && OccursAt(s, p, r.value)
    ensures r.Some? ==> forall j :: r.value < j <= k ==> !OccursAt(s, p, j)
    ensures r.None? ==> forall j :: j <= k ==> !OccursAt(s, p, j)
  {
    if k < 0 then None
    else if OccursAt(s, p, k) then Some(k)
    else LastIndexUpTo(s, p, k - 1)
  }

  /** `s.lastIndexOf(p)`, with -1 as `None`. */
  function LastIndexOf(s: string, p: string): (r: Option<nat>)
    ensures r.Some? <==> Contains(s, p)
    ensures r.Some? ==> OccursAt(s, p, r.value) && forall j :: r.value < j ==> !OccursAt(s, p, j)
  {
    LastIndexUpTo(s, p, |s|)
  }

  /** Replace the first occurrence of `p` by `r` verbatim; `s` itself when `p` does not occur. */
  function ReplaceLiteral(s: string, p: string, r: string): string {
    match IndexOf(s, p)
    case None => s
    case Some(i) => s[..i] + r + s[i + |p|..]
  }

  /**
   * The replacement text of `String.prototype.replace` for a match `matched`
   * preceded by `before` and followed by `after` (the ECMAScript
   * GetSubstitution operation for a pattern without capture groups):
   * `$$` is `$`, `$&` the match, `` $` `` the text before it, `$'` the text
   * after it; every other `$` (including `$<` and `$1`, which have no group to
   * refer to) stands for itself.
   */
  function Substitute(rep: string, matched: string, before: string, after: string): string
    decreases |rep|
  {
    if |rep| == 0 then ""
    else if rep[0] == '$' && |rep| >= 2 && rep[1] == '$' then "$" + Substitute(rep[2..], matched, before, after)
    else if rep[0] == '$' && |rep| >= 2 && rep[1] == '&' then matched + Substitute(rep[2..], matched, before, after)
    else if rep[0] == '$' && |rep| >= 2 && rep[1] == '`' then before + Substitute(rep[2..], matched, before, after)
    else if rep[0] == '$' && |rep| >= 2 && rep[1] == '\'' then after + Substitute(rep[2..], matched, before, after)
    else [rep[0]] + Substitute(rep[1..], matched, before, after)
  }

  /** Replace the span `s[i..j]` by `rep` with its `$`-patterns expanded. */
  function ReplaceSpan(s: string, i: nat, j: nat, rep: string): string
    requires i <= j <= |s|
  {
    s[..i] + Substitute(rep, s[i..j], s[..i], s[j..]) + s[j..]
  }

  /** `s.replace(p, rep)` for a string pattern `p`. */
  function Replace(s: string, p: string, rep: string): string {
    match IndexOf(s, p)
    case None => s
    case Some(i) => ReplaceSpan(s, i, i + |p|, rep)
  }

  /** A replacement text without `$` is inserted as it is. */
  lemma {:induction false} SubstituteWithoutDollar(rep: string, matched: string, before: string, after: string)
    requires '$' !in rep
    ensures Substitute(rep, matched, before, after) == rep
  {
    if |rep| > 0 {
      assert '$' !in rep[1..];
      SubstituteWithoutDollar(rep[1..], matched, before, after);
    }
  }

  /** `$`-pattern expansion distributes over a `$`-free prefix. */
  lemma {:induction false} SubstituteDollarFreePrefix(p: string, rep: string, matched: string, before: string, after: string)
    requires '$' !in p
    ensures Substitute(p + rep, matched, before, after) == p + Substitute(rep, matched, before, after)
  {
    if |p| > 0 {
      assert (p + rep)[1..] == p[1..] + rep;
      assert '$' !in p[1..];
      SubstituteDollarFreePrefix(p[1..], rep, matched, before, after);
      assert [p[0]] + p[1..] == p;
    } else {
      assert p + rep == rep;
    }
  }

  /** A leading `$&` stands for the matched text. */
  lemma SubstituteMatchPattern(rest: string, matched: string, before: string, after: string)
    ensures Substitute("$&" + rest, matched, before, after) == matched + Substitute(rest, matched, before, after)
  {
    assert ("$&" + rest)[2..] == rest;
  }

  /** Two `$&` between `$`-free texts each stand for the match. */
  lemma SubstituteTwoMatches(x: string, y: string, z: string, matched: string, before: string, after: string)
    requires '$' !in x && '$' !in y && '$' !in z
    ensures Substitute(x + "$&" + y + "$&" + z, matched, before, after) == x + matched + y + matched + z
  {
    assert x + "$&" + y + "$&" + z == x + ("$&" + (y + ("$&" + z)));
    SubstituteDollarFreePrefix(x, "$&" + (y + ("$&" + z)), matched, before, after);
    SubstituteMatchPattern(y + ("$&" + z), matched, before, after);
    SubstituteDollarFreePrefix(y, "$&" + z, matched, before, after);
    SubstituteMatchPattern(z, matched, before, after);
    SubstituteWithoutDollar(z, matched, before, after);
  }

  /** `s.replace(p, rep)` splices `rep` verbatim when `rep` has no `$`. */
  lemma ReplaceIsLiteralWithoutDollar(s: string, p: string, rep: string)
    requires '$' !in rep
    ensures Replace(s, p, rep) == ReplaceLiteral(s, p, rep)
  {
    match IndexOf(s, p)
    case None =>
    case Some(i) => SubstituteWithoutDollar(rep, p, s[..i], s[i + |p|..]);
  }

  /** The literal splice: what comes out, and where, in terms of the first occurrence. */
  lemma ReplaceLiteralSplice(s: string, p: string, r: string)
    ensures !Contains(s, p) ==> ReplaceLiteral(s, p, r) == s
    ensures Contains(s, p) ==>
      var i := IndexOf(s, p).value;
      && ReplaceLiteral(s, p, r) == s[..i] + r + s[i + |p|..]
      && |ReplaceLiteral(s, p, r)| == |s| - |p| + |r|
  {
  }

  /** An occurrence with none before it is the one `indexOf` finds. */
  lemma IndexOfIs(s: string, p: string, i: nat)
    requires OccursAt(s, p, i) && forall i' | 0 <= i' < i :: !OccursAt(s, p, i')
    ensures IndexOf(s, p) == Some(i)
  {
    assert Contains(s, p);
  }

  /** An occurrence with none after it is the one `lastIndexOf` finds. */
  lemma LastIndexOfIs(s: string, p: string, j: nat)
    requires OccursAt(s, p, j) && forall j' | j < j' :: !OccursAt(s, p, j')
    ensures LastIndexOf(s, p) == Some(j)
  {
    assert Contains(s, p);
  }

  /** A slice of a slice is a slice of the whole. */
  lemma SliceOfSlice(s: string, a: int, b: int, c: int, d: int)
    requires 0 <= a <= b <= |s| && 0 <= c <= d <= b - a
    ensures s[a..b][c..d] == s[a + c..a + d]
  {
    assert |s[a..b][c..d]| == d - c;
    forall k | 0 <= k < d - c
      ensures s[a..b][c..d][k] == s[a + c + k]
    {
    }
  }

  /** An occurrence survives being embedded in a longer string. */
  lemma OccursInConcat(a: string, b: string, p: string, i: int)
    ensures OccursAt(a, p, i) ==> OccursAt(a + b, p, i)
    ensures OccursAt(b, p, i) ==> OccursAt(a + b, p, |a| + i)
  {
    if OccursAt(a, p, i) {
      assert (a + b)[i..i + |p|] == a[i..i + |p|];
    }
    if OccursAt(b, p, i) {
      assert (a + b)[|a| + i..|a| + i + |p|] == b[i..i + |p|];
    }
  }

  /** `s.includes(p)` is preserved by putting text around `s`. */
  lemma ContainsInConcat(a: string, b: string, p: string)
    ensures Contains(a, p) ==> Contains(a + b, p)
    ensures Contains(b, p) ==> Contains(a + b, p)
  {
    if Contains(a, p) {
      var i :| OccursAt(a, p, i);
      OccursInConcat(a, b, p, i);
    }
    if Contains(b, p) {
      var i :| OccursAt(b, p, i);
      OccursInConcat(a, b, p, i);
    }
  }

  /** `c` occurs in `m` at most as its first character. */
  predicate NotAfterFirst(m: string, c: char) {
    forall k | 0 < k < |m| :: m[k] != c
  }

  /**
   * An occurrence of `m` survives inserting text before index `i`, when the
   * character at `i` appears in `m` only as its first character (so no
   * occurrence can straddle `i`).
   */
  lemma InsertKeepsContains(s: string, i: nat, ins: string, m: string)
    requires i < |s| && |m| > 0 && NotAfterFirst(m, s[i])
    requires Contains(s, m)
    ensures Contains(s[..i] + ins + s[i..], m)
  {
    var j :| 0 <= j <= |s| && OccursAt(s, m, j);
    var t := s[..i] + ins + s[i..];
    if j + |m| <= i {
      assert t[j..j + |m|] == s[j..j + |m|];
      assert OccursAt(t, m, j);
    } else if j >= i {
      assert t[j + |ins|..j + |ins| + |m|] == s[j..j + |m|];
      assert OccursAt(t, m, j + |ins|);
    } else {
      assert false;
    }
  }

  /** A text containing a character that `s` lacks does not occur in `s`. */
  lemma MissingCharExcludes(s: string, m: string, c: char)
    requires c in m && c !in s
    ensures !Contains(s, m)
  {
    var k :| 0 <= k < |m| && m[k] == c;
    forall j | 0 <= j <= |s|
      ensures !OccursAt(s, m, j)
    {
      if j + |m| <= |s| {
        assert s[j..j + |m|][k] == s[j + k] != c;
      }
    }
  }

  /** A text occurs where it is put. */
  lemma ContainsMiddle(a: string, m: string, b: string)
    ensures Contains(a + m + b, m)
  {
    assert (a + m + b)[|a|..|a| + |m|] == m;
    assert OccursAt(a + m + b, m, |a|);
  }

  /** What occurs in an occurring text occurs in the whole. */
  lemma ContainsTransitive(s: string, t: string, m: string)
    requires Contains(s, t) && Contains(t, m)
    ensures Contains(s, m)
  {
    var i :| 0 <= i <= |s| && OccursAt(s, t, i);
    var j :| 0 <= j <= |t| && OccursAt(t, m, j);
    forall k | 0 <= k < |m|
      ensures s[i + j + k] == m[k]
    {
      assert s[i + j + k] == s[i..i + |t|][j + k] == t[j + k] == t[j..j + |m|][k];
    }
    assert s[i + j..i + j + |m|] == m;
    assert OccursAt(s, m, i + j);
  }

  /** After a literal splice, the inserted text occurs in the result. */
  lemma ReplaceLiteralInserts(s: string, p: string, r: string)
    requires Contains(s, p)
    ensures Contains(ReplaceLiteral(s, p, r), r)
  {
    var i := IndexOf(s, p).value;
    var t := ReplaceLiteral(s, p, r);
    assert t[i..i + |r|] == r;
    assert OccursAt(t, r, i);
  }

  /** `parts.join(sep)`. */
  function Join(parts: seq<string>, sep: string): string {
    if |parts| == 0 then ""
    else if |parts| == 1 then parts[0]
    else parts[0] + sep + Join(parts[1..], sep)
  }

  /** Joining one more part adds it after one separator. */
  lemma {:induction false} JoinSnoc(parts: seq<string>, last: string, sep: string)
    requires |parts| > 0
    ensures Join(parts + [last], sep) == Join(parts, sep) + sep + last
  {
    if |parts| > 1 {
      assert (parts + [last])[1..] == parts[1..] + [last];
      JoinSnoc(parts[1..], last, sep);
    }
  }

  /** A character in neither the parts nor the separator is not in their join. */
  lemma {:induction false} JoinAvoids(parts: seq<string>, sep: string, c: char)
    requires c !in sep && forall i | 0 <= i < |parts| :: c !in parts[i]
    ensures c !in Join(parts, sep)
  {
    if |parts| > 1 {
      assert forall i | 0 <= i < |parts[1..]| :: parts[1..][i] == parts[i + 1];
      JoinAvoids(parts[1..], sep, c);
    }
  }

  /** Each part is found in the joined text. */
  lemma {:induction false} JoinHasPart(parts: seq<string>, sep: string, i: nat)
    requires i < |parts|
    ensures Contains(Join(parts, sep), parts[i])
  {
    var j := Join(parts, sep);
    if |parts| == 1 {
      assert j[0..|j|] == j;
      assert OccursAt(j, parts[i], 0);
    } else if i == 0 {
      assert j[0..|parts[0]|] == parts[0];
      assert OccursAt(j, parts[i], 0);
    } else {
      JoinHasPart(parts[1..], sep, i - 1);
      assert parts[1..][i - 1] == parts[i];
      ContainsInConcat(parts[0] + sep, Join(parts[1..], sep), parts[i]);
    }
  }

  /** Every character of `s` replaced by `f` of it (a global one-character `replace`). */
  function MapChars(s: string, f: char -> string): (r: string)
    ensures forall c :: c in r ==> exists d :: d in s && c in f(d)
  {
    if |s| == 0 then "" else f(s[0]) + MapChars(s[1..], f)
  }

  /** `MapChars` distributes over concatenation. */
  lemma {:induction false} MapCharsConcat(a: string, b: string, f: char -> string)
    ensures MapChars(a + b, f) == MapChars(a, f) + MapChars(b, f)
  {
    if |a| > 0 {
      assert (a + b)[1..] == a[1..] + b;
      MapCharsConcat(a[1..], b, f);
    } else {
      assert a + b == b;
    }
  }

  /** `s.replace(/c/g, rep)`: every `c` replaced by `rep` ($-free replacement). */
  function ReplaceAllChar(s: string, c: char, rep: string): (r: string)
    ensures c !in rep ==> c !in r
    ensures c !in s ==> r == s
  {
    if |s| == 0 then ""
    else (if s[0] == c then rep else [s[0]]) + ReplaceAllChar(s[1..], c, rep)
  }

  /** A character in neither the input nor the replacement is not in the output. */
  lemma {:induction false} ReplaceAllCharAbsent(s: string, c: char, rep: string, d: char)
    requires d !in s && d !in rep
    ensures d !in ReplaceAllChar(s, c, rep)
  {
    if |s| > 0 {
      assert d !in s[1..];
      ReplaceAllCharAbsent(s[1..], c, rep, d);
    }
  }

  /** Global one-character replacement distributes over concatenation. */
  lemma {:induction false} ReplaceAllCharConcat(a: string, b: string, c: char, rep: string)
    ensures ReplaceAllChar(a + b, c, rep) == ReplaceAllChar(a, c, rep) + ReplaceAllChar(b, c, rep)
  {
    if |a| > 0 {
      var x := if a[0] == c then rep else [a[0]];
      assert (a + b)[0] == a[0];
      assert (a + b)[1..] == a[1..] + b;
      assert ReplaceAllChar(a + b, c, rep) == x + ReplaceAllChar(a[1..] + b, c, rep);
      ReplaceAllCharConcat(a[1..], b, c, rep);
      assert ReplaceAllChar(a, c, rep) == x + ReplaceAllChar(a[1..], c, rep);
    } else {
      assert a + b == b;
    }
  }

  /** ASCII letters `A`-`Z` lower-cased; every other character unchanged. */
  function LowerChar(c: char): char {
    if 'A' <= c <= 'Z' then (c as int - 'A' as int + 'a' as int) as char else c
  }

  /** `s.toLowerCase()` on the ASCII range. */
  function ToLower(s: string): (r: string)
    ensures |r| == |s|
    ensures forall i :: 0 <= i < |s| ==> r[i] == LowerChar(s[i])
  {
    if |s| == 0 then "" else [LowerChar(s[0])] + ToLower(s[1..])
  }

  /** The characters `String.prototype.trim` removes: white space and line terminators. */
  predicate IsJsWhitespace(c: char) {
    c == '\t' || c == '\n' || c == '\U{000B}' || c == '\U{000C}' || c == '\r' || c == ' '
    || c == '\U{00A0}' || c == '\U{1680}' || '\U{2000}' <= c <= '\U{200A}'
    || c == '\U{2028}' || c == '\U{2029}' || c == '\U{202F}' || c == '\U{205F}'
    || c == '\U{3000}' || c == '\U{FEFF}'
  }

  function TrimStart(s: string): (r: string)
    ensures |r| <= |s| && r == s[|s| - |r|..]
    ensures |r| > 0 ==> !IsJsWhitespace(r[0])
    ensures forall i :: 0 <= i < |s| - |r| ==> IsJsWhitespace(s[i])
  {
    if |s| > 0 && IsJsWhitespace(s[0]) then TrimStart(s[1..]) else s
  }

  function TrimEnd(s: string): (r: string)
    ensures |r| <= |s| && r == s[..|r|]
    ensures |r| > 0 ==> !IsJsWhitespace(r[|r| - 1])
    ensures forall i :: |r| <= i < |s| ==> IsJsWhitespace(s[i])
  {
    if |s| > 0 && IsJsWhitespace(s[|s| - 1]) then TrimEnd(s[..|s| - 1]) else s
  }

  /** `s.trim()`. */
  function Trim(s: string): string {
    TrimEnd(TrimStart(s))
  }

  /** The trimmed text is a slice of the input with no white space at either end. */
  lemma TrimIsInnerSlice(s: string)
    ensures exists i, j :: (0 <= i <= j <= |s| && Trim(s) == s[i..j]
      && (forall k :: 0 <= k < i ==> IsJsWhitespace(s[k]))
      && (forall k :: j <= k < |s| ==> IsJsWhitespace(s[k])))
    ensures |Trim(s)| > 0 ==> !IsJsWhitespace(Trim(s)[0]) && !IsJsWhitespace(Trim(s)[|Trim(s)| - 1])
  {
    var t := TrimStart(s);
    var i := |s| - |t|;
    var j := i + |TrimEnd(t)|;
    assert Trim(s) == s[i..j];
    assert forall k :: j <= k < |s| ==> s[k] == t[k - i];
  }

  /** The decimal digits of a natural number, as `String(n)` prints them. */
  function NatToString(n: nat): (r: string)
    ensures |r| > 0
    ensures forall c :: c in r ==> '0' <= c <= '9'
    decreases n
  {
    var d := ['0' + (n % 10) as char];
    if n < 10 then d else NatToString(n / 10) + d
  }

  /** The value of a decimal digit; other characters read as 0. */
  function DigitValue(c: char): nat {
    if '0' <= c <= '9' then (c - '0') as nat else 0
  }

  /** The number a string of decimal digits denotes, read from the left. */
  function DigitsValue(s: string): nat
    decreases |s|
  {
    if |s| == 0 then 0 else 10 * DigitsValue(s[..|s| - 1]) + DigitValue(s[|s| - 1])
  }

  /** The digits `NatToString` prints denote `n`, without a leading zero. */
  lemma {:induction false} NatToStringValue(n: nat)
    ensures DigitsValue(NatToString(n)) == n
    ensures NatToString(n)[0] == '0' ==> n == 0
    decreases n
  {
    var d := ['0' + (n % 10) as char];
    assert DigitValue(d[0]) == n % 10;
    if n >= 10 {
      NatToStringValue(n / 10);
      var r := NatToString(n / 10) + d;
      assert r[..|r| - 1] == NatToString(n / 10);
      assert r[0] == NatToString(n / 10)[0];
    }
  }

  /** `String(n)` for an integer-valued JavaScript number. */
  function IntToString(n: int): string {
    if n < 0 then "-" + NatToString(-n) else NatToString(n)
  }
}
