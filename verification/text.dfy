/** The JavaScript string operations the core relies on: `toLowerCase`,
    `toUpperCase`, `trim`, `indexOf`, `split` (first two fields),
    `replace(/c/g, '')` and `replace(pattern, replacement)` with a string pattern. */
module Text {
  import opened Wrappers

  predicate IsAsciiUpper(c: char) { 'A' <= c <= 'Z' }
  predicate IsAsciiLower(c: char) { 'a' <= c <= 'z' }
  predicate IsDigit(c: char) { '0' <= c <= '9' }

  function LowerChar(c: char): (r: char)
    ensures !IsAsciiUpper(r)
    ensures !IsAsciiUpper(c) ==> r == c
    ensures IsAsciiUpper(c) ==> IsAsciiLower(r)
  {
    if IsAsciiUpper(c) then (c as int + 32) as char else c
  }

  function UpperChar(c: char): (r: char)
    ensures !IsAsciiLower(r)
    ensures !IsAsciiLower(c) ==> r == c
    ensures IsAsciiLower(c) ==> IsAsciiUpper(r)
  {
    if IsAsciiLower(c) then (c as int - 32) as char else c
  }

  /** `s.toLowerCase()` on the ASCII letters. */
  function Lower(s: string): (r: string)
    ensures |r| == |s|
    ensures forall i :: 0 <= i < |s| ==> r[i] == LowerChar(s[i])
  {
    seq(|s|, i requires 0 <= i < |s| => LowerChar(s[i]))
  }

  /** `s.toUpperCase()` on the ASCII letters. */
  function Upper(s: string): (r: string)
    ensures |r| == |s|
    ensures forall i :: 0 <= i < |s| ==> r[i] == UpperChar(s[i])
  {
    seq(|s|, i requires 0 <= i < |s| => UpperChar(s[i]))
  }

  lemma LowerIdempotent(s: string)
    ensures Lower(Lower(s)) == Lower(s)
  {
    assert forall i :: 0 <= i < |s| ==> LowerChar(LowerChar(s[i])) == LowerChar(s[i]);
  }

  /** A string without upper-case ASCII letters is its own lower case. */
  lemma LowerUnchanged(s: string)
    requires forall i :: 0 <= i < |s| ==> !IsAsciiUpper(s[i])
    ensures Lower(s) == s
  {
  }

  /** The characters `String.prototype.trim` removes: ECMAScript WhiteSpace
      (including every Zs code point) and LineTerminator. */
  predicate IsJsSpace(c: char) {
    c == '\t' || c == '\n' || c == '\r' || c == ' ' ||
    c == '\U{000B}' || c == '\U{000C}' || c == '\U{00A0}' || c == '\U{FEFF}' ||
    c == '\U{2028}' || c == '\U{2029}' || c == '\U{1680}' ||
    ('\U{2000}' <= c <= '\U{200A}') || c == '\U{202F}' || c == '\U{205F}' || c == '\U{3000}'
  }

  /** Number of leading white-space characters. */
  function LeadingSpace(s: string): (k: nat)
    ensures k <= |s|
    ensures forall m :: 0 <= m < k ==> IsJsSpace(s[m])
    ensures k == |s| || !IsJsSpace(s[k])
  {
    if |s| > 0 && IsJsSpace(s[0]) then 1 + LeadingSpace(s[1..]) else 0
  }

  /** Length of `s` once its trailing white space is dropped. */
  function WithoutTrailingSpace(s: string): (k: nat)
    ensures k <= |s|
    ensures forall m :: k <= m < |s| ==> IsJsSpace(s[m])
    ensures k == 0 || !IsJsSpace(s[k - 1])
  {
    if |s| > 0 && IsJsSpace(s[|s| - 1]) then WithoutTrailingSpace(s[..|s| - 1]) else |s|
  }

  /** `s.trim()`. */
  function Trim(s: string): (r: string)
    ensures |r| <= |s|
    ensures r == [] || (!IsJsSpace(r[0]) && !IsJsSpace(r[|r| - 1]))
  {
    var t := s[LeadingSpace(s)..];
    t[..WithoutTrailingSpace(t)]
  }

  lemma {:induction false} TrimUnchanged(s: string)
    requires s == [] || (!IsJsSpace(s[0]) && !IsJsSpace(s[|s| - 1]))
    ensures Trim(s) == s
  {
    assert LeadingSpace(s) == 0;
    assert s[0..] == s;
    assert WithoutTrailingSpace(s) == |s|;
  }

  lemma TrimIdempotent(s: string)
    ensures Trim(Trim(s)) == Trim(s)
  {
    TrimUnchanged(Trim(s));
  }

  /** The index of the first `c` in `s`, as `s.indexOf(c)` (None for -1). */
  function Find(s: string, c: char): (r: Option<nat>)
    ensures r.None? <==> c !in s
    ensures r.Some? ==> r.value < |s| && s[r.value] == c && c !in s[..r.value]
  {
    if |s| == 0 then None
    else if s[0] == c then Some(0)
    else match Find(s[1..], c)
      case None => None
      case Some(i) =>
        assert s[..i + 1] == [s[0]] + s[1..][..i];
        Some(i + 1)
  }

  /** The length of the first field of `t.split(c)`: up to the first `c`, or all of `t`. */
  function FieldEnd(t: string, c: char): (j: nat)
    ensures j <= |t| && c !in t[..j]
    ensures j == |t| || t[j] == c
  {
    match Find(t, c)
    case None => assert t[..|t|] == t; |t|
    case Some(j) => j
  }

  /** The first two fields of `s.split(c)`: the text before the first `c`, and the
      text between the first and the second `c` (None when `s` holds no `c`:
      the destructured second field is `undefined`). */
  function SplitTwo(s: string, c: char): (r: (string, Option<string>))
    ensures c !in r.0
    ensures r.1.Some? ==> c !in r.1.value
    ensures r.1.None? <==> c !in s
    ensures r.1.None? ==> r.0 == s
    ensures r.1.Some? ==> exists rest :: s == r.0 + [c] + r.1.value + rest && (rest == [] || rest[0] == c)
  {
    match Find(s, c)
    case None => (s, None)
    case Some(i) =>
      var tail := s[i + 1..];
      var j := FieldEnd(tail, c);
      var rest := tail[j..];
      assert s == s[..i] + [c] + tail[..j] + rest;
      (s[..i], Some(tail[..j]))
  }

  lemma {:induction false} FindLower(s: string)
    ensures Find(Lower(s), '@') == Find(s, '@')
  {
    if |s| > 0 {
      assert Lower(s)[1..] == Lower(s[1..]);
      FindLower(s[1..]);
    }
  }

  /** Lower-casing commutes with taking a slice. */
  lemma LowerSlice(s: string, i: nat, j: nat)
    requires i <= j <= |s|
    ensures Lower(s)[i..j] == Lower(s[i..j])
  {
  }

  /** The fields `SplitTwo` cuts once the first `c` is at `i`. */
  lemma SplitTwoAt(s: string, c: char, i: nat)
    requires Find(s, c) == Some(i)
    ensures SplitTwo(s, c) == (s[..i], Some(s[i + 1..][..FieldEnd(s[i + 1..], c)]))
  {
  }

  lemma SplitTwoLower(s: string)
    ensures SplitTwo(Lower(s), '@').0 == Lower(SplitTwo(s, '@').0)
    ensures SplitTwo(Lower(s), '@').1.Some? <==> SplitTwo(s, '@').1.Some?
    ensures SplitTwo(s, '@').1.Some? ==> SplitTwo(Lower(s), '@').1.value == Lower(SplitTwo(s, '@').1.value)
  {
    FindLower(s);
    if Find(s, '@').Some? {
      var i := Find(s, '@').value;
      var ls := Lower(s);
      var t := s[i + 1..];
      SplitTwoAt(s, '@', i);
      SplitTwoAt(ls, '@', i);
      LowerSlice(s, i + 1, |s|);
      assert ls[i + 1..] == Lower(t);
      FindLower(t);
      var j := FieldEnd(t, '@');
      assert FieldEnd(Lower(t), '@') == j;
      LowerSlice(t, 0, j);
      LowerSlice(s, 0, i);
      assert SplitTwo(ls, '@').1.value == Lower(t)[..j] == Lower(t[..j]);
    }
  }

  /** `s.replace(/c/g, '')`: every `c` removed. */
  function RemoveAll(s: string, c: char): (r: string)
    ensures c !in r
    ensures |r| <= |s|
    ensures forall d :: d != c ==> (d in r <==> d in s)
  {
    if |s| == 0 then []
    else if s[0] == c then RemoveAll(s[1..], c)
    else [s[0]] + RemoveAll(s[1..], c)
  }

  lemma {:induction false} RemoveAllAbsent(s: string, c: char)
    requires c !in s
    ensures RemoveAll(s, c) == s
  {
    if |s| > 0 {
      RemoveAllAbsent(s[1..], c);
    }
  }

  lemma {:induction false} RemoveAllConcat(a: string, b: string, c: char)
    ensures RemoveAll(a + b, c) == RemoveAll(a, c) + RemoveAll(b, c)
  {
    if |a| > 0 {
      assert (a + b)[1..] == a[1..] + b;
      RemoveAllConcat(a[1..], b, c);
    } else {
      assert a + b == b;
    }
  }

  /** `pat` occurs in `s` at index `j`. */
  predicate OccursAt(s: string, pat: string, j: int) {
    0 <= j && j + |pat| <= |s| && s[j..j + |pat|] == pat
  }

  /** The first index at or after `from` where `pat` occurs in `s`, as `s.indexOf(pat, from)`. */
  function FindSub(s: string, pat: string, from: nat): (r: Option<nat>)
    requires |pat| > 0
    ensures r.Some? ==> from <= r.value && OccursAt(s, pat, r.value)
    ensures r.Some? ==> forall j :: from <= j < r.value ==> !OccursAt(s, pat, j)
    ensures r.None? ==> forall j :: from <= j ==> !OccursAt(s, pat, j)
    decreases |s| - from
  {
    if from + |pat| > |s| then None
    else if s[from..from + |pat|] == pat then Some(from)
    else FindSub(s, pat, from + 1)
  }

  /** The replacement text `s.replace(pat, rep)` inserts for a match: `rep`
      with its `$` patterns expanded, as the GetSubstitution
      operation of ECMA-262 does. `$$` is one `$`, `$&` the matched text, `` $` `` the text
      before the match and `$'` the text after it; a string pattern has no
      captures, so every other `$` is kept as it stands. */
  function Substitution(rep: string, matched: string, before: string, after: string): (r: string)
    ensures '$' !in rep ==> r == rep
  {
    if rep == [] then []
    else if rep[0] == '$' && |rep| >= 2 && rep[1] in "$&`'" then
      (if rep[1] == '$' then "$" else if rep[1] == '&' then matched else if rep[1] == '`' then before else after)
      + Substitution(rep[2..], matched, before, after)
    else [rep[0]] + Substitution(rep[1..], matched, before, after)
  }

  /** `s.replace(pat, rep)` for a string pattern: only the first occurrence is
      replaced, by `rep` with its `$` patterns expanded. */
  function ReplaceFirst(s: string, pat: string, rep: string): (r: string)
    requires |pat| > 0
    ensures FindSub(s, pat, 0).None? ==> r == s
    ensures FindSub(s, pat, 0).Some? ==>
      var i := FindSub(s, pat, 0).value;
      r == s[..i] + Substitution(rep, pat, s[..i], s[i + |pat|..]) + s[i + |pat|..]
    ensures FindSub(s, pat, 0).Some? && '$' !in rep ==>
      var i := FindSub(s, pat, 0).value;
      r == s[..i] + rep + s[i + |pat|..]
  {
    match FindSub(s, pat, 0)
    case None => s
    case Some(i) => s[..i] + Substitution(rep, pat, s[..i], s[i + |pat|..]) + s[i + |pat|..]
  }
}
