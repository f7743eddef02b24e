/** Python's string operations that the log and knowledge-base code relies on. */
module Text {

  /** Characters that `str.strip` removes by default. */
  predicate IsSpace(c: char) {
    IsBreak(c) || c == '\t' || c == '\U{1F}' || c == ' ' || c == '\U{A0}' || c == '\U{1680}'
    || '\U{2000}' <= c <= '\U{200A}' || c == '\U{202F}' || c == '\U{205F}' || c == '\U{3000}'
  }

  /** Characters that end a line for `str.splitlines`. */
  predicate IsBreak(c: char) {
    c == '\n' || c == '\r' || c == '\U{0B}' || c == '\U{0C}' || '\U{1C}' <= c <= '\U{1E}'
    || c == '\U{85}' || c == '\U{2028}' || c == '\U{2029}'
  }

  /** The first position from `i` on that holds another kind of character, or the length. */
  function KeptFrom(s: string, drop: char -> bool, i: nat): (k: nat)
    requires i <= |s|
    ensures i <= k <= |s|
    ensures forall j :: i <= j < k ==> drop(s[j])
    ensures k < |s| ==> !drop(s[k])
    decreases |s| - i
  {
    if i < |s| && drop(s[i]) then KeptFrom(s, drop, i + 1) else i
  }

  /** The last position up to `i` that follows another kind of character, or the start. */
  function KeptUpTo(s: string, drop: char -> bool, i: nat): (k: nat)
    requires i <= |s|
    ensures k <= i
    ensures forall j :: k <= j < i ==> drop(s[j])
    ensures k > 0 ==> !drop(s[k - 1])
  {
    if i > 0 && drop(s[i - 1]) then KeptUpTo(s, drop, i - 1) else i
  }

  function TrimLeft(s: string, drop: char -> bool): string {
    s[KeptFrom(s, drop, 0)..]
  }

  function TrimRight(s: string, drop: char -> bool): string {
    s[..KeptUpTo(s, drop, |s|)]
  }

  function LStrip(s: string): string {
    TrimLeft(s, IsSpace)
  }

  function Strip(s: string): string {
    TrimRight(LStrip(s), IsSpace)
  }

  /** Position of the first line break, or the length. */
  function FirstBreak(s: string): (n: nat)
    ensures n <= |s|
    ensures forall i :: 0 <= i < n ==> !IsBreak(s[i])
    ensures n < |s| ==> IsBreak(s[n])
  {
    if s == "" || IsBreak(s[0]) then 0 else 1 + FirstBreak(s[1..])
  }

  lemma FirstBreakIs(s: string, n: nat)
    requires n <= |s| && (forall i :: 0 <= i < n ==> !IsBreak(s[i])) && (n < |s| ==> IsBreak(s[n]))
    ensures FirstBreak(s) == n
  {
  }

  /** Lines without their breaks; a carriage return and line feed end a line together. */
  function SplitLines(s: string): seq<string>
    decreases |s|
  {
    var n := FirstBreak(s);
    if s == "" then []
    else if n == |s| then [s]
    else
      var width := if s[n] == '\r' && n + 1 < |s| && s[n + 1] == '\n' then 2 else 1;
      [s[..n]] + SplitLines(s[n + width..])
  }

  predicate NoBreaks(s: string) {
    forall i :: 0 <= i < |s| ==> !IsBreak(s[i])
  }

  lemma {:induction false} LinesHaveNoBreaks(s: string)
    ensures forall l :: l in SplitLines(s) ==> NoBreaks(l)
    decreases |s|
  {
    var n := FirstBreak(s);
    if s != "" && n < |s| {
      var width := if s[n] == '\r' && n + 1 < |s| && s[n + 1] == '\n' then 2 else 1;
      LinesHaveNoBreaks(s[n + width..]);
    }
  }

  /** A line that does not end in a break character splits off cleanly at a line feed. */
  lemma SplitAtLineFeed(line: string, rest: string)
    requires NoBreaks(line)
    ensures SplitLines(line + "\n" + rest) == [line] + SplitLines(rest)
  {
    var s := line + "\n" + rest;
    FirstBreakIs(s, |line|);
    assert s[..|line|] == line && s[|line| + 1..] == rest;
  }

  /** `"\n".join(lines)`. */
  function JoinLines(lines: seq<string>): string {
    if lines == [] then ""
    else if |lines| == 1 then lines[0]
    else lines[0] + "\n" + JoinLines(lines[1..])
  }

  /** Joined lines split back, as long as no line is empty or holds a break. */
  lemma {:induction false} SplitOfJoin(lines: seq<string>)
    requires forall i :: 0 <= i < |lines| ==> lines[i] != "" && NoBreaks(lines[i])
    ensures SplitLines(JoinLines(lines)) == lines
  {
    if |lines| == 1 {
      FirstBreakIs(lines[0], |lines[0]|);
    } else if |lines| > 1 {
      SplitOfJoin(lines[1..]);
      SplitAtLineFeed(lines[0], JoinLines(lines[1..]));
    }
  }

  /** Substring test; the empty string is in every string. */
  predicate Contains(s: string, part: string) {
    exists i :: 0 <= i <= |s| && part <= s[i..]
  }

  // ---------------------------------------------------------------- trimming

  /** `part` is a contiguous piece of `whole`. */
  ghost predicate IsSlice(part: string, whole: string) {
    exists before, after :: whole == before + part + after
  }

  /** The substring test asks just that. */
  lemma ContainsMeans(s: string, part: string)
    ensures Contains(s, part) <==> IsSlice(part, s)
  {
    if Contains(s, part) {
      var i :| 0 <= i <= |s| && part <= s[i..];
      assert s == s[..i] + part + s[i..][|part|..];
    }
    if IsSlice(part, s) {
      var before, after :| s == before + part + after;
      assert s[|before|..] == part + after;
    }
  }

  predicate AllSpace(s: string) {
    forall i :: 0 <= i < |s| ==> IsSpace(s[i])
  }

  lemma KeptFromIs(s: string, drop: char -> bool, i: nat, k: nat)
    requires i <= k <= |s| && (forall j :: i <= j < k ==> drop(s[j])) && (k < |s| ==> !drop(s[k]))
    ensures KeptFrom(s, drop, i) == k
  {
  }

  lemma KeptUpToIs(s: string, drop: char -> bool, i: nat, k: nat)
    requires k <= i <= |s| && (forall j :: k <= j < i ==> drop(s[j])) && (k > 0 ==> !drop(s[k - 1]))
    ensures KeptUpTo(s, drop, i) == k
  {
  }

  /** Stripping on the left leaves what follows the leading white space. */
  lemma LStripIs(left: string, rest: string)
    requires AllSpace(left) && (rest != "" ==> !IsSpace(rest[0]))
    ensures LStrip(left + rest) == rest
  {
    KeptFromIs(left + rest, IsSpace, 0, |left|);
  }

  lemma LStripSplits(s: string) returns (left: string)
    ensures s == left + LStrip(s) && AllSpace(left) && (LStrip(s) != "" ==> !IsSpace(LStrip(s)[0]))
  {
    left := s[..KeptFrom(s, IsSpace, 0)];
  }

  predicate Stripped(core: string) {
    core != "" ==> !IsSpace(core[0]) && !IsSpace(core[|core| - 1])
  }

  /** Stripping leaves what stands between the white space at both ends. */
  lemma StripIs(left: string, core: string, right: string)
    requires AllSpace(left) && AllSpace(right) && Stripped(core)
    ensures Strip(left + core + right) == core
  {
    var s := left + core + right;
    if core == "" {
      KeptFromIs(s, IsSpace, 0, |s|);
      assert LStrip(s) == "";
    } else {
      assert s == left + (core + right);
      LStripIs(left, core + right);
      KeptUpToIs(core + right, IsSpace, |core + right|, |core|);
      assert (core + right)[..|core|] == core;
    }
  }

  lemma StripOfStripped(s: string)
    requires Stripped(s)
    ensures Strip(s) == s
  {
    StripIs("", s, "");
    assert "" + s + "" == s;
  }

  lemma TrimRightIs(s: string, drop: char -> bool, kept: string)
    requires kept <= s && (forall i :: |kept| <= i < |s| ==> drop(s[i])) && (kept != "" ==> !drop(kept[|kept| - 1]))
    ensures TrimRight(s, drop) == kept
  {
    KeptUpToIs(s, drop, |s|, |kept|);
  }

  lemma StripSplits(s: string) returns (left: string, right: string)
    ensures s == left + Strip(s) + right && AllSpace(left) && AllSpace(right) && Stripped(Strip(s))
  {
    left := LStripSplits(s);
    right := LStrip(s)[|Strip(s)|..];
    assert LStrip(s) == Strip(s) + right;
    assert s == left + Strip(s) + right;
    forall i | 0 <= i < |right|
      ensures IsSpace(right[i])
    {
      assert right[i] == LStrip(s)[|Strip(s)| + i];
    }
  }

  lemma SliceOfSlice(a: string, b: string, c: string)
    requires IsSlice(a, b) && IsSlice(b, c)
    ensures IsSlice(a, c)
  {
    var p, q :| b == p + a + q;
    var u, v :| c == u + b + v;
    assert c == (u + p) + a + (q + v);
  }

  predicate EndsWith(s: string, suffix: string) {
    |suffix| <= |s| && s[|s| - |suffix|..] == suffix
  }

  lemma SuffixIsSlice(part: string, whole: string)
    requires |part| <= |whole| && part == whole[|whole| - |part|..]
    ensures IsSlice(part, whole)
  {
    assert whole == whole[..|whole| - |part|] + part + "";
  }

  lemma PrefixIsSlice(part: string, whole: string)
    requires |part| <= |whole| && part == whole[..|part|]
    ensures IsSlice(part, whole)
  {
    assert whole == "" + part + whole[|part|..];
  }

  lemma StripIsSlice(s: string)
    ensures IsSlice(Strip(s), s)
  {
    SuffixIsSlice(LStrip(s), s);
    PrefixIsSlice(Strip(s), LStrip(s));
    SliceOfSlice(Strip(s), LStrip(s), s);
  }

  // ---------------------------------------------------------------- paths

  /** The last position of the character before position `n`, or -1. */
  function LastIndexBefore(s: string, c: char, n: nat): (i: int)
    requires n <= |s|
    ensures -1 <= i < n
    ensures i >= 0 ==> s[i] == c
    ensures forall k :: i < k < n ==> s[k] != c
  {
    if n == 0 then -1
    else if s[n - 1] == c then n - 1
    else LastIndexBefore(s, c, n - 1)
  }

  function LastIndexOf(s: string, c: char): (i: int)
    ensures -1 <= i < |s|
    ensures i >= 0 ==> s[i] == c
    ensures forall k :: i < k < |s| ==> s[k] != c
  {
    LastIndexBefore(s, c, |s|)
  }

  /** What follows the last slash: `path.rsplit("/", 1)[-1]`. */
  function FileName(path: string): string {
    path[LastIndexOf(path, '/') + 1..]
  }

  /** `path.rsplit("/", 1)[0]`: the whole path when it has no slash. */
  function Parent(path: string): string {
    var i := LastIndexOf(path, '/');
    if i < 0 then path else path[..i]
  }

  lemma LastComponent(dir: string, name: string)
    requires '/' !in name
    ensures FileName(dir + "/" + name) == name && Parent(dir + "/" + name) == dir
  {
    var path := dir + "/" + name;
    assert path[|dir|] == '/' && path[|dir| + 1..] == name;
    assert forall k :: |dir| < k < |path| ==> path[k] == name[k - |dir| - 1];
  }
}
