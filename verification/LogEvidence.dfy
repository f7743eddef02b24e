/** The log evidence shown to the operator: dates stamped to today, and the highlighted window. */
module LogEvidence {
  import opened Basics
  import opened Text

  // ---------------------------------------------------------------- date stamping

  /** What the regular expression engine may call a digit: at least the ASCII ones, never '-' or 'T'. */
  ghost predicate DigitClass(digit: char -> bool) {
    !digit('-') && !digit('T') && forall c :: '0' <= c <= '9' ==> digit(c)
  }

  predicate DateShape(digit: char -> bool, s: string) {
    && |s| == 10
    && digit(s[0]) && digit(s[1]) && digit(s[2]) && digit(s[3]) && s[4] == '-'
    && digit(s[5]) && digit(s[6]) && s[7] == '-'
    && digit(s[8]) && digit(s[9])
  }

  /** A date, followed by the T of a timestamp. */
  predicate DateAt(digit: char -> bool, text: string, p: int) {
    0 <= p && p + 10 < |text| && DateShape(digit, text[p..p + 10]) && text[p + 10] == 'T'
  }

  ghost predicate AllDigits(digit: char -> bool, s: string, n: nat) {
    |s| == n && forall i :: 0 <= i < n ==> digit(s[i])
  }

  /** Written out: four digits, two and two, with hyphens between and a T behind. */
  ghost predicate SpellsDate(digit: char -> bool, text: string, p: int, y: string, m: string, d: string) {
    && AllDigits(digit, y, 4) && AllDigits(digit, m, 2) && AllDigits(digit, d, 2)
    && 0 <= p && p + 11 <= |text| && text[p..p + 11] == y + "-" + m + "-" + d + "T"
  }

  lemma DateIsSpelled(digit: char -> bool, text: string, p: int)
    ensures DateAt(digit, text, p) <==> exists y, m, d :: SpellsDate(digit, text, p, y, m, d)
  {
    if DateAt(digit, text, p) {
      var whole, date := text[p..p + 11], text[p..p + 10];
      assert whole[..10] == date && whole[10] == 'T';
      var y, m, d := date[..4], date[5..7], date[8..];
      assert whole == y + "-" + m + "-" + d + "T";
      assert SpellsDate(digit, text, p, y, m, d);
    }
    if y, m, d :| SpellsDate(digit, text, p, y, m, d) {
      var whole := text[p..p + 11];
      assert text[p..p + 10] == whole[..10] && text[p + 10] == whole[10];
      assert whole[..10] == y + "-" + m + "-" + d;
    }
  }

  /** The leftmost, non-overlapping scan: replace a date and skip it, or keep one character. */
  function StampFrom(digit: char -> bool, text: string, today: string, i: nat): string
    requires i <= |text|
    decreases |text| - i
  {
    if i == |text| then ""
    else if DateAt(digit, text, i) then today + StampFrom(digit, text, today, i + 10)
    else [text[i]] + StampFrom(digit, text, today, i + 1)
  }

  function StampToday(digit: char -> bool, text: string, today: string): string {
    StampFrom(digit, text, today, 0)
  }

  lemma NoTInDate(digit: char -> bool, text: string, p: int)
    requires DigitClass(digit) && DateAt(digit, text, p)
    ensures forall k :: p <= k < p + 10 ==> text[k] != 'T'
  {
    var date := text[p..p + 10];
    assert forall k :: p <= k < p + 10 ==> text[k] == date[k - p];
  }

  lemma DatesDoNotOverlap(digit: char -> bool, text: string, p: int, q: int)
    requires DigitClass(digit) && DateAt(digit, text, p) && DateAt(digit, text, q)
    ensures p == q || p + 10 <= q || q + 10 <= p
  {
    NoTInDate(digit, text, p);
    NoTInDate(digit, text, q);
  }

  predicate Covers(digit: char -> bool, text: string, p: int, k: int) {
    DateAt(digit, text, p) && p <= k < p + 10
  }

  lemma {:induction false} StampLength(digit: char -> bool, text: string, today: string, i: nat)
    requires |today| == 10 && i <= |text|
    ensures |StampFrom(digit, text, today, i)| == |text| - i
    decreases |text| - i
  {
    if i < |text| {
      StampLength(digit, text, today, if DateAt(digit, text, i) then i + 10 else i + 1);
    }
  }

  function NextScan(digit: char -> bool, text: string, i: nat): nat {
    if DateAt(digit, text, i) then i + 10 else i + 1
  }

  /** One stop of the scan: what it writes there, and where the rest comes from. */
  lemma StampStep(digit: char -> bool, text: string, today: string, i: nat, k: nat)
    requires |today| == 10 && i <= k < |text|
    ensures |StampFrom(digit, text, today, i)| == |text| - i
    ensures NextScan(digit, text, i) <= |text|
    ensures |StampFrom(digit, text, today, NextScan(digit, text, i))| == |text| - NextScan(digit, text, i)
    ensures StampFrom(digit, text, today, i)[k - i]
         == if k >= NextScan(digit, text, i)
            then StampFrom(digit, text, today, NextScan(digit, text, i))[k - NextScan(digit, text, i)]
            else if DateAt(digit, text, i) then today[k - i] else text[k]
  {
    StampLength(digit, text, today, i);
    StampLength(digit, text, today, NextScan(digit, text, i));
  }

  /** The scan stops at every date it has not passed, so it stamps each of its characters. */
  lemma {:induction false} StampCovered(digit: char -> bool, text: string, today: string, i: nat, k: nat, p: nat)
    requires DigitClass(digit) && |today| == 10 && Covers(digit, text, p, k) && i <= p
    ensures |StampFrom(digit, text, today, i)| == |text| - i
    ensures StampFrom(digit, text, today, i)[k - i] == today[k - p]
    decreases |text| - i
  {
    StampStep(digit, text, today, i, k);
    if i < p {
      if DateAt(digit, text, i) { DatesDoNotOverlap(digit, text, i, p); }
      StampCovered(digit, text, today, NextScan(digit, text, i), k, p);
    }
  }

  lemma {:induction false} StampUncovered(digit: char -> bool, text: string, today: string, i: nat, k: nat)
    requires |today| == 10 && i <= k < |text| && forall p :: !Covers(digit, text, p, k)
    ensures |StampFrom(digit, text, today, i)| == |text| - i
    ensures StampFrom(digit, text, today, i)[k - i] == text[k]
    decreases |text| - i
  {
    StampStep(digit, text, today, i, k);
    assert !Covers(digit, text, i, k);
    if i < k {
      StampUncovered(digit, text, today, NextScan(digit, text, i), k);
    }
  }

  /**
   * The scan agrees with a position-by-position reading: a character covered by a date of the text
   * becomes the matching character of today's date, every other one stays.
   */
  lemma StampByPosition(digit: char -> bool, text: string, today: string)
    requires DigitClass(digit) && |today| == 10
    ensures var out := StampToday(digit, text, today);
      && |out| == |text|
      && (forall k, p :: 0 <= k < |text| && Covers(digit, text, p, k) ==> out[k] == today[k - p])
      && (forall k :: 0 <= k < |text| && (forall p :: !Covers(digit, text, p, k)) ==> out[k] == text[k])
  {
    StampLength(digit, text, today, 0);
    forall k: nat, p: nat | k < |text| && Covers(digit, text, p, k)
      ensures StampToday(digit, text, today)[k] == today[k - p]
    {
      StampCovered(digit, text, today, 0, k, p);
    }
    forall k: nat | k < |text| && forall p :: !Covers(digit, text, p, k)
      ensures StampToday(digit, text, today)[k] == text[k]
    {
      StampUncovered(digit, text, today, 0, k);
    }
  }

  lemma StampKeepsClass(digit: char -> bool, text: string, today: string, k: nat)
    requires DigitClass(digit) && DateShape(digit, today) && k < |text|
    ensures |StampToday(digit, text, today)| == |text|
    ensures var c := StampToday(digit, text, today)[k];
      digit(c) == digit(text[k]) && (c == '-' <==> text[k] == '-') && (c == 'T' <==> text[k] == 'T')
  {
    StampByPosition(digit, text, today);
    if p :| Covers(digit, text, p, k) {
      SameClass(digit, text[p..p + 10], today, k - p);
    }
  }

  lemma SameClass(digit: char -> bool, date: string, today: string, i: nat)
    requires DigitClass(digit) && DateShape(digit, date) && DateShape(digit, today) && i < 10
    ensures digit(today[i]) == digit(date[i])
    ensures (today[i] == '-' <==> date[i] == '-') && today[i] != 'T' && date[i] != 'T'
  {
  }

  /** Stamping leaves the dates where they were. */
  lemma StampKeepsDates(digit: char -> bool, text: string, today: string, p: int)
    requires DigitClass(digit) && DateShape(digit, today)
    ensures DateAt(digit, StampToday(digit, text, today), p) <==> DateAt(digit, text, p)
  {
    var out := StampToday(digit, text, today);
    StampByPosition(digit, text, today);
    forall k: nat | k < |text|
      ensures digit(out[k]) == digit(text[k]) && (out[k] == '-' <==> text[k] == '-') && (out[k] == 'T' <==> text[k] == 'T')
    {
      StampKeepsClass(digit, text, today, k);
    }
  }

  /** The last stamp wins: stamping with one day and then another is stamping with the other. */
  lemma LastStampWins(digit: char -> bool, text: string, d1: string, d2: string)
    requires DigitClass(digit) && DateShape(digit, d1) && DateShape(digit, d2)
    ensures StampToday(digit, StampToday(digit, text, d1), d2) == StampToday(digit, text, d2)
  {
    var once := StampToday(digit, text, d1);
    StampByPosition(digit, text, d1);
    StampByPosition(digit, text, d2);
    StampByPosition(digit, once, d2);
    forall k | 0 <= k < |text|
      ensures StampToday(digit, once, d2)[k] == StampToday(digit, text, d2)[k]
    {
      forall p: int
        ensures Covers(digit, once, p, k) <==> Covers(digit, text, p, k)
      {
        StampKeepsDates(digit, text, d1, p);
      }
      if p :| Covers(digit, text, p, k) {
        assert Covers(digit, once, p, k);
      }
    }
  }

  // ---------------------------------------------------------------- the highlight

  const CONTEXT_LINES := 2

  const CLUSTER_GAP := 6

  /** Blank lines and comments are no evidence. */
  predicate IsEvidence(line: string) {
    var stripped := LStrip(line);
    stripped != "" && stripped[0] != '#'
  }

  /** That is: the first character that is not white space is there, and does not open a comment. */
  lemma EvidenceMeans(line: string)
    ensures IsEvidence(line)
      <==> exists n :: 0 <= n < |line| && AllSpace(line[..n]) && !IsSpace(line[n]) && line[n] != '#'
  {
    var left := LStripSplits(line);
    if IsEvidence(line) {
      assert line[..|left|] == left && line[|left|] == LStrip(line)[0];
    }
    if n :| 0 <= n < |line| && AllSpace(line[..n]) && !IsSpace(line[n]) && line[n] != '#' {
      LStripIs(line[..n], line[n..]);
      assert line == line[..n] + line[n..];
    }
  }

  function Evidence(lines: seq<string>): seq<string> {
    Filter(lines, IsEvidence)
  }

  predicate IsMatch(line: string, signatures: seq<string>) {
    exists i :: 0 <= i < |signatures| && Contains(line, signatures[i])
  }

  /** The line is something, one of the signatures, and something. */
  ghost predicate HoldsOne(line: string, signatures: seq<string>) {
    exists i :: 0 <= i < |signatures| && IsSlice(signatures[i], line)
  }

  /** A line matches exactly when it literally holds some signature. */
  lemma MatchMeans(line: string, signatures: seq<string>)
    ensures IsMatch(line, signatures) <==> HoldsOne(line, signatures)
  {
    forall i | 0 <= i < |signatures|
      ensures Contains(line, signatures[i]) <==> IsSlice(signatures[i], line)
    {
      ContainsMeans(line, signatures[i]);
    }
  }

  /** Marks the lines that literally hold some signature. */
  ghost predicate MarksHolders(hits: seq<bool>, lines: seq<string>, signatures: seq<string>) {
    |hits| == |lines| && forall i :: 0 <= i < |lines| ==> Marks(hits, i, lines[i], signatures)
  }

  ghost predicate Marks(hits: seq<bool>, i: nat, line: string, signatures: seq<string>) {
    i < |hits| && (hits[i] <==> HoldsOne(line, signatures))
  }

  lemma HitsMark(lines: seq<string>, signatures: seq<string>)
    ensures MarksHolders(Hits(lines, signatures), lines, signatures)
  {
    forall i | 0 <= i < |lines|
      ensures Marks(Hits(lines, signatures), i, lines[i], signatures)
    {
      MatchMeans(lines[i], signatures);
    }
  }

  lemma OnlyHitsMark(hits: seq<bool>, lines: seq<string>, signatures: seq<string>)
    requires MarksHolders(hits, lines, signatures)
    ensures hits == Hits(lines, signatures)
  {
    HitsMark(lines, signatures);
    forall i | 0 <= i < |lines|
      ensures hits[i] == Hits(lines, signatures)[i]
    {
      assert Marks(hits, i, lines[i], signatures) && Marks(Hits(lines, signatures), i, lines[i], signatures);
    }
  }

  /** Which lines hold a signature. From here on only this matters. */
  function Hits(lines: seq<string>, signatures: seq<string>): (hits: seq<bool>)
    ensures |hits| == |lines|
    ensures forall i :: 0 <= i < |lines| ==> hits[i] == IsMatch(lines[i], signatures)
  {
    seq(|lines|, i requires 0 <= i < |lines| => IsMatch(lines[i], signatures))
  }

  /** The last line of the cluster that a hit at `i` belongs to: follow hits while the gap is small. */
  function ClusterEnd(hits: seq<bool>, i: nat): (last: nat)
    requires i < |hits|
    ensures i <= last < |hits|
    decreases |hits| - i
  {
    var n := NextHit(hits, i + 1);
    if n < |hits| && n - i <= CLUSTER_GAP then ClusterEnd(hits, n) else i
  }

  function WindowStart(first: nat): nat {
    if first < CONTEXT_LINES then 0 else first - CONTEXT_LINES
  }

  function WindowEnd(size: nat, last: nat): nat {
    if last + CONTEXT_LINES + 1 < size then last + CONTEXT_LINES + 1 else size
  }

  /** The lines to show, as a range: the first cluster in context, or the opening lines. */
  function Bounds(hits: seq<bool>): (r: (nat, nat))
    ensures r.0 <= r.1 <= |hits|
    ensures hits != [] ==> r.0 < r.1
  {
    var first := NextHit(hits, 0);
    if first == |hits| then
      (0, if |hits| <= 2 * CONTEXT_LINES + 1 then |hits| else 2 * CONTEXT_LINES + 1)
    else
      (WindowStart(first), WindowEnd(|hits|, ClusterEnd(hits, first)))
  }

  function Window(lines: seq<string>, signatures: seq<string>): seq<string> {
    var (start, end) := Bounds(Hits(lines, signatures));
    lines[start..end]
  }

  function Highlight(text: string, signatures: seq<string>): Option<string> {
    var lines := Evidence(SplitLines(text));
    if lines == [] then None else Some(JoinLines(Window(lines, signatures)))
  }

  // ---------------------------------------------------------------- what the cluster is

  /** The number of hits from line `a` up to line `b`. */
  function Count(hits: seq<bool>, a: nat, b: nat): nat
    requires a <= b <= |hits|
  {
    if a == b then 0 else Count(hits, a, b - 1) + (if hits[b - 1] then 1 else 0)
  }

  lemma {:induction false} CountSplit(hits: seq<bool>, a: nat, m: nat, b: nat)
    requires a <= m <= b <= |hits|
    ensures Count(hits, a, b) == Count(hits, a, m) + Count(hits, m, b)
  {
    if m < b {
      CountSplit(hits, a, m, b - 1);
    }
  }

  predicate SmallGap(hits: seq<bool>, k: nat, last: nat) {
    k < |hits| && NextHit(hits, k + 1) <= last && NextHit(hits, k + 1) - k <= 6
  }

  /** The lines of a cluster: from any hit in it the next hit is at most six lines on. */
  ghost predicate Tight(hits: seq<bool>, first: nat, last: nat)
    requires last < |hits|
  {
    forall k :: first <= k < last && hits[k] ==> SmallGap(hits, k, last)
  }

  /** The cluster is tight, ends at a hit, and the next hit, if any, is more than six lines away. */
  lemma {:induction false} ClusterShape(hits: seq<bool>, i: nat)
    requires i < |hits| && hits[i]
    ensures hits[ClusterEnd(hits, i)] && Tight(hits, i, ClusterEnd(hits, i))
    ensures var next := NextHit(hits, ClusterEnd(hits, i) + 1);
      next < |hits| ==> next - ClusterEnd(hits, i) > 6
    decreases |hits| - i
  {
    var n := NextHit(hits, i + 1);
    if n < |hits| && n - i <= CLUSTER_GAP {
      ClusterShape(hits, n);
      NoHitBefore(hits, i + 1);
      assert SmallGap(hits, i, ClusterEnd(hits, i));
    }
  }

  /** A cluster of m hits spans at most six lines per hit after the first. */
  lemma {:induction false} ClusterSpan(hits: seq<bool>, i: nat)
    requires i < |hits| && hits[i]
    ensures ClusterEnd(hits, i) - i <= 6 * (Count(hits, i, ClusterEnd(hits, i) + 1) - 1)
    decreases |hits| - i
  {
    var n := NextHit(hits, i + 1);
    var last := ClusterEnd(hits, i);
    assert Count(hits, i, i + 1) == 1;
    if n < |hits| && n - i <= CLUSTER_GAP {
      ClusterSpan(hits, n);
      CountSplit(hits, i, i + 1, last + 1);
      CountSplit(hits, i + 1, n, last + 1);
    }
  }

  /** What a window around the first cluster looks like. */
  ghost predicate AroundFirstCluster(hits: seq<bool>, start: nat, end: nat, first: nat, last: nat) {
    && start <= first <= last < end <= |hits|
    && hits[first] && hits[last] && Tight(hits, first, last)
    && (forall k :: 0 <= k < first ==> !hits[k])
    && (forall k :: last < k < |hits| && k <= last + 6 ==> !hits[k])
    && (if start == 0 then first <= 2 else first - start == 2)
    && (if end == |hits| then end - (last + 1) <= 2 else end - (last + 1) == 2)
  }

  lemma BoundsAroundCluster(hits: seq<bool>)
    requires NextHit(hits, 0) < |hits|
    ensures var first := NextHit(hits, 0);
      AroundFirstCluster(hits, Bounds(hits).0, Bounds(hits).1, first, ClusterEnd(hits, first))
  {
    var first := NextHit(hits, 0);
    var last := ClusterEnd(hits, first);
    ClusterShape(hits, first);
    NoHitBefore(hits, 0);
    NoHitBefore(hits, last + 1);
  }

  lemma WindowSize(hits: seq<bool>, start: nat, end: nat, first: nat, last: nat)
    requires AroundFirstCluster(hits, start, end, first, last)
    requires last - first <= 6 * (Count(hits, first, last + 1) - 1)
    ensures end - start <= 6 * Count(hits, start, end) - 1
  {
    CountSplit(hits, start, first, end);
    CountSplit(hits, first, last + 1, end);
  }

  /**
   * When any evidence line holds a signature, the highlight is a contiguous slice of the evidence lines:
   * the first cluster of holders, no other holder, at most two lines of context on each side, and with m
   * holders in it at most 6m - 1 lines.
   */
  lemma HighlightIsFirstCluster(text: string, signatures: seq<string>, hits: seq<bool>, i: nat)
    requires MarksHolders(hits, Evidence(SplitLines(text)), signatures)
    requires i < |Evidence(SplitLines(text))| && HoldsOne(Evidence(SplitLines(text))[i], signatures)
    ensures var lines := Evidence(SplitLines(text));
      exists start: nat, end: nat, first: nat, last: nat ::
        && AroundFirstCluster(hits, start, end, first, last)
        && Highlight(text, signatures) == Some(JoinLines(lines[start..end]))
        && end - start <= 6 * Count(hits, start, end) - 1
  {
    var lines := Evidence(SplitLines(text));
    OnlyHitsMark(hits, lines, signatures);
    assert Marks(hits, i, lines[i], signatures);
    SomeHit(hits, i);
    var (start, end) := Bounds(hits);
    var first := NextHit(hits, 0);
    FirstClusterBounds(hits, start, end, first, ClusterEnd(hits, first));
    assert Highlight(text, signatures) == Some(JoinLines(lines[start..end]));
  }

  /** The first evidence line that holds some signature is in the highlight, with at most two lines before it. */
  lemma FirstHolderIsShown(text: string, signatures: seq<string>, i: nat)
    requires var lines := Evidence(SplitLines(text));
      i < |lines| && HoldsOne(lines[i], signatures) && forall j :: 0 <= j < i ==> !HoldsOne(lines[j], signatures)
    ensures var lines := Evidence(SplitLines(text));
      exists start: nat, end: nat ::
        && start <= i < end <= |lines| && i - start <= 2
        && Highlight(text, signatures) == Some(JoinLines(lines[start..end]))
  {
    var lines := Evidence(SplitLines(text));
    var hits := Hits(lines, signatures);
    HitsMark(lines, signatures);
    HighlightIsFirstCluster(text, signatures, hits, i);
    var start: nat, end: nat, first: nat, last: nat :| AroundFirstCluster(hits, start, end, first, last)
      && Highlight(text, signatures) == Some(JoinLines(lines[start..end]))
      && end - start <= 6 * Count(hits, start, end) - 1;
    assert Marks(hits, i, lines[i], signatures) && Marks(hits, first, lines[first], signatures);
    assert first == i;
  }

  /** When no evidence line holds one, the highlight is the first five of them, or nothing without evidence. */
  lemma HighlightWithoutMatch(text: string, signatures: seq<string>)
    requires forall i :: 0 <= i < |Evidence(SplitLines(text))| ==> !HoldsOne(Evidence(SplitLines(text))[i], signatures)
    ensures var lines := Evidence(SplitLines(text));
      Highlight(text, signatures)
      == if lines == [] then None else Some(JoinLines(lines[..if |lines| < 5 then |lines| else 5]))
  {
    var lines := Evidence(SplitLines(text));
    var hits := Hits(lines, signatures);
    HitsMark(lines, signatures);
    forall i | 0 <= i < |hits|
      ensures !hits[i]
    {
      assert Marks(hits, i, lines[i], signatures);
    }
    NoBounds(hits);
  }

  lemma NoBounds(hits: seq<bool>)
    requires forall i :: 0 <= i < |hits| ==> !hits[i]
    ensures Bounds(hits) == (0, if |hits| < 5 then |hits| else 5)
  {
    NextHitIs(hits, 0, |hits|);
  }

  lemma SomeHit(hits: seq<bool>, i: nat)
    requires i < |hits| && hits[i]
    ensures NextHit(hits, 0) < |hits|
  {
    NoHitBefore(hits, 0);
  }

  lemma FirstClusterBounds(hits: seq<bool>, start: nat, end: nat, first: nat, last: nat)
    requires first == NextHit(hits, 0) < |hits| && last == ClusterEnd(hits, first) && (start, end) == Bounds(hits)
    ensures AroundFirstCluster(hits, start, end, first, last)
    ensures end - start <= 6 * Count(hits, start, end) - 1
  {
    BoundsAroundCluster(hits);
    assert last - first <= 6 * (Count(hits, first, last + 1) - 1) by { ClusterSpan(hits, first); }
    WindowSize(hits, start, end, first, last);
  }

  // ---------------------------------------------------------------- highlighting a highlight

  /** `w` is the stretch of `hits` that starts at `start`. */
  ghost predicate Stretch(w: seq<bool>, hits: seq<bool>, start: nat) {
    start + |w| <= |hits| && forall k :: 0 <= k < |w| ==> w[k] == hits[start + k]
  }

  lemma {:induction false} NextHitInStretch(w: seq<bool>, hits: seq<bool>, start: nat, i: nat)
    requires Stretch(w, hits, start) && i <= |w|
    ensures NextHit(w, i) == if NextHit(hits, start + i) < start + |w| then NextHit(hits, start + i) - start else |w|
    decreases |w| - i
  {
    if i < |w| {
      assert w[i] == hits[start + i];
      if !w[i] { NextHitInStretch(w, hits, start, i + 1); }
    }
  }

  /** A stretch that holds a whole cluster, and no hit beyond it, has the same cluster. */
  lemma {:induction false} ClusterInStretch(w: seq<bool>, hits: seq<bool>, start: nat, i: nat)
    requires Stretch(w, hits, start) && start <= i < start + |w| && hits[i]
    requires ClusterEnd(hits, i) < start + |w| <= NextHit(hits, ClusterEnd(hits, i) + 1)
    ensures ClusterEnd(w, i - start) == ClusterEnd(hits, i) - start
    decreases |hits| - i
  {
    NextHitInStretch(w, hits, start, i + 1 - start);
    var n := NextHit(hits, i + 1);
    if n < |hits| && n - i <= CLUSTER_GAP {
      ClusterInStretch(w, hits, start, n);
    }
  }

  lemma BoundsOfStretch(w: seq<bool>, hits: seq<bool>, start: nat, first: nat, last: nat)
    requires Stretch(w, hits, start) && start <= first <= last < start + |w|
    requires NextHit(hits, start) == first && ClusterEnd(hits, first) == last
    requires first - start <= CONTEXT_LINES && start + |w| - (last + 1) <= CONTEXT_LINES
    requires start + |w| <= NextHit(hits, last + 1)
    ensures Bounds(w) == (0, |w|)
  {
    NextHitInStretch(w, hits, start, 0);
    ClusterInStretch(w, hits, start, first);
  }

  lemma BoundsOfCluster(hits: seq<bool>, start: nat, end: nat, first: nat, last: nat)
    requires AroundFirstCluster(hits, start, end, first, last) && ClusterEnd(hits, first) == last
    ensures Bounds(hits[start..end]) == (0, end - start)
  {
    NextHitIs(hits, start, first);
    BoundsOfStretch(hits[start..end], hits, start, first, last);
  }

  lemma BoundsOfNone(w: seq<bool>)
    requires |w| <= 2 * CONTEXT_LINES + 1 && forall k :: 0 <= k < |w| ==> !w[k]
    ensures Bounds(w) == (0, |w|)
  {
    NextHitIs(w, 0, |w|);
  }

  /** The window of a window is all of it: the gap between clusters exceeds the context width. */
  lemma BoundsOfWindow(hits: seq<bool>)
    ensures Bounds(hits[Bounds(hits).0..Bounds(hits).1]) == (0, Bounds(hits).1 - Bounds(hits).0)
  {
    var first := NextHit(hits, 0);
    var (start, end) := Bounds(hits);
    if first == |hits| {
      NoHitBefore(hits, 0);
      BoundsOfNone(hits[start..end]);
    } else {
      BoundsAroundCluster(hits);
      BoundsOfCluster(hits, start, end, first, ClusterEnd(hits, first));
    }
  }

  lemma WindowOfWindow(lines: seq<string>, signatures: seq<string>)
    ensures Window(Window(lines, signatures), signatures) == Window(lines, signatures)
  {
    var hits := Hits(lines, signatures);
    var (start, end) := Bounds(hits);
    BoundsOfWindow(hits);
    assert Hits(lines[start..end], signatures) == hits[start..end];
  }

  /** Evidence lines put together are read back as they are. */
  lemma HighlightOfLines(w: seq<string>, signatures: seq<string>)
    requires w != [] && forall i :: 0 <= i < |w| ==> IsEvidence(w[i]) && NoBreaks(w[i])
    ensures Highlight(JoinLines(w), signatures) == Some(JoinLines(Window(w, signatures)))
  {
    forall i | 0 <= i < |w|
      ensures w[i] != ""
    {
      assert IsEvidence(w[i]);
    }
    SplitOfJoin(w);
    FilterAll(w, IsEvidence);
  }

  lemma WindowIsEvidence(text: string, signatures: seq<string>)
    requires Evidence(SplitLines(text)) != []
    ensures var w := Window(Evidence(SplitLines(text)), signatures);
      w != [] && forall i :: 0 <= i < |w| ==> IsEvidence(w[i]) && NoBreaks(w[i])
  {
    var lines := Evidence(SplitLines(text));
    var w := Window(lines, signatures);
    LinesHaveNoBreaks(text);
    FilterKeeps(SplitLines(text), IsEvidence);
    forall i | 0 <= i < |w|
      ensures IsEvidence(w[i]) && NoBreaks(w[i])
    {
      assert w[i] in lines;
    }
  }

  /** Extracting a highlight from a highlight returns it unchanged, for every text and signature list. */
  lemma HighlightOfHighlight(text: string, signatures: seq<string>)
    ensures Highlight(text, signatures).Some?
      ==> Highlight(Highlight(text, signatures).value, signatures) == Highlight(text, signatures)
  {
    var lines := Evidence(SplitLines(text));
    if lines != [] {
      WindowIsEvidence(text, signatures);
      HighlightOfLines(Window(lines, signatures), signatures);
      WindowOfWindow(lines, signatures);
    }
  }

  // ---------------------------------------------------------------- as the service computes it

  method EvidenceLines(all: seq<string>) returns (lines: seq<string>)
    ensures lines == Evidence(all)
  {
    lines := [];
    var i := 0;
    assert all[0..] == all;
    while i < |all|
      invariant 0 <= i <= |all|
      invariant lines + Evidence(all[i..]) == Evidence(all)
    {
      FilterStep(lines, all, IsEvidence, i);
      if IsEvidence(all[i]) {
        lines := lines + [all[i]];
      }
      i := i + 1;
    }
  }

  ghost predicate NextAfter(hits: seq<bool>, found: seq<nat>, k: nat) {
    0 < k < |found| && found[k - 1] < |hits| && found[k] == NextHit(hits, found[k - 1] + 1)
  }

  /** The hits in order: each is the next after the one before. */
  ghost predicate Enumerates(hits: seq<bool>, found: seq<nat>, upTo: nat)
    requires upTo <= |hits|
  {
    && (forall k :: 0 <= k < |found| ==> found[k] < upTo)
    && (forall k :: 0 < k < |found| ==> NextAfter(hits, found, k))
    && NextHit(hits, 0) == (if found == [] then NextHit(hits, upTo) else found[0])
    && (found != [] ==> NextHit(hits, found[|found| - 1] + 1) == NextHit(hits, upTo))
  }

  lemma EnumeratesMore(hits: seq<bool>, found: seq<nat>, i: nat)
    requires i < |hits| && Enumerates(hits, found, i)
    ensures Enumerates(hits, if hits[i] then found + [i] else found, i + 1)
  {
    var more := found + [i];
    forall k | 0 < k < |found|
      ensures NextAfter(hits, more, k)
    {
      assert NextAfter(hits, found, k);
    }
    if hits[i] && found != [] {
      assert NextAfter(hits, more, |found|);
    }
  }

  method MatchIndices(lines: seq<string>, signatures: seq<string>, ghost hits: seq<bool>) returns (found: seq<nat>)
    requires MarksHolders(hits, lines, signatures)
    ensures Enumerates(hits, found, |lines|)
  {
    found := [];
    var i := 0;
    while i < |lines|
      invariant 0 <= i <= |lines|
      invariant Enumerates(hits, found, i)
    {
      var hit := IsMatch(lines[i], signatures);
      assert hit == hits[i] by {
        assert Marks(hits, i, lines[i], signatures);
        MatchMeans(lines[i], signatures);
      }
      EnumeratesMore(hits, found, i);
      if hit {
        found := found + [i];
      }
      i := i + 1;
    }
  }

  /** The loop that grows the cluster, stopping at the first wide gap. */
  method LastOfCluster(ghost hits: seq<bool>, found: seq<nat>) returns (last: nat)
    requires found != [] && Enumerates(hits, found, |hits|)
    ensures last == ClusterEnd(hits, found[0])
  {
    last := found[0];
    var k := 1;
    while k < |found|
      invariant 1 <= k <= |found|
      invariant last == found[k - 1]
      invariant ClusterEnd(hits, found[0]) == ClusterEnd(hits, last)
    {
      assert NextAfter(hits, found, k);
      if found[k] - last > CLUSTER_GAP {
        return;
      }
      last := found[k];
      k := k + 1;
    }
  }

  /** The window's bounds, as the service clamps them. */
  method WindowBounds(ghost hits: seq<bool>, size: nat, found: seq<nat>) returns (start: nat, end: nat)
    requires size == |hits| && Enumerates(hits, found, size)
    ensures (start, end) == Bounds(hits)
  {
    if found == [] {
      return 0, if size <= 2 * CONTEXT_LINES + 1 then size else 2 * CONTEXT_LINES + 1;
    }
    var last := LastOfCluster(hits, found);
    start := if found[0] < CONTEXT_LINES then 0 else found[0] - CONTEXT_LINES;
    end := if last + CONTEXT_LINES + 1 < size then last + CONTEXT_LINES + 1 else size;
  }

  method ExtractHighlight(text: string, signatures: seq<string>) returns (r: Option<string>)
    ensures r == Highlight(text, signatures)
  {
    var lines := EvidenceLines(SplitLines(text));
    if lines == [] {
      return None;
    }
    HitsMark(lines, signatures);
    var found := MatchIndices(lines, signatures, Hits(lines, signatures));
    var start, end := WindowBounds(Hits(lines, signatures), |lines|, found);
    return Some(JoinLines(lines[start..end]));
  }
}
