/** What the reading of a runbook means for the text that stands there. */
module RunbookProse {
  import opened Basics
  import opened Text
  import opened StepLabels

  /** The three character sets, spelled out. */
  lemma CharacterSets(c: char)
    ensures IsBullet(c) <==> c in "-*0123456789. "
    ensures EndsSentence(c) <==> c in ".:"
    ensures Dangles(c) <==> c in ",;: "
  {
    var digits := "0123456789";
    if '0' <= c <= '9' {
      var i := (c as int) - ('0' as int);
      assert digits[i] == c;
    }
    assert forall d :: d in "-*0123456789. " <==> d in digits || d in "-*. ";
  }

  /** A heading for a step: white space, three hashes, and somewhere the step id in backticks and brackets. */
  lemma HeadingMeans(line: string, stepId: string)
    ensures IsHeading(line, stepId)
      <==> (exists left, rest :: AllSpace(left) && line == left + ("###" + rest)) && IsSlice("(`" + stepId + "`)", line)
  {
    ContainsMeans(line, "(`" + stepId + "`)");
    var left := LStripSplits(line);
    if "###" <= LStrip(line) {
      assert LStrip(line) == "###" + LStrip(line)[3..];
      assert line == left + ("###" + LStrip(line)[3..]);
    }
    if l, rest :| AllSpace(l) && line == l + ("###" + rest) {
      LStripIs(l, "###" + rest);
    }
  }

  lemma FullStopIs(prose: string, i: nat, k: nat)
    requires i <= k <= |prose|
    requires forall j :: i <= j < k ==> !(j + 1 < |prose| && prose[j] == '.' && prose[j + 1] == ' ')
    requires k < |prose| ==> k + 1 < |prose| && prose[k] == '.' && prose[k + 1] == ' '
    ensures FullStop(prose, i) == k
    decreases k - i
  {
    if i < k {
      FullStopIs(prose, i + 1, k);
    }
  }

  /** An ordinary sentence: nothing to trim at either end, no full stop inside, no dangling "then". */
  ghost predicate IsOrdinary(p: string) {
    && p != "" && Stripped(p) && !IsBullet(p[0]) && !EndsSentence(p[|p| - 1])
    && OneSentence(p) && !EndsWith(p, " then")
  }

  /** What may follow it: nothing, closing marks, or a full stop and more text. */
  ghost predicate IsTail(tail: string) {
    || (forall i :: 0 <= i < |tail| ==> EndsSentence(tail[i]))
    || (|tail| > 2 && tail[0] == '.' && tail[1] == ' ' && !IsSpace(tail[|tail| - 1]))
  }

  lemma WhereItEnds(p: string, tail: string)
    requires IsOrdinary(p) && IsTail(tail)
    ensures var k := FullStop(p + tail, 0);
      (k == |p| || k == |p + tail|) && (k == |p| || forall i :: 0 <= i < |tail| ==> EndsSentence(tail[i]))
  {
    var s := p + tail;
    if forall i :: 0 <= i < |tail| ==> EndsSentence(tail[i]) {
      assert forall j :: 0 <= j < |s| && s[j] == '.' ==> !(j + 1 < |s| && s[j + 1] == ' ');
      FullStopIs(s, 0, |s|);
    } else {
      assert forall j :: 0 <= j < |p| ==> !(j + 1 < |s| && s[j] == '.' && s[j + 1] == ' ');
      FullStopIs(s, 0, |p|);
    }
  }

  /** Cut at `k`, with only closing marks between the sentence and the cut, a text opens with the sentence. */
  lemma OpeningCutAt(s: string, p: string, k: nat)
    requires FullStop(s, 0) == k && |p| <= k && p == s[..|p|] && (forall i :: |p| <= i < k ==> EndsSentence(s[i]))
    requires p != "" && Stripped(p) && !EndsSentence(p[|p| - 1])
    ensures Opening(s) == p
  {
    TrimRightIs(s[..k], EndsSentence, p);
    StripOfStripped(p);
  }

  /** Its opening sentence is the sentence. */
  lemma OpeningIsIt(p: string, tail: string)
    requires IsOrdinary(p) && IsTail(tail)
    ensures Opening(p + tail) == p
  {
    var s := p + tail;
    WhereItEnds(p, tail);
    OpeningCutAt(s, p, FullStop(s, 0));
  }

  /** Around it: indentation, bullets, and trailing white space; it must not open a block of another kind. */
  ghost predicate Surrounds(indent: string, bullets: string, p: string, right: string) {
    && AllSpace(indent) && AllSpace(right)
    && (forall i :: 0 <= i < |bullets| ==> IsBullet(bullets[i])) && (bullets != "" ==> !IsSpace(bullets[0]))
    && (bullets == "" ==> p != "" && p[0] !in {'#', '|', '>'} && !("```" <= p))
  }

  lemma StrippedCore(bullets: string, p: string, tail: string)
    requires IsOrdinary(p) && IsTail(tail) && (bullets != "" ==> !IsSpace(bullets[0]))
    ensures Stripped(bullets + p + tail) && Stripped(p + tail)
  {
    assert tail != "" ==> !IsSpace(tail[|tail| - 1]);
  }

  /** What is left of a line between white space and, inside, of its bullets. */
  lemma ProseOf(indent: string, core: string, right: string, bullets: nat, rest: string)
    requires AllSpace(indent) && AllSpace(right) && Stripped(core) && Stripped(rest)
    requires bullets <= |core| && core[bullets..] == rest && (rest != "" ==> !IsBullet(rest[0]))
    requires forall i :: 0 <= i < bullets ==> IsBullet(core[i])
    ensures Strip(indent + core + right) == core && Prose(indent + core + right) == rest
  {
    StripIs(indent, core, right);
    KeptFromIs(core, IsBullet, 0, bullets);
    StripOfStripped(rest);
  }

  lemma ProseIsIt(indent: string, bullets: string, p: string, tail: string, right: string)
    requires IsOrdinary(p) && IsTail(tail) && Surrounds(indent, bullets, p, right)
    ensures Strip(indent + (bullets + p + tail) + right) == bullets + p + tail
    ensures Prose(indent + (bullets + p + tail) + right) == p + tail
  {
    var core := bullets + p + tail;
    StrippedCore(bullets, p, tail);
    assert core[|bullets|..] == p + tail;
    ProseOf(indent, core, right, |bullets|, p + tail);
  }

  lemma CoreIsNoStop(line: string, core: string)
    requires Strip(line) == core && core != "" && core[0] !in {'#', '|', '>'} && !IsFence(core)
    ensures !IsStop(line)
  {
  }

  lemma NoStop(line: string, bullets: string, p: string, tail: string)
    requires Strip(line) == bullets + p + tail && p != "" && IsTail(tail)
    requires forall i :: 0 <= i < |bullets| ==> IsBullet(bullets[i])
    requires bullets == "" ==> p[0] !in {'#', '|', '>'} && !("```" <= p)
    ensures !IsStop(line)
  {
    var core := bullets + p + tail;
    if bullets != "" {
      assert core[0] == bullets[0];
    } else {
      assert core == p + tail && core[0] == p[0];
      NoFence(p, tail);
    }
    CoreIsNoStop(line, core);
  }

  lemma NoFence(p: string, tail: string)
    requires p != "" && IsTail(tail) && !("```" <= p)
    ensures !IsFence(p + tail)
  {
    var core := p + tail;
    if |p| < 3 {
      if tail != "" {
        assert core[|p|] == tail[0] && tail[0] != '`';
      }
    } else {
      assert p[..3] == [p[0], p[1], p[2]] && p[..3] != "```";
      assert core[0] == p[0] && core[1] == p[1] && core[2] == p[2];
    }
  }

  /**
   * A line that says one ordinary sentence, bulleted or not, closed or followed by more, gives exactly that
   * sentence, or its cut if it is long.
   */
  lemma LineGivesItsSentence(indent: string, bullets: string, p: string, tail: string, right: string)
    requires IsOrdinary(p) && IsTail(tail) && Surrounds(indent, bullets, p, right)
    ensures Read(indent + (bullets + p + tail) + right) == Gives(Clip(p))
    ensures |p| <= 160 ==> Read(indent + (bullets + p + tail) + right) == Gives(p)
  {
    var line := indent + (bullets + p + tail) + right;
    ProseIsIt(indent, bullets, p, tail, right);
    NoStop(line, bullets, p, tail);
    OpeningIsIt(p, tail);
    ReadsAs(line, p + tail, p);
    ClipMarksTheCut(p);
  }

  lemma ReadsAs(line: string, prose: string, p: string)
    requires Strip(line) != "" && !IsStop(line) && Prose(line) == prose && prose != "" && Sentence(prose) == p && p != ""
    ensures Read(line) == Gives(Clip(p))
  {
  }

  /** A sentence that led into a code block loses "then" and the marks before it. */
  lemma ThenIsDropped(p: string, marks: string)
    requires p != "" && !Dangles(p[|p| - 1]) && forall i :: 0 <= i < |marks| ==> Dangles(marks[i])
    ensures WithoutThen(p + marks + " then") == p
  {
    var s := p + marks + " then";
    assert s[|s| - 5..] == " then" && s[..|s| - 5] == p + marks;
    KeptUpToIs(p + marks, Dangles, |p + marks|, |p|);
    assert (p + marks)[..|p|] == p;
  }

  /** Blank lines and bare bullets are passed over. */
  lemma BareLinesPass(indent: string, bullets: string, right: string)
    requires AllSpace(indent) && AllSpace(right)
    requires forall i :: 0 <= i < |bullets| ==> IsBullet(bullets[i])
    requires bullets != "" ==> !IsSpace(bullets[0]) && !IsSpace(bullets[|bullets| - 1])
    ensures Read(indent + bullets + right) == Passed
  {
    StripIs(indent, bullets, right);
    if bullets != "" {
      ProseOf(indent, bullets, right, |bullets|, "");
      CoreIsNoStop(indent + bullets + right, bullets);
    }
  }

  lemma OpenerStops(line: string, core: string)
    requires Strip(line) == core && core != "" && (core[0] in {'#', '|', '>'} || IsFence(core))
    ensures Read(line) == Stop
  {
  }

  /** A later heading, table or quote line, or a code fence, ends the search. */
  lemma BlocksStop(indent: string, rest: string, right: string, opener: string)
    requires AllSpace(indent) && AllSpace(right) && Stripped(opener + rest)
    requires opener == "#" || opener == "|" || opener == ">" || opener == "```"
    ensures Read(indent + (opener + rest) + right) == Stop
  {
    var core := opener + rest;
    StripIs(indent, core, right);
    assert forall i :: 0 <= i < |opener| ==> core[i] == opener[i];
    OpenerStops(indent + core + right, core);
  }

  /** The article id is the file name without its suffix, wherever the file is. */
  lemma ArticleIdMeans(dir: string, name: string)
    requires '/' !in name
    ensures ArticleId(dir + "/" + name + ".md") == name
  {
    var file := name + ".md";
    var path := dir + "/" + name + ".md";
    assert path == dir + "/" + file;
    assert '/' !in ".md" && '/' !in file;
    LastComponent(dir, file);
    assert file[|file| - 3..] == ".md" && file[..|file| - 3] == name;
  }
}
