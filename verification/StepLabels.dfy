/** Proposed-step labels: each step's own text, with the opening sentence of its runbook section. */
module StepLabels {
  import opened Basics
  import opened Text
  import opened Packs

  const MAX_DETAIL := 160

  const ELLIPSIS := "…"

  /** List bullets, numbering and the space after them. */
  predicate IsBullet(c: char) {
    '0' <= c <= '9' || c in {'-', '*', '.', ' '}
  }

  predicate EndsSentence(c: char) {
    c == '.' || c == ':'
  }

  /** Punctuation that a cut sentence must not end with. */
  predicate Dangles(c: char) {
    c in {',', ';', ':', ' '}
  }

  // ---------------------------------------------------------------- one step's detail

  /** A level-three heading that carries the step id in backticks. */
  predicate IsHeading(line: string, stepId: string) {
    "###" <= LStrip(line) && Contains(line, "(`" + stepId + "`)")
  }

  /** The first heading for the step from line `i` on, or the number of lines. */
  function HeadingFrom(lines: seq<string>, stepId: string, i: nat): (h: nat)
    requires i <= |lines|
    ensures i <= h <= |lines|
    decreases |lines| - i
  {
    if i == |lines| || IsHeading(lines[i], stepId) then i else HeadingFrom(lines, stepId, i + 1)
  }

  function FindHeading(lines: seq<string>, stepId: string): (h: nat)
    ensures h <= |lines|
  {
    HeadingFrom(lines, stepId, 0)
  }

  lemma {:induction false} HeadingIsFirst(lines: seq<string>, stepId: string, i: nat)
    requires i <= |lines|
    ensures var h := HeadingFrom(lines, stepId, i);
      && (h < |lines| ==> IsHeading(lines[h], stepId))
      && (forall k :: i <= k < h ==> !IsHeading(lines[k], stepId))
    decreases |lines| - i
  {
    if i < |lines| && !IsHeading(lines[i], stepId) {
      HeadingIsFirst(lines, stepId, i + 1);
    }
  }

  predicate IsFence(s: string) {
    |s| >= 3 && s[0] == s[1] == s[2] == '`'
  }

  /** A later heading, code fence, table or quote ends the search. */
  predicate IsStop(line: string) {
    var s := Strip(line);
    s != "" && (s[0] == '#' || s[0] == '|' || s[0] == '>' || IsFence(s))
  }

  /** The text of a line without list bullets and numbering. */
  function Prose(line: string): string {
    Strip(TrimLeft(Strip(line), IsBullet))
  }

  /** Where the first full stop followed by a space stands, from `i` on, or the length. */
  function FullStop(prose: string, i: nat): (k: nat)
    requires i <= |prose|
    ensures i <= k <= |prose|
    ensures k < |prose| ==> k + 1 < |prose| && prose[k] == '.' && prose[k + 1] == ' '
    ensures forall j :: i <= j < k && prose[j] == '.' ==> j + 1 == |prose| || prose[j + 1] != ' '
    decreases |prose| - i
  {
    if i == |prose| || (i + 1 < |prose| && prose[i] == '.' && prose[i + 1] == ' ') then i
    else FullStop(prose, i + 1)
  }

  function Opening(prose: string): string {
    Strip(TrimRight(prose[..FullStop(prose, 0)], EndsSentence))
  }

  /** A sentence that led into a code block loses its dangling connective. */
  function WithoutThen(sentence: string): string {
    if EndsWith(sentence, " then") then TrimRight(sentence[..|sentence| - 5], Dangles) else sentence
  }

  function Sentence(prose: string): string {
    WithoutThen(Opening(prose))
  }

  function Clip(sentence: string): string {
    if |sentence| > MAX_DETAIL then TrimRight(sentence[..MAX_DETAIL - 1], Dangles) + ELLIPSIS else sentence
  }

  /** What one line of a section amounts to. Blank lines and bare bullets are passed over. */
  datatype Reading = Passed | Stop | NoSentence | Gives(detail: string)

  function Read(line: string): Reading {
    if Strip(line) == "" then Passed
    else if IsStop(line) then Stop
    else if Prose(line) == "" then Passed
    else if Sentence(Prose(line)) == "" then NoSentence
    else Gives(Clip(Sentence(Prose(line))))
  }

  function Readings(lines: seq<string>): (readings: seq<Reading>)
    ensures |readings| == |lines|
  {
    Map(lines, Read)
  }

  /** What the first line from `i` on that is not passed over gives. */
  function DetailFrom(readings: seq<Reading>, i: nat): Option<string>
    requires i <= |readings|
    decreases |readings| - i
  {
    if i == |readings| then None
    else
      match readings[i]
      case Passed => DetailFrom(readings, i + 1)
      case Gives(detail) => Some(detail)
      case _ => None
  }

  function DetailBelow(readings: seq<Reading>, heading: nat): Option<string>
    requires heading <= |readings|
  {
    if heading == |readings| then None else DetailFrom(readings, heading + 1)
  }

  function DetailOf(lines: seq<string>, stepId: string): Option<string> {
    DetailBelow(Readings(lines), FindHeading(lines, stepId))
  }

  function KbStepDetail(body: string, stepId: string): Option<string> {
    DetailOf(SplitLines(body), stepId)
  }

  // ---------------------------------------------------------------- what a detail is

  /** Line `j` gives the detail, with only passed lines between it and line `i`. */
  ghost predicate GivenAt(readings: seq<Reading>, i: nat, j: nat, detail: string) {
    i <= j < |readings| && readings[j] == Gives(detail) && forall k :: i <= k < j ==> readings[k] == Passed
  }

  lemma {:induction false} DetailLine(readings: seq<Reading>, i: nat, detail: string)
    requires i <= |readings|
    ensures DetailFrom(readings, i) == Some(detail) <==> exists j: nat :: GivenAt(readings, i, j, detail)
    decreases |readings| - i
  {
    if i < |readings| && readings[i] == Passed {
      var next := i + 1;
      DetailLine(readings, next, detail);
      if j: nat :| GivenAt(readings, next, j, detail) {
        assert GivenAt(readings, i, j, detail);
      }
      if j: nat :| GivenAt(readings, i, j, detail) {
        assert GivenAt(readings, next, j, detail);
      }
    } else if DetailFrom(readings, i) == Some(detail) {
      assert GivenAt(readings, i, i, detail);
    }
  }

  /** Line `j` stands below the heading and gives the detail, with only passed lines between. */
  ghost predicate GivenBelow(readings: seq<Reading>, heading: nat, j: nat, detail: string) {
    GivenAt(readings, heading + 1, j, detail)
  }

  lemma SectionDetail(readings: seq<Reading>, heading: nat, detail: string)
    requires heading <= |readings|
    ensures DetailBelow(readings, heading) == Some(detail) <==> exists j: nat :: GivenBelow(readings, heading, j, detail)
  {
    if heading < |readings| {
      var first := heading + 1;
      DetailLine(readings, first, detail);
      if j: nat :| GivenAt(readings, first, j, detail) {
        assert GivenBelow(readings, heading, j, detail);
      }
    }
  }

  /**
   * A step has a detail exactly when some line of its section, below the first heading that carries
   * its id, gives it before any later heading, code, table or quote line.
   */
  lemma DetailComesFromItsSection(lines: seq<string>, stepId: string, detail: string)
    ensures DetailOf(lines, stepId) == Some(detail)
      <==> exists j: nat :: GivenBelow(Readings(lines), FindHeading(lines, stepId), j, detail)
  {
    SectionDetail(Readings(lines), FindHeading(lines, stepId), detail);
  }

  lemma OpeningIsSlice(prose: string)
    ensures IsSlice(Opening(prose), prose)
  {
    var opening := prose[..FullStop(prose, 0)];
    var trimmed := TrimRight(opening, EndsSentence);
    PrefixIsSlice(opening, prose);
    PrefixIsSlice(trimmed, opening);
    SliceOfSlice(trimmed, opening, prose);
    StripIsSlice(trimmed);
    SliceOfSlice(Opening(prose), trimmed, prose);
  }

  lemma SentenceIsSlice(prose: string)
    ensures IsSlice(Sentence(prose), prose)
  {
    OpeningIsSlice(prose);
    PrefixIsSlice(WithoutThen(Opening(prose)), Opening(prose));
    SliceOfSlice(Sentence(prose), Opening(prose), prose);
  }

  lemma ProseIsSlice(line: string)
    ensures IsSlice(Prose(line), line)
  {
    var s := Strip(line);
    var bare := TrimLeft(s, IsBullet);
    StripIsSlice(line);
    SuffixIsSlice(bare, s);
    SliceOfSlice(bare, s, line);
    StripIsSlice(bare);
    SliceOfSlice(Prose(line), bare, line);
  }

  lemma ClipIsSlice(sentence: string)
    requires sentence != ""
    ensures 0 < |Clip(sentence)| <= MAX_DETAIL
    ensures IsSlice(Clip(sentence), sentence) || (EndsWith(Clip(sentence), ELLIPSIS)
              && IsSlice(Clip(sentence)[..|Clip(sentence)| - 1], sentence))
  {
    if |sentence| > MAX_DETAIL {
      var cut := TrimRight(sentence[..MAX_DETAIL - 1], Dangles);
      assert cut == sentence[..|cut|];
      PrefixIsSlice(cut, sentence);
      assert Clip(sentence)[..|Clip(sentence)| - 1] == cut;
    } else {
      PrefixIsSlice(sentence, sentence);
    }
  }

  /** No full stop followed by a space. */
  predicate OneSentence(s: string) {
    forall k :: 0 <= k < |s| - 1 && s[k] == '.' ==> s[k + 1] != ' '
  }

  lemma SliceKeepsOneSentence(part: string, whole: string)
    requires IsSlice(part, whole) && OneSentence(whole)
    ensures OneSentence(part)
  {
    var before, after :| whole == before + part + after;
    forall k | 0 <= k < |part| - 1 && part[k] == '.'
      ensures part[k + 1] != ' '
    {
      assert whole[|before| + k] == part[k] && whole[|before| + k + 1] == part[k + 1];
    }
  }

  lemma BeforeFullStop(prose: string)
    ensures OneSentence(prose[..FullStop(prose, 0)])
  {
  }

  lemma SentenceIsOne(prose: string)
    ensures OneSentence(Sentence(prose))
  {
    var opening := prose[..FullStop(prose, 0)];
    var trimmed := TrimRight(opening, EndsSentence);
    BeforeFullStop(prose);
    PrefixIsSlice(trimmed, opening);
    StripIsSlice(trimmed);
    SliceOfSlice(Opening(prose), trimmed, opening);
    PrefixIsSlice(WithoutThen(Opening(prose)), Opening(prose));
    SliceOfSlice(Sentence(prose), Opening(prose), opening);
    SliceKeepsOneSentence(Sentence(prose), opening);
  }

  /**
   * A sentence of up to 160 characters stays whole. A longer one keeps its first 159 but for dangling
   * punctuation at their end, and says so with an ellipsis.
   */
  lemma ClipMarksTheCut(sentence: string)
    requires OneSentence(sentence)
    ensures OneSentence(Clip(sentence))
    ensures |sentence| <= 160 ==> Clip(sentence) == sentence
    ensures |sentence| > 160 ==> exists k :: CutAt(sentence, Clip(sentence), k)
  {
    if |sentence| > 160 {
      var cut := TrimRight(sentence[..159], Dangles);
      assert cut == sentence[..|cut|];
      assert Clip(sentence) == cut + "…" && |"…"| == 1 && "…"[0] != ' ';
      assert CutAt(sentence, Clip(sentence), |cut|);
    }
  }

  /** What stands from `k` to the 159th character dangles, what stands before it does not. */
  ghost predicate CutAt(sentence: string, clipped: string, k: int) {
    && 0 <= k <= 159 < |sentence| && clipped == sentence[..k] + "…"
    && (forall j :: k <= j < 159 ==> sentence[j] in ",;: ")
    && (k > 0 ==> sentence[k - 1] !in ",;: ")
  }

  /** A detail is one sentence, whole or cut at a mark. */
  lemma DetailIsOneSentence(line: string, detail: string)
    requires Read(line) == Gives(detail)
    ensures OneSentence(detail)
    ensures detail == Sentence(Prose(line)) || EndsWith(detail, ELLIPSIS)
  {
    ReadGives(line, detail);
    SentenceIsOne(Prose(line));
    ClipMarksTheCut(Sentence(Prose(line)));
    if |Sentence(Prose(line))| > 160 {
      var k :| CutAt(Sentence(Prose(line)), detail, k);
      assert detail[|detail| - 1..] == ELLIPSIS;
    }
  }

  lemma ReadGives(line: string, detail: string)
    requires Read(line) == Gives(detail)
    ensures Sentence(Prose(line)) != "" && detail == Clip(Sentence(Prose(line)))
  {
  }

  lemma SentenceQuotesItsLine(line: string)
    ensures IsSlice(Sentence(Prose(line)), line)
  {
    ProseIsSlice(line);
    SentenceIsSlice(Prose(line));
    SliceOfSlice(Sentence(Prose(line)), Prose(line), line);
  }

  /** A detail is never empty, at most 160 characters, and quotes its line: all of it but a final ellipsis. */
  lemma DetailQuotesItsLine(line: string, detail: string)
    requires Read(line) == Gives(detail)
    ensures 0 < |detail| <= 160
    ensures IsSlice(detail, line) || (EndsWith(detail, ELLIPSIS) && IsSlice(detail[..|detail| - 1], line))
  {
    ReadGives(line, detail);
    SentenceQuotesItsLine(line);
    QuoteThrough(Sentence(Prose(line)), line);
  }

  lemma QuoteThrough(sentence: string, line: string)
    requires sentence != "" && IsSlice(sentence, line)
    ensures 0 < |Clip(sentence)| <= MAX_DETAIL
    ensures IsSlice(Clip(sentence), line)
      || (EndsWith(Clip(sentence), ELLIPSIS) && IsSlice(Clip(sentence)[..|Clip(sentence)| - 1], line))
  {
    ClipIsSlice(sentence);
    if IsSlice(Clip(sentence), sentence) {
      SliceOfSlice(Clip(sentence), sentence, line);
    } else {
      SliceOfSlice(Clip(sentence)[..|Clip(sentence)| - 1], sentence, line);
    }
  }

  // ---------------------------------------------------------------- the labels of a scenario

  function LabelFor(step: RemediationStep, body: string): string {
    var detail := KbStepDetail(body, step.id);
    if detail.None? then step.text
    else step.text + " — " + detail.value + (if EndsWith(detail.value, ELLIPSIS) then "" else ".")
  }

  function ArticleId(kbRef: string): string {
    var name := FileName(kbRef);
    if EndsWith(name, ".md") then name[..|name| - 3] else name
  }

  function Labels(steps: seq<RemediationStep>, body: string): (labels: seq<string>)
    ensures |labels| == |steps|
    ensures forall i :: 0 <= i < |steps| ==> labels[i] == LabelFor(steps[i], body)
  {
    seq(|steps|, i requires 0 <= i < |steps| => LabelFor(steps[i], body))
  }

  function PlainLabels(steps: seq<RemediationStep>): (labels: seq<string>)
    ensures |labels| == |steps|
    ensures forall i :: 0 <= i < |steps| ==> labels[i] == steps[i].text
  {
    seq(|steps|, i requires 0 <= i < |steps| => steps[i].text)
  }

  /** An unknown scenario has no labels; a missing article leaves the steps' own text. */
  function StepLabelsForScenario(pack: LoadedPack, scenarioId: string): seq<string> {
    if scenarioId !in pack.scenariosById then []
    else
      var s := pack.scenariosById[scenarioId];
      var kbId := ArticleId(s.kbRef);
      if kbId !in pack.articles then PlainLabels(s.steps)
      else Labels(s.steps, pack.articles[kbId].body)
  }

  lemma DetailBounds(body: string, stepId: string)
    ensures KbStepDetail(body, stepId).Some? ==> 0 < |KbStepDetail(body, stepId).value| <= MAX_DETAIL
  {
    if KbStepDetail(body, stepId).Some? {
      var detail := KbStepDetail(body, stepId).value;
      var lines := SplitLines(body);
      DetailComesFromItsSection(lines, stepId, detail);
      var j: nat :| GivenBelow(Readings(lines), FindHeading(lines, stepId), j, detail);
      DetailQuotesItsLine(lines[j], detail);
    }
  }

  lemma LabelExtends(step: RemediationStep, body: string)
    ensures step.text <= LabelFor(step, body) && |LabelFor(step, body)| <= |step.text| + 164
  {
    DetailBounds(body, step.id);
  }

  /**
   * The label is the step's own text if no line below its heading in the runbook gives a detail;
   * otherwise it is the text, a dash and that detail, with one full stop unless the detail was cut.
   */
  ghost predicate Shows(text: string, step: RemediationStep, body: string) {
    var lines := SplitLines(body);
    var readings, heading := Readings(lines), FindHeading(lines, step.id);
    && (text == step.text <==> forall j: nat, d: string :: !GivenBelow(readings, heading, j, d))
    && (forall j: nat, d: string :: GivenBelow(readings, heading, j, d) ==>
          text == step.text + " — " + d + (if EndsWith(d, "…") then "" else "."))
  }

  lemma LabelShows(step: RemediationStep, body: string)
    ensures Shows(LabelFor(step, body), step, body)
  {
    var lines := SplitLines(body);
    var readings, heading := Readings(lines), FindHeading(lines, step.id);
    forall j: nat, d: string | GivenBelow(readings, heading, j, d)
      ensures KbStepDetail(body, step.id) == Some(d)
    {
      DetailComesFromItsSection(lines, step.id, d);
    }
    if KbStepDetail(body, step.id).Some? {
      var d := KbStepDetail(body, step.id).value;
      DetailComesFromItsSection(lines, step.id, d);
      var j: nat :| GivenBelow(readings, heading, j, d);
      assert |LabelFor(step, body)| > |step.text|;
    }
  }

  /** Each label shows its step's detail; without an article it is the step's own text. */
  lemma LabelsShowDetails(pack: LoadedPack, scenarioId: string, i: nat)
    requires scenarioId in pack.scenariosById && i < |pack.scenariosById[scenarioId].steps|
    ensures var s := pack.scenariosById[scenarioId];
      var labels, kbId := StepLabelsForScenario(pack, scenarioId), ArticleId(s.kbRef);
      && |labels| == |s.steps|
      && (if kbId in pack.articles then Shows(labels[i], s.steps[i], pack.articles[kbId].body)
          else labels[i] == s.steps[i].text)
  {
    var s := pack.scenariosById[scenarioId];
    var kbId := ArticleId(s.kbRef);
    if kbId in pack.articles {
      LabelShows(s.steps[i], pack.articles[kbId].body);
    }
  }

  /**
   * The labels match the scenario's steps one for one and in order: each begins with its step's text
   * and is at most 164 characters longer.
   */
  lemma LabelsExtendSteps(pack: LoadedPack, scenarioId: string)
    requires scenarioId in pack.scenariosById
    ensures var steps := pack.scenariosById[scenarioId].steps;
      var labels := StepLabelsForScenario(pack, scenarioId);
      && |labels| == |steps|
      && forall i :: 0 <= i < |steps| ==> steps[i].text <= labels[i] && |labels[i]| <= |steps[i].text| + 164
  {
    var s := pack.scenariosById[scenarioId];
    var kbId := ArticleId(s.kbRef);
    if kbId in pack.articles {
      forall i | 0 <= i < |s.steps|
        ensures var text := LabelFor(s.steps[i], pack.articles[kbId].body);
          s.steps[i].text <= text && |text| <= |s.steps[i].text| + 164
      {
        LabelExtends(s.steps[i], pack.articles[kbId].body);
      }
    }
  }

  // ---------------------------------------------------------------- as the Gateway computes them

  ghost predicate ReadAs(line: string, readings: seq<Reading>, i: nat) {
    i < |readings| && readings[i] == Read(line)
  }

  method FindStepDetail(lines: seq<string>, stepId: string) returns (r: Option<string>)
    ensures r == DetailOf(lines, stepId)
  {
    r := FirstDetail(lines, Readings(lines), FindHeading(lines, stepId));
  }

  method FirstDetail(lines: seq<string>, ghost readings: seq<Reading>, heading: nat) returns (r: Option<string>)
    requires heading <= |lines| == |readings|
    requires forall i :: 0 <= i < |lines| ==> ReadAs(lines[i], readings, i)
    ensures r == DetailBelow(readings, heading)
  {
    if heading == |lines| {
      return None;
    }
    var i := heading + 1;
    while i < |lines|
      invariant heading < i <= |lines|
      invariant DetailBelow(readings, heading) == DetailFrom(readings, i)
    {
      var reading := ReadLine(lines[i]);
      assert ReadAs(lines[i], readings, i);

      match reading {
        case Passed =>
        case Gives(detail) => return Some(detail);
        case _ => return None;
      }
      i := i + 1;
    }
    return None;
  }

  /** The body of the loop: go on, give up, or return a detail. */
  method ReadLine(line: string) returns (reading: Reading)
    ensures reading == Read(line)
  {
    var s := Strip(line);
    if s == "" {
      return Passed;
    }
    if IsStop(line) {
      return Stop;
    }
    s := Strip(TrimLeft(s, IsBullet));
    if s == "" {
      return Passed;
    }
    var sentence := Sentence(s);
    if sentence == "" {
      return NoSentence;
    }
    return Gives(Clip(sentence));
  }

  method LabelStep(step: RemediationStep, body: string) returns (text: string)
    ensures text == LabelFor(step, body)
  {
    var detail := FindStepDetail(SplitLines(body), step.id);
    if detail.None? {
      return step.text;
    }
    var period := if EndsWith(detail.value, ELLIPSIS) then "" else ".";
    return step.text + " — " + detail.value + period;
  }

  lemma LabelsShow(steps: seq<RemediationStep>, body: string)
    ensures forall i :: 0 <= i < |steps| ==> Shows(Labels(steps, body)[i], steps[i], body)
  {
    forall i | 0 <= i < |steps|
      ensures Shows(Labels(steps, body)[i], steps[i], body)
    {
      LabelShows(steps[i], body);
    }
  }

  method LabelSteps(steps: seq<RemediationStep>, body: string) returns (labels: seq<string>)
    ensures labels == Labels(steps, body)
    ensures forall i :: 0 <= i < |steps| ==> Shows(labels[i], steps[i], body)
  {
    ghost var wanted := Labels(steps, body);
    labels := [];
    var i := 0;
    while i < |steps|
      invariant 0 <= i <= |steps| && labels == wanted[..i]
    {
      var text := LabelStep(steps[i], body);
      labels := labels + [text];
      i := i + 1;
    }
    LabelsShow(steps, body);
  }

  method ScenarioLabels(pack: LoadedPack, scenarioId: string) returns (labels: seq<string>)
    ensures labels == StepLabelsForScenario(pack, scenarioId)
  {
    if scenarioId !in pack.scenariosById {
      return [];
    }
    var s := pack.scenariosById[scenarioId];
    var kbId := ArticleId(s.kbRef);
    if kbId !in pack.articles {
      return PlainLabels(s.steps);
    }
    labels := LabelSteps(s.steps, pack.articles[kbId].body);
  }
}
