/** The operator console: the blank skill stub, and what a reset leaves for the configuration check. */
module Console {
  import opened Basics
  import opened Text

  // ---------------------------------------------------------------- skill frontmatter

  datatype SkillError = NoOpeningFence | NeverClosed | NoName

  predicate IsFrontmatterFence(line: string) {
    Strip(line) == "---"
  }

  predicate NamesSkill(line: string) {
    "name:" <= LStrip(line)
  }

  function ValidateLines(lines: seq<string>): Option<SkillError> {
    if lines == [] || !IsFrontmatterFence(lines[0]) then Some(NoOpeningFence)
    else
      var close := NextHit(Map(lines, IsFrontmatterFence), 1);
      if close == |lines| then Some(NeverClosed)
      else if exists i :: 1 <= i < close && NamesSkill(lines[i]) then None
      else Some(NoName)
  }

  function ValidateSkillContent(text: string): Option<SkillError> {
    ValidateLines(SplitLines(text))
  }

  /** What a reset writes for a skill: nothing but the frontmatter's name. */
  function SkillStub(name: string): string {
    "---\n" + ("name: \"" + name + "\"" + "\n---\n")
  }

  lemma Between(hits: seq<bool>, i: nat, j: nat)
    requires i < j < |hits| && !hits[i] && hits[j]
    ensures i < NextHit(hits, i) <= j
  {
    NoHitBefore(hits, i);
  }

  /** Lines whose second one names the skill and that hold a later fence are valid frontmatter. */
  lemma NamedThenClosed(lines: seq<string>, j: nat)
    requires 1 < j < |lines| && IsFrontmatterFence(lines[0]) && IsFrontmatterFence(lines[j])
    requires NamesSkill(lines[1]) && !IsFrontmatterFence(lines[1])
    ensures ValidateLines(lines) == None
  {
    Between(Map(lines, IsFrontmatterFence), 1, j);
  }

  lemma FenceIsFence()
    ensures IsFrontmatterFence("---")
  {
    assert KeptFrom("---", IsSpace, 0) == 0;
    assert KeptUpTo("---", IsSpace, 3) == 3;
    assert "---"[0..] == "---" && "---"[..3] == "---";
  }

  /** A line of the text below a line feed is a line of the whole, whatever stands above. */
  lemma {:induction false} LineBelow(x: string, tail: string, line: string)
    requires x == "" || x[|x| - 1] != '\r'
    requires tail != "" && tail[0] == '\n' && line in SplitLines(tail[1..])
    ensures line in SplitLines(x + tail)
    decreases |x|
  {
    var s := x + tail;
    var n := FirstBreak(s);
    assert s[|x|] == '\n';
    assert n <= |x|;
    var width := if s[n] == '\r' && n + 1 < |s| && s[n + 1] == '\n' then 2 else 1;
    if n == |x| {
      assert s[n + 1..] == tail[1..];
    } else {
      assert n + width <= |x|;
      assert s[n + width..] == x[n + width..] + tail;
      LineBelow(x[n + width..], tail, line);
    }
  }

  lemma ClosingFence()
    ensures "---" in SplitLines("---\n")
  {
    assert "---\n" == "---" + "\n" + "";
    SplitAtLineFeed("---", "");
  }

  /** The first line of a text that opens with "name:" opens with it too. */
  lemma NameLine(s: string)
    requires "name:" <= s
    ensures SplitLines(s) != [] && NamesSkill(SplitLines(s)[0]) && !IsFrontmatterFence(SplitLines(s)[0])
  {
    var n := FirstBreak(s);
    assert forall i :: 0 <= i < 5 ==> s[i] == "name:"[i] && !IsBreak(s[i]);
    assert n >= 5;
    var line := s[..n];
    assert SplitLines(s)[0] == line;
    NameFirst(line);
  }

  lemma NameFirst(line: string)
    requires "name:" <= line
    ensures NamesSkill(line) && !IsFrontmatterFence(line)
  {
    assert line[0] == 'n' && KeptFrom(line, IsSpace, 0) == 0;
    assert LStrip(line) == line;
    var k := KeptUpTo(line, IsSpace, |line|);
    assert Strip(line) == line[..k];
    if k > 0 { assert Strip(line)[0] == 'n'; }
  }

  lemma FencedLines(fence: string, inner: seq<string>)
    requires IsFrontmatterFence(fence) && fence in inner
    requires inner != [] && NamesSkill(inner[0]) && !IsFrontmatterFence(inner[0])
    ensures ValidateLines([fence] + inner) == None
  {
    var j :| 0 <= j < |inner| && inner[j] == fence;
    var lines := [fence] + inner;
    assert lines[0] == fence && lines[1] == inner[0] && lines[j + 1] == inner[j];
    assert j != 0;
    NamedThenClosed(lines, j + 1);
  }

  /** A text that names the skill and holds a fence is valid below an opening fence. */
  lemma StubIsValid(fence: string, rest: string)
    requires IsFrontmatterFence(fence) && NoBreaks(fence)
    requires "name:" <= rest && fence in SplitLines(rest)
    ensures ValidateSkillContent(fence + "\n" + rest) == None
  {
    var inner := SplitLines(rest);
    NameLine(rest);
    FencedLines(fence, inner);
    SplitAtLineFeed(fence, rest);
  }

  lemma NamedAndClosed(x: string, tail: string)
    requires "name:" <= x && x[|x| - 1] != '\r'
    requires tail != "" && tail[0] == '\n' && "---" in SplitLines(tail[1..])
    ensures ValidateSkillContent("---" + "\n" + (x + tail)) == None
  {
    LineBelow(x, tail, "---");
    assert "name:" <= x + tail;
    FenceIsFence();
    StubIsValid("---", x + tail);
  }

  /** For every skill name, whatever characters it holds, the blank stub passes validation. */
  lemma BlankStubIsValid(name: string)
    ensures ValidateSkillContent(SkillStub(name)) == None
  {
    var x := "name: \"" + name + "\"";
    var tail := "\n---\n";
    assert tail[1..] == "---\n";
    ClosingFence();
    NamedAndClosed(x, tail);
    assert SkillStub(name) == "---" + "\n" + (x + tail);
  }

  /** Three dashes between white space. */
  ghost predicate Fenced(line: string) {
    exists left, right :: AllSpace(left) && AllSpace(right) && line == left + "---" + right
  }

  /** White space, then "name:". */
  ghost predicate Named(line: string) {
    exists left, rest :: AllSpace(left) && line == left + ("name:" + rest)
  }

  lemma FenceMeans(line: string)
    ensures IsFrontmatterFence(line) <==> Fenced(line)
  {
    var left, right := StripSplits(line);
    if IsFrontmatterFence(line) { assert line == left + "---" + right; }
    if l, r :| AllSpace(l) && AllSpace(r) && line == l + "---" + r { StripIs(l, "---", r); }
  }

  lemma NameMeans(line: string)
    ensures NamesSkill(line) <==> Named(line)
  {
    var left := LStripSplits(line);
    if NamesSkill(line) { assert line == left + ("name:" + LStrip(line)[5..]); }
    if l, rest :| AllSpace(l) && line == l + ("name:" + rest) { LStripIs(l, "name:" + rest); }
  }

  /** The first fence below the opening line. */
  ghost predicate ClosesAt(lines: seq<string>, c: nat) {
    1 <= c < |lines| && Fenced(lines[c]) && forall k :: 1 <= k < c ==> !Fenced(lines[k])
  }

  ghost predicate NamedBefore(lines: seq<string>, c: nat) {
    exists i :: 1 <= i < c && i < |lines| && Named(lines[i])
  }

  lemma FirstFence(lines: seq<string>)
    requires lines != []
    ensures var close := NextHit(Map(lines, IsFrontmatterFence), 1);
      && 1 <= close <= |lines|
      && (close < |lines| ==> ClosesAt(lines, close))
      && (close == |lines| ==> forall k :: 1 <= k < |lines| ==> !Fenced(lines[k]))
  {
    var hits := Map(lines, IsFrontmatterFence);
    NoHitBefore(hits, 1);
    forall k | 0 <= k < |lines|
      ensures hits[k] <==> Fenced(lines[k])
    {
      FenceMeans(lines[k]);
    }
  }

  lemma NamesBefore(lines: seq<string>, c: nat)
    requires c <= |lines|
    ensures (exists i :: 1 <= i < c && NamesSkill(lines[i])) <==> NamedBefore(lines, c)
  {
    forall i | 0 <= i < |lines|
      ensures NamesSkill(lines[i]) <==> Named(lines[i])
    {
      NameMeans(lines[i]);
    }
  }

  /**
   * A skill's text is accepted exactly when its first line is a fence, a later line closes it, and some line
   * between the two names the skill; otherwise the error says which of the three fails first.
   */
  lemma ValidationMeans(lines: seq<string>)
    ensures ValidateLines(lines) == Some(NoOpeningFence) <==> lines == [] || !Fenced(lines[0])
    ensures ValidateLines(lines) == Some(NeverClosed)
      <==> lines != [] && Fenced(lines[0]) && forall k :: 1 <= k < |lines| ==> !Fenced(lines[k])
    ensures ValidateLines(lines) == Some(NoName)
      <==> lines != [] && Fenced(lines[0]) && exists c: nat :: ClosesAt(lines, c) && !NamedBefore(lines, c)
    ensures ValidateLines(lines) == None
      <==> lines != [] && Fenced(lines[0]) && exists c: nat :: ClosesAt(lines, c) && NamedBefore(lines, c)
  {
    if lines != [] {
      FenceMeans(lines[0]);
      FirstFence(lines);
      var close := NextHit(Map(lines, IsFrontmatterFence), 1);
      NamesBefore(lines, close);
      assert forall c: nat :: ClosesAt(lines, c) ==> c == close;
    }
  }

  // ---------------------------------------------------------------- targets and where pushes land

  datatype Kind = WorkspaceFile | Skill

  datatype MenuTarget = MenuTarget(key: string, sandboxPath: string, kind: Kind, scratchRel: string)

  const SANDBOX_SKILLS := "/sandbox/.openclaw/skills"

  function BlankContent(t: MenuTarget): string {
    if t.kind.Skill? then SkillStub(FileName(t.scratchRel)) else ""
  }

  /** The single scratch file that belongs to a target. */
  function EditPath(t: MenuTarget): string {
    if t.kind.Skill? then t.scratchRel + "/SKILL.md" else t.scratchRel
  }

  /** An upload lands in the destination directory under the scratch file's own name. */
  function UploadedTo(t: MenuTarget): string {
    Parent(t.sandboxPath) + "/" + FileName(EditPath(t))
  }

  /** An uploaded file lands at its sandbox path exactly when that is a path and the last components agree. */
  lemma UploadLandsAtPath(t: MenuTarget)
    requires t.kind.WorkspaceFile?
    ensures UploadedTo(t) == t.sandboxPath
      <==> '/' in t.sandboxPath && FileName(t.scratchRel) == FileName(t.sandboxPath)
  {
    var path := t.sandboxPath;
    var i := LastIndexOf(path, '/');
    if i < 0 {
      assert |UploadedTo(t)| > |path|;
    } else {
      assert path == path[..i] + "/" + FileName(path);
      assert UploadedTo(t)[i + 1..] == FileName(t.scratchRel);
    }
  }

  /** Where a push really puts the file; a skill goes to the slot its name picks. */
  function LandsAt(t: MenuTarget): string {
    if t.kind.Skill? then SANDBOX_SKILLS + "/" + FileName(t.scratchRel) + "/SKILL.md" else UploadedTo(t)
  }

  /** Where the configuration check looks for it. */
  function ReadFrom(t: MenuTarget): string {
    if t.kind.Skill? then t.sandboxPath + "/SKILL.md" else t.sandboxPath
  }

  /** Each target's push lands where the check looks, and no two targets share that place. */
  ghost predicate Fitting(targets: seq<MenuTarget>) {
    && (forall i :: 0 <= i < |targets| ==> LandsAt(targets[i]) == ReadFrom(targets[i]))
    && (forall i, j :: 0 <= i < j < |targets| ==> ReadFrom(targets[i]) != ReadFrom(targets[j]))
  }

  lemma OnlyComponent(name: string)
    requires '/' !in name
    ensures FileName(name) == name
  {
    assert name[0..] == name;
  }

  /** A skill installed under its own directory name lands where the check looks. */
  lemma SkillLandsAtPath(key: string, name: string)
    requires '/' !in name
    ensures var t := MenuTarget(key, SANDBOX_SKILLS + "/" + name, Skill, "skills/" + name);
      LandsAt(t) == ReadFrom(t)
  {
    assert "skills/" + name == "skills" + "/" + name;
    LastComponent("skills", name);
  }

  lemma FileLandsAtPath(key: string, dir: string, name: string)
    requires '/' !in name
    ensures var t := MenuTarget(key, dir + "/" + name, WorkspaceFile, name);
      LandsAt(t) == ReadFrom(t)
  {
    LastComponent(dir, name);
    OnlyComponent(name);
  }

  const SANDBOX_WORKSPACE := "/sandbox/.openclaw/workspace"

  function FileTarget(key: string, name: string): MenuTarget {
    MenuTarget(key, SANDBOX_WORKSPACE + "/" + name, WorkspaceFile, name)
  }

  function SkillTarget(key: string, name: string): MenuTarget {
    MenuTarget(key, SANDBOX_SKILLS + "/" + name, Skill, "skills/" + name)
  }

  lemma FileTargetLands(key: string, name: string)
    requires '/' !in name
    ensures LandsAt(FileTarget(key, name)) == ReadFrom(FileTarget(key, name)) == SANDBOX_WORKSPACE + "/" + name
  {
    FileLandsAtPath(key, SANDBOX_WORKSPACE, name);
  }

  lemma SkillTargetLands(key: string, name: string)
    requires '/' !in name
    ensures LandsAt(SkillTarget(key, name)) == ReadFrom(SkillTarget(key, name))
    ensures ReadFrom(SkillTarget(key, name)) == SANDBOX_SKILLS + "/" + name + "/SKILL.md"
  {
    SkillLandsAtPath(key, name);
  }

  lemma Regroup(a: string, b: string, c: string, d: string, e: string)
    ensures a + (b + c + d + e) == (a + b) + c + (d + e)
  {
  }

  lemma StubReads(name: string)
    ensures SkillStub(name) == "---\nname: \"" + name + "\"\n---\n"
  {
    Regroup("---\n", "name: \"", name, "\"", "\n---\n");
    assert "---\n" + "name: \"" == "---\nname: \"";
    assert "\"" + "\n---\n" == "\"\n---\n";
  }

  lemma SkillDirectory(name: string)
    requires '/' !in name
    ensures FileName("skills/" + name) == name
  {
    assert "skills/" + name == "skills" + "/" + name;
    LastComponent("skills", name);
  }

  /** A blank file is empty; a blank skill is nothing but frontmatter with its own name. */
  lemma BlankIs(key: string, name: string)
    requires '/' !in name
    ensures BlankContent(FileTarget(key, name)) == ""
    ensures BlankContent(SkillTarget(key, name)) == "---\nname: \"" + name + "\"\n---\n"
  {
    SkillDirectory(name);
    StubReads(name);
  }

  datatype Entry = FileEntry(key: string, name: string) | SkillEntry(key: string, name: string)

  function TargetOf(e: Entry): MenuTarget {
    if e.FileEntry? then FileTarget(e.key, e.name) else SkillTarget(e.key, e.name)
  }

  /** Different files are read from different paths, different skills too, and a file is no skill. */
  lemma EntriesApart(x: Entry, y: Entry)
    requires x.name != y.name || x.FileEntry? != y.FileEntry?
    ensures ReadFrom(TargetOf(x)) != ReadFrom(TargetOf(y))
  {
    var p, q := ReadFrom(TargetOf(x)), ReadFrom(TargetOf(y));
    assert p[19] == if x.FileEntry? then 'w' else 's';
    assert q[19] == if y.FileEntry? then 'w' else 's';
    if x.FileEntry? && y.FileEntry? {
      assert p[29..] == x.name && q[29..] == y.name;
    } else if x.SkillEntry? && y.SkillEntry? {
      assert p[26..|p| - 9] == x.name && q[26..|q| - 9] == y.name;
    }
  }

  lemma EntryLands(e: Entry)
    requires '/' !in e.name
    ensures LandsAt(TargetOf(e)) == ReadFrom(TargetOf(e))
  {
    if e.FileEntry? { FileTargetLands(e.key, e.name); } else { SkillTargetLands(e.key, e.name); }
  }

  /** Any menu of differently named files and skills fits. */
  lemma EntriesFit(entries: seq<Entry>)
    requires forall i :: 0 <= i < |entries| ==> '/' !in entries[i].name
    requires forall i, j :: 0 <= i < j < |entries| ==> entries[i].name != entries[j].name
    ensures Fitting(Map(entries, TargetOf))
  {
    var targets := Map(entries, TargetOf);
    forall i | 0 <= i < |targets|
      ensures LandsAt(targets[i]) == ReadFrom(targets[i])
    {
      EntryLands(entries[i]);
    }
    forall i, j | 0 <= i < j < |targets|
      ensures ReadFrom(targets[i]) != ReadFrom(targets[j])
    {
      EntriesApart(entries[i], entries[j]);
    }
  }

  /** The console's six entries. */
  const MENU := [
    FileEntry("1", "SOUL.md"), FileEntry("2", "AGENTS.md"),
    SkillEntry("3", "infra-sentinel-monitor"), SkillEntry("4", "infra-sentinel-diagnose"),
    SkillEntry("5", "infra-sentinel-notify"), SkillEntry("6", "infra-sentinel-remediate")]

  lemma MenuNamesApart(i: nat, j: nat)
    requires i < j < |MENU|
    ensures MENU[i].name != MENU[j].name
  {
    var lengths := [7, 9, 22, 23, 21, 24];
    assert |MENU[i].name| == lengths[i] && |MENU[j].name| == lengths[j];
  }

  lemma MenuNamesPlain(i: nat)
    requires i < |MENU|
    ensures '/' !in MENU[i].name
  {
    assert '/' !in "SOUL.md" && '/' !in "AGENTS.md";
    assert '/' !in "infra-sentinel-monitor" && '/' !in "infra-sentinel-diagnose";
    assert '/' !in "infra-sentinel-notify" && '/' !in "infra-sentinel-remediate";
  }

  /** So the reset theorems apply to the console as shipped. */
  lemma MenuFits()
    ensures Fitting(Map(MENU, TargetOf))
  {
    forall i | 0 <= i < |MENU|
      ensures '/' !in MENU[i].name
    {
      MenuNamesPlain(i);
    }
    forall i, j | 0 <= i < j < |MENU|
      ensures MENU[i].name != MENU[j].name
    {
      MenuNamesApart(i, j);
    }
    EntriesFit(MENU);
  }

  // ---------------------------------------------------------------- reset, then check

  type Files = map<string, string>

  /** Files after the first `n` writes, of which only the marked ones took effect. */
  function Written(files: Files, paths: seq<string>, contents: seq<string>, took: seq<bool>, n: nat): Files
    requires n <= |paths| == |contents| == |took|
  {
    if n == 0 then files
    else
      var before := Written(files, paths, contents, took, n - 1);
      if took[n - 1] then before[paths[n - 1] := contents[n - 1]] else before
  }

  /** The sandbox after the reset pushed each target's blank, as far as the pushes succeeded. */
  function AfterReset(files: Files, targets: seq<MenuTarget>, pushed: seq<bool>): Files
    requires |pushed| == |targets|
  {
    AfterFirst(files, targets, pushed, |targets|)
  }

  function AfterFirst(files: Files, targets: seq<MenuTarget>, pushed: seq<bool>, n: nat): Files
    requires n <= |targets| == |pushed|
  {
    Written(files, Map(targets, LandsAt), Map(targets, BlankContent), pushed, n)
  }

  lemma AfterOneMore(files: Files, targets: seq<MenuTarget>, pushed: seq<bool>, n: nat)
    requires n < |targets| == |pushed|
    ensures var before := AfterFirst(files, targets, pushed, n);
      AfterFirst(files, targets, pushed, n + 1)
      == if pushed[n] then before[LandsAt(targets[n]) := BlankContent(targets[n])] else before
  {
  }

  predicate Configured(files: Files, t: MenuTarget) {
    ReadFrom(t) in files && files[ReadFrom(t)] != "" && files[ReadFrom(t)] != BlankContent(t)
  }

  /** With all paths different, the file at one of them is what its own write left. */
  lemma {:induction false} WrittenFile(
    files: Files, paths: seq<string>, contents: seq<string>, took: seq<bool>, n: nat, i: nat)
    requires n <= |paths| == |contents| == |took| && i < |paths|
    requires forall j, k :: 0 <= j < k < |paths| ==> paths[j] != paths[k]
    ensures var after := Written(files, paths, contents, took, n);
      if i < n && took[i] then paths[i] in after && after[paths[i]] == contents[i]
      else (paths[i] in after <==> paths[i] in files) && (paths[i] in files ==> after[paths[i]] == files[paths[i]])
  {
    if n > 0 {
      WrittenFile(files, paths, contents, took, n - 1, i);
    }
  }

  /** After a reset a target counts as configured exactly when its push failed and it was configured before. */
  lemma ResetThenCheck(files: Files, targets: seq<MenuTarget>, pushed: seq<bool>, i: nat)
    requires Fitting(targets) && |pushed| == |targets| && i < |targets|
    ensures Configured(AfterReset(files, targets, pushed), targets[i]) <==> !pushed[i] && Configured(files, targets[i])
  {
    var paths := Map(targets, LandsAt);
    forall j, k | 0 <= j < k < |paths|
      ensures paths[j] != paths[k]
    {
      assert LandsAt(targets[j]) == ReadFrom(targets[j]) && LandsAt(targets[k]) == ReadFrom(targets[k]);
    }
    WrittenFile(files, paths, Map(targets, BlankContent), pushed, |targets|, i);
  }

  /** The check's answers by menu key; a target that cannot be downloaded counts as unconfigured. */
  function Report(files: Files, targets: seq<MenuTarget>, reachable: seq<bool>): map<string, bool>
    requires |reachable| == |targets|
  {
    if targets == [] then map[]
    else
      var n := |targets| - 1;
      Report(files, targets[..n], reachable[..n])[targets[n].key := reachable[n] && Configured(files, targets[n])]
  }

  /** A target's line in the report, unless a later target has the same key. */
  lemma {:induction false} ReportSays(files: Files, targets: seq<MenuTarget>, reachable: seq<bool>, i: nat)
    requires |reachable| == |targets| && i < |targets|
    requires forall j :: i < j < |targets| ==> targets[j].key != targets[i].key
    ensures var t := targets[i];
      var path := if t.kind.Skill? then t.sandboxPath + "/SKILL.md" else t.sandboxPath;
      && t.key in Report(files, targets, reachable)
      && (Report(files, targets, reachable)[t.key]
          <==> reachable[i] && path in files && files[path] != "" && files[path] != BlankContent(t))
  {
    var n := |targets| - 1;
    if i < n {
      ReportSays(files, targets[..n], reachable[..n], i);
    }
  }

  lemma {:induction false} AllUnconfigured(files: Files, targets: seq<MenuTarget>, reachable: seq<bool>)
    requires |reachable| == |targets| && forall i :: 0 <= i < |targets| ==> !Configured(files, targets[i])
    ensures forall key :: key in Report(files, targets, reachable) ==> !Report(files, targets, reachable)[key]
    ensures forall i :: 0 <= i < |targets| ==> targets[i].key in Report(files, targets, reachable)
  {
    if targets != [] {
      var n := |targets| - 1;
      AllUnconfigured(files, targets[..n], reachable[..n]);
      forall i | 0 <= i < |targets|
        ensures targets[i].key in Report(files, targets, reachable)
      {
        if i < n { assert targets[..n][i] == targets[i]; }
      }
    }
  }

  /** A reset whose pushes all succeed makes the check report every target, and each as unconfigured. */
  lemma FullResetUnconfigures(files: Files, targets: seq<MenuTarget>, reachable: seq<bool>)
    requires Fitting(targets) && |reachable| == |targets|
    ensures var pushed := seq(|targets|, _ => true);
      var report := Report(AfterReset(files, targets, pushed), targets, reachable);
      && (forall i :: 0 <= i < |targets| ==> targets[i].key in report)
      && (forall key :: key in report ==> !report[key])
  {
    var pushed := seq(|targets|, _ => true);
    forall i | 0 <= i < |targets|
      ensures !Configured(AfterReset(files, targets, pushed), targets[i])
    {
      ResetThenCheck(files, targets, pushed, i);
    }
    AllUnconfigured(AfterReset(files, targets, pushed), targets, reachable);
  }

  // ---------------------------------------------------------------- as the console runs them

  /** The operator's scratch copies on the host and the files in the sandbox. */
  class OperatorConsole {
    var scratch: map<string, string>
    var files: Files

    /** Blanks one target's scratch file and pushes it. */
    method PushBlank(targets: seq<MenuTarget>, pushed: seq<bool>, i: nat, ghost start: Files)
      requires i < |targets| == |pushed| && files == AfterFirst(start, targets, pushed, i)
      modifies this
      ensures files == AfterFirst(start, targets, pushed, i + 1)
    {
      AfterOneMore(start, targets, pushed, i);
      var t := targets[i];
      scratch := scratch[EditPath(t) := BlankContent(t)];
      if pushed[i] {
        files := files[LandsAt(t) := scratch[EditPath(t)]];
      }
    }

    /** Downloads one target and compares it with its blank. */
    method CheckTarget(t: MenuTarget, reachable: bool) returns (configured: bool)
      ensures configured == (reachable && Configured(files, t))
    {
      var path := ReadFrom(t);
      var content := if reachable && path in files then Some(files[path]) else None;
      configured := content.Some? && content.value != "" && content.value != BlankContent(t);
    }

    /** `pushed` says which subprocess calls come back with exit code zero. */
    method RunReset(targets: seq<MenuTarget>, pushed: seq<bool>) returns (allOk: bool)
      requires |pushed| == |targets|
      modifies this
      ensures files == AfterReset(old(files), targets, pushed)
      ensures allOk <==> forall i :: 0 <= i < |targets| ==> pushed[i]
    {
      allOk := true;
      var i := 0;
      while i < |targets|
        invariant 0 <= i <= |targets|
        invariant files == AfterFirst(old(files), targets, pushed, i)
        invariant allOk <==> forall j :: 0 <= j < i ==> pushed[j]
      {
        PushBlank(targets, pushed, i, old(files));
        allOk := allOk && pushed[i];
        i := i + 1;
      }
    }

    method CheckConfigured(targets: seq<MenuTarget>, reachable: seq<bool>) returns (result: map<string, bool>)
      requires |reachable| == |targets|
      ensures result == Report(files, targets, reachable)
    {
      result := map[];
      var i := 0;
      while i < |targets|
        invariant 0 <= i <= |targets|
        invariant result == Report(files, targets[..i], reachable[..i])
      {
        var configured := CheckTarget(targets[i], reachable[i]);
        result := result[targets[i].key := configured];
        assert targets[..i + 1][..i] == targets[..i] && reachable[..i + 1][..i] == reachable[..i];
        i := i + 1;
      }
      assert targets[..i] == targets && reachable[..i] == reachable;
    }
  }
}
