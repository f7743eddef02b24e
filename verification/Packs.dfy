/** The loaded pack: the authored data every service starts from. */
module Packs {
  import opened Basics
  import opened Text

  datatype LogEntry = LogEntry(severity: string, message: string)

  datatype RemediationStep = RemediationStep(id: string, text: string)

  datatype Scenario = Scenario(
    id: string,
    packId: string,
    targetAsset: string,
    faultType: string,
    severity: string,
    messageId: string,
    logEntries: seq<LogEntry>,
    signatures: seq<string>,
    logRef: string,
    kbRef: string,
    steps: seq<RemediationStep>)

  datatype Article = Article(id: string, title: string, body: string)

  datatype LoadedPack = LoadedPack(
    assets: seq<string>,
    scenarios: seq<Scenario>,
    articles: map<string, Article>,
    signatureIndex: map<string, string>,
    scenariosById: map<string, Scenario>)

  // ---------------------------------------------------------------- file names

  /** The file name without its last suffix; a leading or trailing dot starts no suffix. */
  function Stem(path: string): string {
    var name := FileName(path);
    var dot := LastIndexOf(name, '.');
    if 0 < dot < |name| - 1 then name[..dot] else name
  }

  lemma StemOfFile(name: string)
    requires name != "" && name[|name| - 1] != '/'
    ensures Stem(name) != ""
  {
  }

  /** A Markdown file's stem is its name without ".md", dots inside the name included. */
  lemma StemOfMarkdown(dir: string, name: string)
    requires name != "" && '/' !in name
    ensures Stem(dir + "/" + (name + ".md")) == name
  {
    var file := name + ".md";
    assert '/' !in ".md" && '/' !in file;
    LastComponent(dir, file);
    assert file[|name|] == '.' && file[|name| + 1] == 'm' && file[|name| + 2] == 'd';
    assert LastIndexOf(file, '.') == |name|;
    assert file[..|name|] == name;
  }

  // ---------------------------------------------------------------- loading

  datatype PackError =
    | MissingPart(part: PackPart)
    | WrongProfile(packId: string)
    | WrongPack(scenario: string)
    | UnknownTarget(scenario: string)
    | NoScenarios
    | MissingArticle(scenario: string)
    | MissingBundle(scenario: string)

  /** A knowledge-base file: its name in the kb directory and what parsing it gave. */
  datatype KbFile = KbFile(name: string, title: string, body: string)

  /** What a pack directory must hold, in the order it is looked for. */
  datatype PackPart = Directory | PackYaml | Profile | ScenariosDir | KbDir

  /**
   * A pack directory after YAML parsing; `parts` are the ones present, `profileFor` is the pack id in
   * the simulator profile, `files` are the pack-relative paths that exist.
   */
  datatype PackDir = PackDir(
    parts: set<PackPart>,
    id: string,
    profileFor: string,
    assets: seq<string>,
    scenarios: seq<Scenario>,
    kb: seq<KbFile>,
    files: set<string>)

  function Parsed(file: KbFile): Article {
    Article(Stem(file.name), file.title, file.body)
  }

  /** A later article replaces an earlier one with its id. */
  function Collected(articles: seq<Article>): map<string, Article> {
    if articles == [] then map[]
    else
      var last := articles[|articles| - 1];
      Collected(articles[..|articles| - 1])[last.id := last]
  }

  function Articles(kb: seq<KbFile>): map<string, Article> {
    Collected(Map(kb, Parsed))
  }

  /** No later article has the id of this one. */
  predicate LastOfItsId(articles: seq<Article>, i: nat) {
    i < |articles| && forall j :: i < j < |articles| ==> articles[j].id != articles[i].id
  }

  lemma {:induction false} CollectedAre(articles: seq<Article>, id: string)
    ensures forall i: nat :: LastOfItsId(articles, i) && articles[i].id == id ==>
      id in Collected(articles) && Collected(articles)[id] == articles[i]
    ensures id in Collected(articles) ==> exists i: nat :: LastOfItsId(articles, i) && articles[i].id == id
  {
    if articles != [] {
      var n := |articles| - 1;
      var front := articles[..n];
      CollectedAre(front, id);
      if articles[n].id == id {
        assert LastOfItsId(articles, n);
      } else {
        assert forall i: nat :: LastOfItsId(articles, i) && articles[i].id == id ==> LastOfItsId(front, i);
        if i: nat :| LastOfItsId(front, i) && front[i].id == id { assert LastOfItsId(articles, i); }
      }
    }
  }

  /** No later file has the stem of this one. */
  ghost predicate LastOfItsStem(kb: seq<KbFile>, i: nat) {
    i < |kb| && forall j :: i < j < |kb| ==> Stem(kb[j].name) != Stem(kb[i].name)
  }

  /** There is an article for each stem, with the title and body of the last file that has it. */
  lemma ArticlesAre(kb: seq<KbFile>, id: string)
    ensures forall i: nat :: LastOfItsStem(kb, i) && Stem(kb[i].name) == id ==>
      id in Articles(kb) && Articles(kb)[id] == Article(id, kb[i].title, kb[i].body)
    ensures id in Articles(kb) ==> exists i: nat :: LastOfItsStem(kb, i) && Stem(kb[i].name) == id
  {
    var articles := Map(kb, Parsed);
    CollectedAre(articles, id);
    forall i: nat
      ensures LastOfItsStem(kb, i) <==> LastOfItsId(articles, i)
    {
      SameLast(kb, i);
    }
    if id in Articles(kb) {
      var i: nat :| LastOfItsId(articles, i) && articles[i].id == id;
      assert LastOfItsStem(kb, i) && Stem(kb[i].name) == id;
    }
  }

  lemma SameLast(kb: seq<KbFile>, i: nat)
    ensures LastOfItsStem(kb, i) <==> LastOfItsId(Map(kb, Parsed), i)
  {
    var articles := Map(kb, Parsed);
    assert forall j :: 0 <= j < |kb| ==> articles[j].id == Stem(kb[j].name);
  }

  lemma ArticleIds(kb: seq<KbFile>)
    requires forall i :: 0 <= i < |kb| ==> kb[i].name != "" && kb[i].name[|kb[i].name| - 1] != '/'
    ensures forall id :: id in Articles(kb) ==> id != "" && Articles(kb)[id].id == id
  {
    forall id | id in Articles(kb)
      ensures id != "" && Articles(kb)[id].id == id
    {
      ArticlesAre(kb, id);
      var i: nat :| LastOfItsStem(kb, i) && Stem(kb[i].name) == id;
      StemOfFile(kb[i].name);
    }
  }

  /** The last of `scenarios` that lists the signature. */
  predicate LastLister(scenarios: seq<Scenario>, sig: string, i: int) {
    && 0 <= i < |scenarios| && sig in scenarios[i].signatures
    && forall j :: i < j < |scenarios| ==> sig !in scenarios[j].signatures
  }

  /** The index holds every listed signature, mapped to the article of its last lister. */
  ghost predicate IndexRight(scenarios: seq<Scenario>, index: map<string, string>) {
    && (forall sig :: sig in index <==> exists i :: 0 <= i < |scenarios| && sig in scenarios[i].signatures)
    && (forall sig, i :: LastLister(scenarios, sig, i) ==> sig in index && index[sig] == Stem(scenarios[i].kbRef))
  }

  /** One scenario's turn: each of its signatures now points to its article. */
  method AddSignatures(before: map<string, string>, sigs: seq<string>, kbId: string) returns (index: map<string, string>)
    ensures forall sig :: sig in index <==> sig in before || sig in sigs
    ensures forall sig :: sig in index ==> index[sig] == if sig in sigs then kbId else before[sig]
  {
    index := before;
    var j := 0;
    while j < |sigs|
      invariant 0 <= j <= |sigs|
      invariant forall sig :: sig in index <==> sig in before || sig in sigs[..j]
      invariant forall sig :: sig in index ==> index[sig] == if sig in sigs[..j] then kbId else before[sig]
    {
      assert sigs[..j + 1] == sigs[..j] + [sigs[j]];
      index := index[sigs[j] := kbId];
      j := j + 1;
    }
    assert sigs[..j] == sigs;
  }

  method BuildSignatureIndex(scenarios: seq<Scenario>) returns (index: map<string, string>)
    ensures IndexRight(scenarios, index)
  {
    index := map[];
    var i := 0;
    while i < |scenarios|
      invariant 0 <= i <= |scenarios|
      invariant IndexRight(scenarios[..i], index)
    {
      var next := AddSignatures(index, scenarios[i].signatures, Stem(scenarios[i].kbRef));
      IndexGrows(scenarios[..i], index, scenarios[i], next);
      assert scenarios[..i + 1] == scenarios[..i] + [scenarios[i]];
      index := next;
      i := i + 1;
    }
    assert scenarios[..i] == scenarios;
  }

  lemma IndexGrows(scenarios: seq<Scenario>, before: map<string, string>, s: Scenario, index: map<string, string>)
    requires IndexRight(scenarios, before)
    requires forall sig :: sig in index <==> sig in before || sig in s.signatures
    requires forall sig :: sig in index ==> index[sig] == if sig in s.signatures then Stem(s.kbRef) else before[sig]
    ensures IndexRight(scenarios + [s], index)
  {
    var all := scenarios + [s];
    forall sig: string
      ensures sig in index <==> exists i :: 0 <= i < |all| && sig in all[i].signatures
    {
      if sig in s.signatures { assert sig in all[|scenarios|].signatures; }
      if i :| 0 <= i < |scenarios| && sig in scenarios[i].signatures { assert sig in all[i].signatures; }
    }
    forall sig, i | LastLister(all, sig, i)
      ensures sig in index && index[sig] == Stem(all[i].kbRef)
    {
      if i < |scenarios| {
        assert all[|scenarios|] == s && sig !in s.signatures;
        forall j | i < j < |scenarios|
          ensures sig !in scenarios[j].signatures
        {
          assert all[j] == scenarios[j];
        }
        assert LastLister(scenarios, sig, i);
      }
    }
  }

  function ScenarioIds(scenarios: seq<Scenario>): (ids: seq<string>)
    ensures |ids| == |scenarios| && forall i :: 0 <= i < |scenarios| ==> ids[i] == scenarios[i].id
  {
    seq(|scenarios|, i requires 0 <= i < |scenarios| => scenarios[i].id)
  }

  /** What an accepted pack promises the orchestrator: ids and targets lead somewhere. */
  ghost predicate TargetsKnown(pack: LoadedPack) {
    && (forall id :: id in pack.scenariosById <==> id in ScenarioIds(pack.scenarios))
    && (forall id :: id in pack.scenariosById ==>
          pack.scenariosById[id].id == id && pack.scenariosById[id].targetAsset in pack.assets)
  }

  /** What it promises search: every scenario has its article, every signature its entry. */
  ghost predicate SearchReady(pack: LoadedPack) {
    && (forall i :: 0 <= i < |pack.scenarios| ==> Stem(pack.scenarios[i].kbRef) in pack.articles)
    && "" !in pack.articles && (forall id :: id in pack.articles ==> pack.articles[id].id == id)
    && IndexRight(pack.scenarios, pack.signatureIndex)
  }

  ghost predicate Closed(pack: LoadedPack) {
    pack.scenarios != [] && TargetsKnown(pack) && SearchReady(pack)
  }

  function ScenarioError(dir: PackDir, s: Scenario): Option<PackError> {
    if s.packId != dir.id then Some(WrongPack(s.id))
    else if s.targetAsset !in dir.assets then Some(UnknownTarget(s.id))
    else None
  }

  function ArticleError(dir: PackDir, articles: map<string, Article>, s: Scenario): Option<PackError> {
    if s.kbRef !in dir.files || Stem(s.kbRef) !in articles then Some(MissingArticle(s.id)) else None
  }

  function BundleError(dir: PackDir, s: Scenario): Option<PackError> {
    if s.logRef !in dir.files then Some(MissingBundle(s.id)) else None
  }

  /** What each scenario does to one of the three passes over them. */
  function ScenarioErrors(dir: PackDir): (errors: seq<Option<PackError>>)
    ensures |errors| == |dir.scenarios|
    ensures forall i :: 0 <= i < |errors| ==> errors[i] == ScenarioError(dir, dir.scenarios[i])
  {
    Map(dir.scenarios, s => ScenarioError(dir, s))
  }

  function ArticleErrors(dir: PackDir, articles: map<string, Article>): (errors: seq<Option<PackError>>)
    ensures |errors| == |dir.scenarios|
    ensures forall i :: 0 <= i < |errors| ==> errors[i] == ArticleError(dir, articles, dir.scenarios[i])
  {
    Map(dir.scenarios, s => ArticleError(dir, articles, s))
  }

  function BundleErrors(dir: PackDir): (errors: seq<Option<PackError>>)
    ensures |errors| == |dir.scenarios|
    ensures forall i :: 0 <= i < |errors| ==> errors[i] == BundleError(dir, dir.scenarios[i])
  {
    Map(dir.scenarios, s => BundleError(dir, s))
  }

  function FirstError(errors: seq<Option<PackError>>): Option<PackError> {
    if errors == [] then None else if errors[0].Some? then errors[0] else FirstError(errors[1..])
  }

  lemma {:induction false} NoError(errors: seq<Option<PackError>>)
    ensures FirstError(errors).None? <==> forall i :: 0 <= i < |errors| ==> errors[i].None?
  {
    if errors != [] {
      NoError(errors[1..]);
      assert forall i :: 0 < i < |errors| ==> errors[i] == errors[1..][i - 1];
    }
  }

  /** Every part is there, and the simulator profile is this pack's. */
  predicate Complete(dir: PackDir) {
    && Directory in dir.parts && PackYaml in dir.parts && Profile in dir.parts && ScenariosDir in dir.parts
    && KbDir in dir.parts && dir.profileFor == dir.id
  }

  /** What makes loading fail before any scenario is read. */
  function HeaderError(dir: PackDir): Option<PackError> {
    if Directory !in dir.parts then Some(MissingPart(Directory))
    else if PackYaml !in dir.parts then Some(MissingPart(PackYaml))
    else if Profile !in dir.parts then Some(MissingPart(Profile))
    else if dir.profileFor != dir.id then Some(WrongProfile(dir.profileFor))
    else if ScenariosDir !in dir.parts then Some(MissingPart(ScenariosDir))
    else None
  }

  /**
   * What makes loading fail, if anything: a missing part on the way, the first bad record, the first
   * bad reference.
   */
  function Rejection(dir: PackDir, articles: map<string, Article>): Option<PackError> {
    var bad := FirstError(ScenarioErrors(dir));
    if HeaderError(dir).Some? then HeaderError(dir)
    else if bad.Some? then bad
    else if dir.scenarios == [] then Some(NoScenarios)
    else if KbDir !in dir.parts then Some(MissingPart(KbDir))
    else
      var badRef := FirstError(ArticleErrors(dir, articles));
      if badRef.Some? then badRef else FirstError(BundleErrors(dir))
  }

  /** A scenario whose pack, target, article and log bundle the directory knows. */
  ghost predicate Refers(dir: PackDir, s: Scenario) {
    && s.packId == dir.id && s.targetAsset in dir.assets
    && s.kbRef in dir.files && Stem(s.kbRef) in Articles(dir.kb)
    && s.logRef in dir.files
  }

  lemma RefersMeansNoError(dir: PackDir, s: Scenario)
    ensures Refers(dir, s)
      <==> ScenarioError(dir, s).None? && ArticleError(dir, Articles(dir.kb), s).None? && BundleError(dir, s).None?
  {
  }

  lemma CompleteMeansNoError(dir: PackDir)
    ensures Complete(dir) <==> HeaderError(dir).None? && KbDir in dir.parts
  {
  }

  lemma PassesMeansNoError(dir: PackDir, articles: map<string, Article>)
    ensures Rejection(dir, articles).None?
      <==> && HeaderError(dir).None? && KbDir in dir.parts && dir.scenarios != []
           && FirstError(ScenarioErrors(dir)).None? && FirstError(ArticleErrors(dir, articles)).None?
           && FirstError(BundleErrors(dir)).None?
  {
  }

  lemma ScenariosPass(dir: PackDir)
    ensures FirstError(ScenarioErrors(dir)).None? && FirstError(ArticleErrors(dir, Articles(dir.kb))).None?
        && FirstError(BundleErrors(dir)).None?
      <==> forall i :: 0 <= i < |dir.scenarios| ==> Refers(dir, dir.scenarios[i])
  {
    NoError(ScenarioErrors(dir));
    NoError(ArticleErrors(dir, Articles(dir.kb)));
    NoError(BundleErrors(dir));
    forall i | 0 <= i < |dir.scenarios|
      ensures Refers(dir, dir.scenarios[i])
        <==> ScenarioErrors(dir)[i].None? && ArticleErrors(dir, Articles(dir.kb))[i].None? && BundleErrors(dir)[i].None?
    {
      RefersMeansNoError(dir, dir.scenarios[i]);
    }
  }

  /**
   * Loading passes exactly when the directory is complete, there are scenarios, and each of them refers
   * to known things only.
   */
  lemma OnlyClosedPasses(dir: PackDir)
    ensures Rejection(dir, Articles(dir.kb)).None?
      <==> Complete(dir) && dir.scenarios != []
           && forall i :: 0 <= i < |dir.scenarios| ==> Refers(dir, dir.scenarios[i])
  {
    CompleteMeansNoError(dir);
    PassesMeansNoError(dir, Articles(dir.kb));
    ScenariosPass(dir);
  }

  ghost predicate SomeScenario(dir: PackDir, id: string, bad: Scenario -> bool) {
    exists i :: 0 <= i < |dir.scenarios| && dir.scenarios[i].id == id && bad(dir.scenarios[i])
  }

  /** What an error claims about the directory. */
  ghost predicate Holds(dir: PackDir, error: PackError) {
    match error
    case MissingPart(part) => part !in dir.parts
    case WrongProfile(packId) => Profile in dir.parts && packId == dir.profileFor && packId != dir.id
    case WrongPack(id) => SomeScenario(dir, id, (s: Scenario) => s.packId != dir.id)
    case UnknownTarget(id) => SomeScenario(dir, id, (s: Scenario) => s.packId == dir.id && s.targetAsset !in dir.assets)
    case NoScenarios => dir.scenarios == []
    case MissingArticle(id) =>
      SomeScenario(dir, id, (s: Scenario) => s.kbRef !in dir.files || Stem(s.kbRef) !in Articles(dir.kb))
    case MissingBundle(id) => SomeScenario(dir, id, (s: Scenario) => s.logRef !in dir.files)
  }

  lemma {:induction false} ErrorIsSomewhere(errors: seq<Option<PackError>>)
    requires FirstError(errors).Some?
    ensures exists i :: 0 <= i < |errors| && errors[i] == FirstError(errors)
  {
    if errors[0].None? {
      ErrorIsSomewhere(errors[1..]);
      var i :| 0 <= i < |errors[1..]| && errors[1..][i] == FirstError(errors[1..]);
      assert errors[i + 1] == FirstError(errors);
    }
  }

  lemma OwnErrorHolds(dir: PackDir, i: nat)
    requires i < |dir.scenarios|
    ensures ScenarioError(dir, dir.scenarios[i]).Some? ==> Holds(dir, ScenarioError(dir, dir.scenarios[i]).value)
    ensures ArticleError(dir, Articles(dir.kb), dir.scenarios[i]).Some? ==>
      Holds(dir, ArticleError(dir, Articles(dir.kb), dir.scenarios[i]).value)
    ensures BundleError(dir, dir.scenarios[i]).Some? ==> Holds(dir, BundleError(dir, dir.scenarios[i]).value)
  {
  }

  /** The error that loading stops at is true of the directory. */
  lemma RejectionHolds(dir: PackDir)
    requires Rejection(dir, Articles(dir.kb)).Some?
    ensures Holds(dir, Rejection(dir, Articles(dir.kb)).value)
  {
    var error := Rejection(dir, Articles(dir.kb));
    forall i | 0 <= i < |dir.scenarios|
      ensures ScenarioErrors(dir)[i] == error ==> Holds(dir, error.value)
      ensures ArticleErrors(dir, Articles(dir.kb))[i] == error ==> Holds(dir, error.value)
      ensures BundleErrors(dir)[i] == error ==> Holds(dir, error.value)
    {
      OwnErrorHolds(dir, i);
    }
    if FirstError(ScenarioErrors(dir)).Some? { ErrorIsSomewhere(ScenarioErrors(dir)); }
    if FirstError(ArticleErrors(dir, Articles(dir.kb))).Some? { ErrorIsSomewhere(ArticleErrors(dir, Articles(dir.kb))); }
    if FirstError(BundleErrors(dir)).Some? { ErrorIsSomewhere(BundleErrors(dir)); }
  }

  function ById(scenarios: seq<Scenario>): map<string, Scenario> {
    if scenarios == [] then map[]
    else ById(scenarios[..|scenarios| - 1])[scenarios[|scenarios| - 1].id := scenarios[|scenarios| - 1]]
  }

  lemma {:induction false} ByIdRight(scenarios: seq<Scenario>)
    ensures forall id :: id in ById(scenarios) <==> id in ScenarioIds(scenarios)
    ensures forall id :: id in ById(scenarios) ==> ById(scenarios)[id].id == id && ById(scenarios)[id] in scenarios
  {
    if scenarios != [] {
      var n := |scenarios| - 1;
      ByIdRight(scenarios[..n]);
      assert ScenarioIds(scenarios) == ScenarioIds(scenarios[..n]) + [scenarios[n].id];
    }
  }

  lemma LoadedIsClosed(dir: PackDir, index: map<string, string>)
    requires forall i :: 0 <= i < |dir.kb| ==> dir.kb[i].name != "" && dir.kb[i].name[|dir.kb[i].name| - 1] != '/'
    requires dir.scenarios != [] && IndexRight(dir.scenarios, index)
    requires forall i :: 0 <= i < |dir.scenarios| ==> Refers(dir, dir.scenarios[i])
    ensures Closed(LoadedPack(dir.assets, dir.scenarios, Articles(dir.kb), index, ById(dir.scenarios)))
  {
    ArticleIds(dir.kb);
    var pack := LoadedPack(dir.assets, dir.scenarios, Articles(dir.kb), index, ById(dir.scenarios));
    assert TargetsKnown(pack) by {
      forall i | 0 <= i < |dir.scenarios|
        ensures dir.scenarios[i].targetAsset in dir.assets
      {
        assert Refers(dir, dir.scenarios[i]);
      }
      TargetsLoaded(pack);
    }
    forall i | 0 <= i < |dir.scenarios|
      ensures Stem(dir.scenarios[i].kbRef) in pack.articles
    {
      assert Refers(dir, dir.scenarios[i]);
    }
  }

  lemma TargetsLoaded(pack: LoadedPack)
    requires pack.scenariosById == ById(pack.scenarios)
    requires forall i :: 0 <= i < |pack.scenarios| ==> pack.scenarios[i].targetAsset in pack.assets
    ensures TargetsKnown(pack)
  {
    ByIdRight(pack.scenarios);
  }

  /** Loads a pack, or names the first reason not to. Only closed packs are accepted, and all of them. */
  method LoadPack(dir: PackDir) returns (r: Result<LoadedPack, PackError>)
    requires forall i :: 0 <= i < |dir.kb| ==> dir.kb[i].name != "" && dir.kb[i].name[|dir.kb[i].name| - 1] != '/'
    ensures r.Ok? ==> Closed(r.value) && r.value.assets == dir.assets && r.value.scenarios == dir.scenarios
    ensures r.Err? ==> Rejection(dir, Articles(dir.kb)) == Some(r.error) && Holds(dir, r.error)
    ensures r.Ok? <==> Complete(dir) && dir.scenarios != []
                       && forall i :: 0 <= i < |dir.scenarios| ==> Refers(dir, dir.scenarios[i])
  {
    var articles := Articles(dir.kb);
    var rejection := Rejection(dir, articles);
    OnlyClosedPasses(dir);
    if rejection.Some? {
      RejectionHolds(dir);
      return Err(rejection.value);
    }
    var index := BuildSignatureIndex(dir.scenarios);
    LoadedIsClosed(dir, index);
    return Ok(LoadedPack(dir.assets, dir.scenarios, articles, index, ById(dir.scenarios)));
  }
}
