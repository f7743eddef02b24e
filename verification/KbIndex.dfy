/** Knowledge-base search: a confident semantic hit, else the signature index, else the caller's fallback. */
module KbIndex {
  import opened Basics
  import opened Packs

  datatype Via = Semantic | Deterministic

  datatype SearchResult = SearchResult(article: Article, score: real, via: Via)

  /** What the embedding search came up with; `None` when it is unavailable or finds nothing. */
  datatype Hit = Hit(kbId: string, score: real)

  ghost predicate HitValid(pack: LoadedPack, semantic: Option<Hit>) {
    semantic.Some? ==> semantic.value.kbId in pack.articles
  }

  function Search(
    pack: LoadedPack, threshold: real, semantic: Option<Hit>, signature: string, fallback: Option<string>)
    : Option<SearchResult>
    requires HitValid(pack, semantic)
  {
    if semantic.Some? && semantic.value.score >= threshold then
      Some(SearchResult(pack.articles[semantic.value.kbId], semantic.value.score, Semantic))
    else
      var kbId := if signature in pack.signatureIndex then Some(pack.signatureIndex[signature]) else fallback;
      if kbId.Some? && kbId.value != "" && kbId.value in pack.articles
      then Some(SearchResult(pack.articles[kbId.value], 1.0, Deterministic))
      else None
  }

  /** The scenarios that list a signature have a last one. */
  lemma {:induction false} SomeLastLister(scenarios: seq<Scenario>, sig: string, i: nat) returns (last: nat)
    requires i < |scenarios| && sig in scenarios[i].signatures
    ensures LastLister(scenarios, sig, last)
    decreases |scenarios| - i
  {
    if j :| i < j < |scenarios| && sig in scenarios[j].signatures {
      last := SomeLastLister(scenarios, sig, j);
    } else {
      last := i;
    }
  }

  /**
   * On an accepted pack a search for any listed signature always answers with an article of the
   * pack. Without a confident hit it is the article of the last scenario that lists the signature,
   * whatever fallback the caller suggests.
   */
  lemma SearchAlwaysAnswers(
    pack: LoadedPack, threshold: real, semantic: Option<Hit>, fallback: Option<string>, i: nat, signature: string)
    requires SearchReady(pack) && HitValid(pack, semantic)
    requires i < |pack.scenarios| && signature in pack.scenarios[i].signatures
    ensures var r := Search(pack, threshold, semantic, signature, fallback);
      && r.Some?
      && r.value.article in pack.articles.Values
      && (semantic.None? || semantic.value.score < threshold ==>
            && r.value.via == Deterministic && r.value.score == 1.0
            && exists last :: LastLister(pack.scenarios, signature, last)
                 && r.value.article.id == Stem(pack.scenarios[last].kbRef))
  {
    var last := SomeLastLister(pack.scenarios, signature, i);
    assert pack.signatureIndex[signature] == Stem(pack.scenarios[last].kbRef);
    assert Stem(pack.scenarios[last].kbRef) in pack.articles;
  }

  /** A confident semantic hit is answered with its own article and score, whatever the signature. */
  lemma ConfidentHitWins(
    pack: LoadedPack, threshold: real, semantic: Option<Hit>, signature: string, fallback: Option<string>)
    requires SearchReady(pack) && HitValid(pack, semantic) && semantic.Some? && semantic.value.score >= threshold
    ensures var r := Search(pack, threshold, semantic, signature, fallback);
      r.Some? && r.value.article.id == semantic.value.kbId && r.value.score == semantic.value.score && r.value.via == Semantic
  {
    assert semantic.value.kbId in pack.articles;
  }

  /**
   * Without one, a signature that no scenario lists is answered exactly when the caller's fallback names an
   * article, and then with that article, at full score.
   */
  lemma UnlistedFallsBack(
    pack: LoadedPack, threshold: real, semantic: Option<Hit>, signature: string, fallback: Option<string>)
    requires SearchReady(pack) && HitValid(pack, semantic) && (semantic.None? || semantic.value.score < threshold)
    requires forall i :: 0 <= i < |pack.scenarios| ==> signature !in pack.scenarios[i].signatures
    ensures var r := Search(pack, threshold, semantic, signature, fallback);
      && (r.Some? <==> fallback.Some? && fallback.value in pack.articles)
      && (r.Some? ==> r.value.article.id == fallback.value && r.value.score == 1.0 && r.value.via == Deterministic)
  {
    assert signature !in pack.signatureIndex;
  }
}
