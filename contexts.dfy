/** The context universe of a cross-validation run and the keys of its intent
    scorers. */
module Contexts {
  import opened NluTypes

  predicate NoDuplicates(s: seq<string>) {
    forall i, j :: 0 <= i < j < |s| ==> s[i] != s[j]
  }

  /** Every context that some intent lists. */
  function ContextSet(intents: seq<Intent>): set<string> {
    set k, c | 0 <= k < |intents| && c in intents[k].contexts :: c
  }

  /** The intents span more than one distinct context. */
  predicate SeveralContexts(intents: seq<Intent>) {
    exists c1, c2 :: c1 in ContextSet(intents) && c2 in ContextSet(intents) && c1 != c2
  }

  /** flatMap(i => i.contexts): the intents' contexts, one list after the other. */
  function FlatContexts(intents: seq<Intent>): (r: seq<string>)
    ensures forall c :: c in r <==> c in ContextSet(intents)
  {
    if intents == [] then []
    else
      var rest := FlatContexts(intents[1..]);
      assert forall k :: 0 < k < |intents| ==> intents[k] == intents[1..][k - 1];
      intents[0].contexts + rest
  }

  /** uniq: the elements of s, each once, in order of first occurrence. */
  function Uniq(s: seq<string>): (r: seq<string>)
    ensures forall x :: x in r <==> x in s
    ensures NoDuplicates(r)
  {
    if s == [] then []
    else
      var u := Uniq(s[..|s| - 1]);
      assert s == s[..|s| - 1] + [s[|s| - 1]];
      if s[|s| - 1] in u then u else u + [s[|s| - 1]]
  }

  /** allCtx: the deduplicated contexts of all intents. */
  function AllContexts(intents: seq<Intent>): seq<string> {
    Uniq(FlatContexts(intents))
  }

  /** The keys the intent scorers are built for: the synthetic ALL key in front
      when there is more than one context. */
  function ScorerKeys(allCtx: seq<string>): seq<string> {
    if |allCtx| > 1 then [ALL] + allCtx else allCtx
  }

  /** The context universe holds each context of each intent exactly once. */
  lemma AllContextsIsContextSet(intents: seq<Intent>)
    ensures forall c :: c in AllContexts(intents) <==> c in ContextSet(intents)
    ensures NoDuplicates(AllContexts(intents))
  {
  }

  /** The context universe has more than one element exactly when the
      intents span more than one distinct context. */
  lemma SeveralIffMoreThanOne(intents: seq<Intent>)
    ensures |AllContexts(intents)| > 1 <==> SeveralContexts(intents)
  {
    var allCtx := AllContexts(intents);
    var cs := ContextSet(intents);
    AllContextsIsContextSet(intents);
    if |allCtx| > 1 {
      assert allCtx[0] in cs && allCtx[1] in cs && allCtx[0] != allCtx[1];
      assert SeveralContexts(intents);
    } else if SeveralContexts(intents) {
      var c1, c2 :| c1 in cs && c2 in cs && c1 != c2;
      TwoDistinctNeedTwo(allCtx, c1, c2);
    }
  }

  /** A sequence holding two distinct elements has at least two elements. */
  lemma TwoDistinctNeedTwo(s: seq<string>, a: string, b: string)
    requires a in s && b in s && a != b
    ensures |s| > 1
  {
  }

  /** The elements of s, as a set, are t when membership agrees. */
  lemma ElementsAre(s: seq<string>, t: set<string>)
    requires forall c :: c in s <==> c in t
    ensures (set c | c in s) == t
  {
  }

  /** The scorer keys are exactly the contexts of the intents, plus ALL if and
      only if those contexts are more than one. */
  lemma ScorerKeySet(intents: seq<Intent>)
    ensures (set c | c in ScorerKeys(AllContexts(intents))) ==
            ContextSet(intents) + (if SeveralContexts(intents) then {ALL} else {})
  {
    SeveralIffMoreThanOne(intents);
    var allCtx := AllContexts(intents);
    var keys := ScorerKeys(allCtx);
    var extra: set<string> := if |allCtx| > 1 then {ALL} else {};
    assert forall c :: c in keys <==> c in extra || c in allCtx;
    ElementsAre(keys, ContextSet(intents) + extra);
  }
}
