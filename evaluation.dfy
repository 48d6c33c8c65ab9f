/** The evaluation loop of crossValidate: every test example is scored by the
    intent scorer of each of its contexts, by the ALL scorer when there are
    several contexts, and token by token by the slot scorer. */
module Evaluation {
  import opened NluTypes
  import opened TestSet
  import opened F1Scorer

  /** The extracted slot spans the whole token, from its offset to offset + length. */
  predicate Covers(s: ExtractedSlot, t: Token) {
    s.start <= t.offset && s.end >= t.offset + |t.value|
  }

  /** extractedSlots.find(...): the position of the first slot covering the token. */
  function FindCovering(slots: seq<ExtractedSlot>, t: Token): (r: Option<nat>)
    ensures r.Some? ==> r.value < |slots| && Covers(slots[r.value], t)
                        && forall j :: 0 <= j < r.value ==> !Covers(slots[j], t)
    ensures r.None? ==> forall j :: 0 <= j < |slots| ==> !Covers(slots[j], t)
  {
    if slots == [] then None
    else if Covers(slots[0], t) then Some(0)
    else
      match FindCovering(slots[1..], t)
      case None => None
      case Some(j) => Some(j + 1)
  }

  /** The predicted tag of a token: the name of the first covering slot, else OUT. */
  function PredictedTag(slots: seq<ExtractedSlot>, t: Token): string {
    match FindCovering(slots, t)
    case None => OUT
    case Some(j) => slots[j].name
  }

  /** The records one test example gives the scorer of `key` while its
      contexts `ctxs` are visited: one per occurrence of key, the prediction
      restricted to that one context against the gold intent. */
  function CtxRecords(e: TestExample, ctxs: seq<string>, engine: Engine, key: string): seq<Pair>
    decreases |ctxs|
  {
    if ctxs == [] then []
    else
      var c := ctxs[|ctxs| - 1];
      CtxRecords(e, ctxs[..|ctxs| - 1], engine, key)
        + if c == key then [Pair(engine(e.utterance.text, [c]).intent, e.labels.intent)] else []
  }

  /** Visiting the contexts gives the scorer of key one record per occurrence
      of key, each the prediction restricted to key against the gold intent. */
  lemma {:induction false} CtxRecordsContent(e: TestExample, ctxs: seq<string>, engine: Engine, key: string)
    ensures |CtxRecords(e, ctxs, engine, key)| == multiset(ctxs)[key]
    ensures forall p :: p in CtxRecords(e, ctxs, engine, key) ==>
              p == Pair(engine(e.utterance.text, [key]).intent, e.labels.intent)
    decreases |ctxs|
  {
    if ctxs != [] {
      var c := ctxs[|ctxs| - 1];
      assert ctxs == ctxs[..|ctxs| - 1] + [c];
      CtxRecordsContent(e, ctxs[..|ctxs| - 1], engine, key);
    }
  }

  /** The record one test example gives the scorer of `key` for the prediction
      over all contexts: only to ALL, and only when there are several contexts. */
  function AllRecords(e: TestExample, allCtx: seq<string>, engine: Engine, key: string): seq<Pair> {
    if |allCtx| > 1 && key == ALL then [Pair(engine(e.utterance.text, allCtx).intent, e.labels.intent)] else []
  }

  /** Everything the scorer of `key` records over a test set. */
  function IntentRecords(testSet: seq<TestExample>, allCtx: seq<string>, engine: Engine, key: string): seq<Pair>
    decreases |testSet|
  {
    if testSet == [] then []
    else
      var e := testSet[|testSet| - 1];
      IntentRecords(testSet[..|testSet| - 1], allCtx, engine, key)
        + CtxRecords(e, e.ctxs, engine, key) + AllRecords(e, allCtx, engine, key)
  }

  /** The slot records of one utterance: one pair per token, the predicted tag
      against the token's gold tag. */
  function TokenRecords(slots: seq<ExtractedSlot>, tokens: seq<Token>): (r: seq<Pair>)
    ensures |r| == |tokens|
    ensures forall j :: 0 <= j < |tokens| ==> r[j] == Pair(PredictedTag(slots, tokens[j]), GoldTag(tokens[j]))
    decreases |tokens|
  {
    if tokens == [] then []
    else
      var t := tokens[|tokens| - 1];
      TokenRecords(slots, tokens[..|tokens| - 1]) + [Pair(PredictedTag(slots, t), GoldTag(t))]
  }

  /** Everything the slot scorer records over a test set; the slots come from
      the prediction over all contexts. */
  function SlotRecords(testSet: seq<TestExample>, allCtx: seq<string>, engine: Engine): seq<Pair>
    decreases |testSet|
  {
    if testSet == [] then []
    else
      var e := testSet[|testSet| - 1];
      SlotRecords(testSet[..|testSet| - 1], allCtx, engine)
        + TokenRecords(engine(e.utterance.text, allCtx).slots, e.utterance.tokens)
  }

  /** No two keys share a scorer. */
  predicate Distinct(scorers: map<string, MultiClassF1Scorer>) {
    forall k1, k2 :: k1 in scorers && k2 in scorers && k1 != k2 ==> scorers[k1] != scorers[k2]
  }

  lemma CtxRecordsStep(e: TestExample, ctxs: seq<string>, j: nat, engine: Engine, key: string)
    requires j < |ctxs|
    ensures CtxRecords(e, ctxs[..j + 1], engine, key)
         == CtxRecords(e, ctxs[..j], engine, key)
            + if ctxs[j] == key then [Pair(engine(e.utterance.text, [ctxs[j]]).intent, e.labels.intent)] else []
  {
    assert ctxs[..j + 1][..j] == ctxs[..j];
  }

  /** Scoring example n after the first n extends the scorer of key by that example's records. */
  lemma IntentRecordsStep(initial: seq<Pair>, before: seq<Pair>, after: seq<Pair>,
                          testSet: seq<TestExample>, n: nat, allCtx: seq<string>, engine: Engine, key: string)
    requires n < |testSet|
    requires before == initial + IntentRecords(testSet[..n], allCtx, engine, key)
    requires after == before + CtxRecords(testSet[n], testSet[n].ctxs, engine, key) + AllRecords(testSet[n], allCtx, engine, key)
    ensures after == initial + IntentRecords(testSet[..n + 1], allCtx, engine, key)
  {
    assert testSet[..n + 1][..n] == testSet[..n];
    var done := IntentRecords(testSet[..n], allCtx, engine, key);
    var ctxs := CtxRecords(testSet[n], testSet[n].ctxs, engine, key);
    var all := AllRecords(testSet[n], allCtx, engine, key);
    assert IntentRecords(testSet[..n + 1], allCtx, engine, key) == done + ctxs + all;
    assert (initial + done) + ctxs + all == initial + (done + ctxs + all);
  }

  /** Scoring example n after the first n extends the slot scorer by that example's token records. */
  lemma SlotRecordsStep(initial: seq<Pair>, before: seq<Pair>, after: seq<Pair>,
                        testSet: seq<TestExample>, n: nat, allCtx: seq<string>, engine: Engine)
    requires n < |testSet|
    requires before == initial + SlotRecords(testSet[..n], allCtx, engine)
    requires after == before + TokenRecords(engine(testSet[n].utterance.text, allCtx).slots, testSet[n].utterance.tokens)
    ensures after == initial + SlotRecords(testSet[..n + 1], allCtx, engine)
  {
    assert testSet[..n + 1][..n] == testSet[..n];
  }

  /** The loop over the contexts of one test example: predict restricted to
      each context and record the result in that context's scorer. */
  method ScoreContexts(ex: TestExample, engine: Engine, intentScorers: map<string, MultiClassF1Scorer>)
    requires Distinct(intentScorers)
    requires forall c :: c in ex.ctxs ==> c in intentScorers
    modifies intentScorers.Values
    ensures forall k :: k in intentScorers ==>
      intentScorers[k].records == old(intentScorers[k].records) + CtxRecords(ex, ex.ctxs, engine, k)
  {
    for j := 0 to |ex.ctxs|
      invariant forall k :: k in intentScorers ==>
        intentScorers[k].records == old(intentScorers[k].records) + CtxRecords(ex, ex.ctxs[..j], engine, k)
    {
      var ctx := ex.ctxs[j];
      var res := engine(ex.utterance.text, [ctx]);
      var scorer := intentScorers[ctx];
      assert scorer in intentScorers.Values;
      scorer.Record(res.intent, ex.labels.intent);
      forall k | k in intentScorers
        ensures intentScorers[k].records == old(intentScorers[k].records) + CtxRecords(ex, ex.ctxs[..j + 1], engine, k)
      {
        CtxRecordsStep(ex, ex.ctxs, j, engine, k);
        if k != ctx {
          assert intentScorers[k] != scorer;
        }
      }
    }
    assert ex.ctxs[..|ex.ctxs|] == ex.ctxs;
  }

  /** The loop over the tokens of one utterance: record the predicted tag
      against the gold tag of every token. */
  method ScoreTokens(extractedSlots: seq<ExtractedSlot>, tokens: seq<Token>, slotScorer: MultiClassF1Scorer)
    modifies slotScorer
    ensures slotScorer.records == old(slotScorer.records) + TokenRecords(extractedSlots, tokens)
  {
    for t := 0 to |tokens|
      invariant slotScorer.records == old(slotScorer.records) + TokenRecords(extractedSlots, tokens[..t])
    {
      var tok := tokens[t];
      assert tokens[..t + 1][..t] == tokens[..t];
      var actual := PredictedTag(extractedSlots, tok);
      var expected := GoldTag(tok);
      slotScorer.Record(actual, expected);
    }
    assert tokens[..|tokens|] == tokens;
  }

  /** The body of the loop over the test set, for one example. */
  method ScoreExample(ex: TestExample, allCtx: seq<string>, engine: Engine,
                      intentScorers: map<string, MultiClassF1Scorer>, slotScorer: MultiClassF1Scorer)
    requires Distinct(intentScorers) && slotScorer !in intentScorers.Values
    requires forall c :: c in ex.ctxs ==> c in intentScorers
    requires |allCtx| > 1 ==> ALL in intentScorers
    modifies intentScorers.Values, slotScorer
    ensures forall k :: k in intentScorers ==>
      intentScorers[k].records == old(intentScorers[k].records)
                                  + CtxRecords(ex, ex.ctxs, engine, k) + AllRecords(ex, allCtx, engine, k)
    ensures slotScorer.records
         == old(slotScorer.records) + TokenRecords(engine(ex.utterance.text, allCtx).slots, ex.utterance.tokens)
  {
    ScoreContexts(ex, engine, intentScorers);

    var res := engine(ex.utterance.text, allCtx);
    if |allCtx| > 1 {
      var scorer := intentScorers[ALL];
      assert scorer in intentScorers.Values;
      scorer.Record(res.intent, ex.labels.intent);
      forall k | k in intentScorers && k != ALL
        ensures intentScorers[k] != scorer
      {
      }
    }

    ScoreTokens(res.slots, ex.utterance.tokens, slotScorer);
  }

  /** The loop over the test set. */
  method Evaluate(testSet: seq<TestExample>, allCtx: seq<string>, engine: Engine,
                  intentScorers: map<string, MultiClassF1Scorer>, slotScorer: MultiClassF1Scorer)
    requires Distinct(intentScorers) && slotScorer !in intentScorers.Values
    requires forall e, c :: e in testSet && c in e.ctxs ==> c in intentScorers
    requires |allCtx| > 1 ==> ALL in intentScorers
    modifies intentScorers.Values, slotScorer
    ensures forall k :: k in intentScorers ==>
      intentScorers[k].records == old(intentScorers[k].records) + IntentRecords(testSet, allCtx, engine, k)
    ensures slotScorer.records == old(slotScorer.records) + SlotRecords(testSet, allCtx, engine)
  {
    for n := 0 to |testSet|
      invariant forall k :: k in intentScorers ==>
        intentScorers[k].records == old(intentScorers[k].records) + IntentRecords(testSet[..n], allCtx, engine, k)
      invariant slotScorer.records == old(slotScorer.records) + SlotRecords(testSet[..n], allCtx, engine)
    {
      var ex := testSet[n];
      assert ex in testSet;
      label LoopHead:
      ScoreExample(ex, allCtx, engine, intentScorers, slotScorer);
      forall k | k in intentScorers
        ensures intentScorers[k].records == old(intentScorers[k].records) + IntentRecords(testSet[..n + 1], allCtx, engine, k)
      {
        IntentRecordsStep(old(intentScorers[k].records), old@LoopHead(intentScorers[k].records),
                          intentScorers[k].records, testSet, n, allCtx, engine, k);
      }
      SlotRecordsStep(old(slotScorer.records), old@LoopHead(slotScorer.records), slotScorer.records,
                      testSet, n, allCtx, engine);
    }
    assert testSet[..|testSet|] == testSet;
  }

  /** The first extracted slot covering a token gives its predicted tag; a
      token that no slot covers is predicted OUT, whatever its gold tag. */
  lemma PredictedTagIsFirstCovering(slots: seq<ExtractedSlot>, t: Token)
    ensures (forall j :: 0 <= j < |slots| ==> !Covers(slots[j], t)) ==> PredictedTag(slots, t) == OUT
    ensures forall j :: 0 <= j < |slots| && Covers(slots[j], t) && (forall m :: 0 <= m < j ==> !Covers(slots[m], t))
                        ==> PredictedTag(slots, t) == slots[j].name
  {
  }

  /** How often key occurs among the contexts of the test examples. */
  function ContextUses(testSet: seq<TestExample>, key: string): nat
    decreases |testSet|
  {
    if testSet == [] then 0
    else ContextUses(testSet[..|testSet| - 1], key) + multiset(testSet[|testSet| - 1].ctxs)[key]
  }

  /** The number of tokens in the test examples. */
  function TokenTotal(testSet: seq<TestExample>): nat
    decreases |testSet|
  {
    if testSet == [] then 0
    else TokenTotal(testSet[..|testSet| - 1]) + |testSet[|testSet| - 1].utterance.tokens|
  }

  /** Each test example adds one record to the scorer of each of its contexts
      (per occurrence), and one to ALL exactly when there are several contexts. */
  lemma {:induction false} IntentRecordsCount(testSet: seq<TestExample>, allCtx: seq<string>, engine: Engine, key: string)
    ensures |IntentRecords(testSet, allCtx, engine, key)|
         == ContextUses(testSet, key) + if |allCtx| > 1 && key == ALL then |testSet| else 0
    decreases |testSet|
  {
    if testSet != [] {
      var e := testSet[|testSet| - 1];
      IntentRecordsCount(testSet[..|testSet| - 1], allCtx, engine, key);
      CtxRecordsContent(e, e.ctxs, engine, key);
    }
  }

  /** Record p is one that test example e gives the scorer of key: the
      prediction restricted to the single context key, or, for ALL when there
      are several contexts, the prediction over all contexts; each against the
      gold intent of e. */
  predicate RecordOf(e: TestExample, p: Pair, allCtx: seq<string>, engine: Engine, key: string) {
    || (key in e.ctxs && p == Pair(engine(e.utterance.text, [key]).intent, e.labels.intent))
    || (|allCtx| > 1 && key == ALL && p == Pair(engine(e.utterance.text, allCtx).intent, e.labels.intent))
  }

  /** Every record of the scorer of key comes from one of the test examples. */
  lemma {:induction false} IntentRecordsContent(testSet: seq<TestExample>, allCtx: seq<string>, engine: Engine, key: string)
    ensures forall p :: p in IntentRecords(testSet, allCtx, engine, key) ==>
      exists e :: e in testSet && RecordOf(e, p, allCtx, engine, key)
    decreases |testSet|
  {
    if testSet != [] {
      var prefix := testSet[..|testSet| - 1];
      var e := testSet[|testSet| - 1];
      IntentRecordsContent(prefix, allCtx, engine, key);
      forall p | p in IntentRecords(testSet, allCtx, engine, key)
        ensures exists e' :: e' in testSet && RecordOf(e', p, allCtx, engine, key)
      {
        if p in IntentRecords(prefix, allCtx, engine, key) {
          var e' :| e' in prefix && RecordOf(e', p, allCtx, engine, key);
          assert e' in testSet;
        } else if p in CtxRecords(e, e.ctxs, engine, key) {
          CtxRecordsContent(e, e.ctxs, engine, key);
          assert multiset(e.ctxs)[key] > 0;
          assert RecordOf(e, p, allCtx, engine, key);
        } else {
          assert RecordOf(e, p, allCtx, engine, key);
        }
      }
    }
  }

  /** The slot scorer receives exactly one record per token of the test set. */
  lemma {:induction false} SlotRecordsCount(testSet: seq<TestExample>, allCtx: seq<string>, engine: Engine)
    ensures |SlotRecords(testSet, allCtx, engine)| == TokenTotal(testSet)
    decreases |testSet|
  {
    if testSet != [] {
      SlotRecordsCount(testSet[..|testSet| - 1], allCtx, engine);
    }
  }

  /** For an example labelled from its own tokens, the gold side of its slot
      records is exactly its labels.slots, and the predicted side the tag of
      the first covering slot. */
  lemma TokenRecordsMatchLabels(e: TestExample, slots: seq<ExtractedSlot>)
    requires |e.labels.slots| == |e.utterance.tokens|
    requires forall j :: 0 <= j < |e.labels.slots| ==> e.labels.slots[j] == GoldTag(e.utterance.tokens[j])
    ensures |TokenRecords(slots, e.utterance.tokens)| == |e.labels.slots|
    ensures forall j :: 0 <= j < |e.labels.slots| ==>
      TokenRecords(slots, e.utterance.tokens)[j] == Pair(PredictedTag(slots, e.utterance.tokens[j]), e.labels.slots[j])
  {
  }

  /** An engine that always predicts the gold intent of the test examples
      makes every intent scorer record only agreeing pairs. */
  lemma CorrectPredictionsAgree(testSet: seq<TestExample>, allCtx: seq<string>, engine: Engine, key: string)
    requires forall e, cs :: e in testSet ==> engine(e.utterance.text, cs).intent == e.labels.intent
    ensures forall p :: p in IntentRecords(testSet, allCtx, engine, key) ==> p.predicted == p.actual
  {
    IntentRecordsContent(testSet, allCtx, engine, key);
  }

  /** Every slot record pairs, for some token of some test example, the tag
      predicted over all contexts with the token's gold tag. */
  lemma {:induction false} SlotRecordsContent(testSet: seq<TestExample>, allCtx: seq<string>, engine: Engine)
    ensures forall p :: p in SlotRecords(testSet, allCtx, engine) ==>
      exists e, j :: e in testSet && 0 <= j < |e.utterance.tokens|
        && p == Pair(PredictedTag(engine(e.utterance.text, allCtx).slots, e.utterance.tokens[j]), GoldTag(e.utterance.tokens[j]))
    decreases |testSet|
  {
    if testSet != [] {
      var prefix := testSet[..|testSet| - 1];
      var e := testSet[|testSet| - 1];
      SlotRecordsContent(prefix, allCtx, engine);
      var slots := engine(e.utterance.text, allCtx).slots;
      forall p | p in SlotRecords(testSet, allCtx, engine)
        ensures exists e', j :: (e' in testSet && 0 <= j < |e'.utterance.tokens|
          && p == Pair(PredictedTag(engine(e'.utterance.text, allCtx).slots, e'.utterance.tokens[j]), GoldTag(e'.utterance.tokens[j])))
      {
        if p in SlotRecords(prefix, allCtx, engine) {
          var e', j :| e' in prefix && 0 <= j < |e'.utterance.tokens|
            && p == Pair(PredictedTag(engine(e'.utterance.text, allCtx).slots, e'.utterance.tokens[j]), GoldTag(e'.utterance.tokens[j]));
          assert e' in testSet;
        } else {
          var j :| 0 <= j < |TokenRecords(slots, e.utterance.tokens)| && TokenRecords(slots, e.utterance.tokens)[j] == p;
          assert e in testSet;
        }
      }
    }
  }
}
