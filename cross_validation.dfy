/** crossValidate: split the intents, train the engine on the train set, and
    score its predictions on the test set per context and per token. */
module CrossValidation {
  import opened NluTypes
  import opened TestSet
  import opened Splitter
  import opened Contexts
  import opened F1Scorer
  import opened Evaluation

  /** What each scorer recorded: per scorer key for intents, and for slots.
      The F1 summaries are computed from these records. */
  datatype CrossValidationResults = CrossValidationResults(intents: map<string, seq<Pair>>, slots: seq<Pair>)

  /** engine.train: the engine that training on a train set produces. */
  type Trainer = seq<Intent> -> Engine

  /** The outcome of a cross-validation run. */
  function CrossValidation(intents: seq<Intent>, language: string, shuffle: Shuffle, tokenize: Tokenizer, train: Trainer)
    : Result<CrossValidationResults>
  {
    match Split(language, intents, shuffle, tokenize)
    case Err(e) => Err(e)
    case Ok(s) => Ok(Scores(s.test, AllContexts(intents), train(s.train)))
  }

  /** What the scorers hold after the evaluation loop over a test set. */
  function Scores(testSet: seq<TestExample>, allCtx: seq<string>, engine: Engine): CrossValidationResults {
    CrossValidationResults(
      map k | k in ScorerKeys(allCtx) :: IntentRecords(testSet, allCtx, engine, k),
      SlotRecords(testSet, allCtx, engine))
  }

  /** The reduce that builds one fresh scorer per key; a repeated key gets the
      scorer created last. */
  method MakeScorers(keys: seq<string>) returns (byCtx: map<string, MultiClassF1Scorer>)
    ensures forall k :: k in byCtx <==> k in keys
    ensures Distinct(byCtx)
    ensures forall k :: k in byCtx ==> fresh(byCtx[k]) && byCtx[k].records == []
  {
    byCtx := map[];
    for j := 0 to |keys|
      invariant forall k :: k in byCtx <==> k in keys[..j]
      invariant Distinct(byCtx)
      invariant forall k :: k in byCtx ==> fresh(byCtx[k]) && byCtx[k].records == []
    {
      assert keys[..j + 1] == keys[..j] + [keys[j]];
      var scorer := new MultiClassF1Scorer();
      byCtx := byCtx[keys[j] := scorer];
    }
    assert keys[..|keys|] == keys;
  }

  /** Every context of every test example is a context of some intent, so the
      lookup of its scorer never misses. */
  lemma TestContextsCovered(language: string, intents: seq<Intent>, shuffle: Shuffle, tokenize: Tokenizer)
    requires Split(language, intents, shuffle, tokenize).Ok?
    ensures forall e, c :: e in Split(language, intents, shuffle, tokenize).value.test && c in e.ctxs ==>
              c in AllContexts(intents) && c in ScorerKeys(AllContexts(intents))
  {
    SplitTestSetFromKept(language, intents, shuffle, tokenize);
    AllContextsIsContextSet(intents);
    forall e, c | e in Split(language, intents, shuffle, tokenize).value.test && c in e.ctxs
      ensures c in ContextSet(intents)
    {
      var k :| 0 <= k < |intents| && IsKept(language, intents[k])
               && HeldOutOf(language, k, intents[k], shuffle, tokenize, e);
      assert c in intents[k].contexts;
    }
  }

  /** A map holding IntentRecords under exactly the given keys is the map
      comprehension over those keys. */
  lemma CollectedScores(results: map<string, seq<Pair>>, keys: seq<string>,
                        testSet: seq<TestExample>, allCtx: seq<string>, engine: Engine)
    requires forall k :: k in results <==> k in keys
    requires forall k :: k in results ==> results[k] == IntentRecords(testSet, allCtx, engine, k)
    ensures results == map k | k in keys :: IntentRecords(testSet, allCtx, engine, k)
  {
  }

  /** Create the scorers and run the evaluation loop over the test set. */
  method RunScorers(testSet: seq<TestExample>, allCtx: seq<string>, engine: Engine)
    returns (intentF1Scorers: map<string, MultiClassF1Scorer>, slotsF1Scorer: MultiClassF1Scorer)
    requires forall e, c :: e in testSet && c in e.ctxs ==> c in ScorerKeys(allCtx)
    ensures forall k :: k in intentF1Scorers <==> k in ScorerKeys(allCtx)
    ensures forall k :: k in intentF1Scorers ==>
              intentF1Scorers[k].records == IntentRecords(testSet, allCtx, engine, k)
    ensures slotsF1Scorer.records == SlotRecords(testSet, allCtx, engine)
  {
    var keys := ScorerKeys(allCtx);
    intentF1Scorers := MakeScorers(keys);
    slotsF1Scorer := new MultiClassF1Scorer();
    assert |allCtx| > 1 ==> ALL in keys;
    Evaluate(testSet, allCtx, engine, intentF1Scorers, slotsF1Scorer);
    forall k | k in intentF1Scorers
      ensures [] + IntentRecords(testSet, allCtx, engine, k) == IntentRecords(testSet, allCtx, engine, k)
    {
    }
    assert [] + SlotRecords(testSet, allCtx, engine) == SlotRecords(testSet, allCtx, engine);
  }

  /** Create the scorers, run the evaluation loop and collect what each
      scorer recorded. */
  method Score(testSet: seq<TestExample>, allCtx: seq<string>, engine: Engine) returns (res: CrossValidationResults)
    requires forall e, c :: e in testSet && c in e.ctxs ==> c in ScorerKeys(allCtx)
    ensures res == Scores(testSet, allCtx, engine)
  {
    var intentF1Scorers, slotsF1Scorer := RunScorers(testSet, allCtx, engine);
    var results := map k | k in intentF1Scorers :: intentF1Scorers[k].records;
    CollectedScores(results, ScorerKeys(allCtx), testSet, allCtx, engine);
    res := CrossValidationResults(results, slotsF1Scorer.records);
  }

  /** crossValidate. */
  method CrossValidate(intents: seq<Intent>, language: string, shuffle: Shuffle, tokenize: Tokenizer, train: Trainer)
    returns (r: Result<CrossValidationResults>)
    ensures r == CrossValidation(intents, language, shuffle, tokenize, train)
  {
    var split := SplitSet(language, intents, shuffle, tokenize);
    if split.Err? {
      return Err(split.error);
    }
    var trainSet, testSet := split.value.train, split.value.test;
    var engine := train(trainSet);

    var allCtx := AllContexts(intents);
    TestContextsCovered(language, intents, shuffle, tokenize);
    var res := Score(testSet, allCtx, engine);
    r := Ok(res);
  }

  /** The intent results are keyed by exactly the intents' contexts, plus ALL
      if and only if there is more than one distinct context. */
  lemma ResultKeys(intents: seq<Intent>, language: string, shuffle: Shuffle, tokenize: Tokenizer, train: Trainer)
    requires CrossValidation(intents, language, shuffle, tokenize, train).Ok?
    ensures CrossValidation(intents, language, shuffle, tokenize, train).value.intents.Keys
         == ContextSet(intents) + (if SeveralContexts(intents) then {ALL} else {})
  {
    ScorerKeySet(intents);
  }

  /** Each test example adds one record per occurrence of a context to that
      context's results, and one to ALL exactly when there are several
      contexts. */
  lemma ResultIntentCounts(intents: seq<Intent>, language: string, shuffle: Shuffle, tokenize: Tokenizer, train: Trainer)
    requires CrossValidation(intents, language, shuffle, tokenize, train).Ok?
    ensures var results := CrossValidation(intents, language, shuffle, tokenize, train).value.intents;
            var test := Split(language, intents, shuffle, tokenize).value.test;
            forall k :: k in results ==>
              |results[k]| == ContextUses(test, k) + if SeveralContexts(intents) && k == ALL then |test| else 0
  {
    SeveralIffMoreThanOne(intents);
    var s := Split(language, intents, shuffle, tokenize).value;
    var allCtx := AllContexts(intents);
    forall k | k in ScorerKeys(allCtx)
      ensures |IntentRecords(s.test, allCtx, train(s.train), k)|
           == ContextUses(s.test, k) + if SeveralContexts(intents) && k == ALL then |s.test| else 0
    {
      IntentRecordsCount(s.test, allCtx, train(s.train), k);
    }
  }

  /** The slot results hold one record per token of the test set; each pairs
      the tag predicted over all contexts with the gold tag of the example's
      labels for that token. */
  lemma ResultSlots(intents: seq<Intent>, language: string, shuffle: Shuffle, tokenize: Tokenizer, train: Trainer)
    requires CrossValidation(intents, language, shuffle, tokenize, train).Ok?
    ensures var slots := CrossValidation(intents, language, shuffle, tokenize, train).value.slots;
            var test := Split(language, intents, shuffle, tokenize).value.test;
            var engine := train(Split(language, intents, shuffle, tokenize).value.train);
            && |slots| == TokenTotal(test)
            && forall p :: p in slots ==>
                 exists e, j :: e in test && 0 <= j < |e.labels.slots| == |e.utterance.tokens|
                   && p == Pair(PredictedTag(engine(e.utterance.text, AllContexts(intents)).slots, e.utterance.tokens[j]),
                                e.labels.slots[j])
  {
    var s := Split(language, intents, shuffle, tokenize).value;
    var allCtx := AllContexts(intents);
    var engine := train(s.train);
    SlotRecordsCount(s.test, allCtx, engine);
    SlotRecordsContent(s.test, allCtx, engine);
    SplitTestLabelsFromTokens(language, intents, shuffle, tokenize);
    forall p | p in SlotRecords(s.test, allCtx, engine)
      ensures exists e, j :: e in s.test && 0 <= j < |e.labels.slots| == |e.utterance.tokens|
                && p == Pair(PredictedTag(engine(e.utterance.text, allCtx).slots, e.utterance.tokens[j]), e.labels.slots[j])
    {
      var e, j :| e in s.test && 0 <= j < |e.utterance.tokens|
        && p == Pair(PredictedTag(engine(e.utterance.text, allCtx).slots, e.utterance.tokens[j]), GoldTag(e.utterance.tokens[j]));
      assert e.labels.slots[j] == GoldTag(e.utterance.tokens[j]);
    }
  }
}
