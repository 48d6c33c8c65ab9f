/** The stratified train/test split (splitSet): per intent, shuffle its pool of
    utterances for the language, keep the first 80% for training and turn the
    rest into test examples; intents with fewer than three training utterances
    are dropped. */
module Splitter {
  import opened NluTypes
  import opened TestSet

  /** TRAIN_SET_SIZE: the fraction of each pool used for training. */
  const TRAIN_SET_SIZE: real := 0.8

  /** Intents with fewer training utterances than this are dropped. */
  const MIN_TRAIN: nat := 3

  /** Math.floor(TRAIN_SET_SIZE * n), computed exactly as (4 * n) / 5. */
  function TrainCount(n: nat): (r: nat)
    ensures r as real <= TRAIN_SET_SIZE * n as real < r as real + 1.0
    ensures r <= n
  {
    (4 * n) / 5
  }

  /** The seeded shuffle: its k-th argument is the position of the intent in
      the input, so every intent may be permuted differently. */
  type Shuffle = (nat, seq<string>) -> seq<string>

  /** The shuffle only reorders its input. */
  ghost predicate IsShuffle(shuffle: Shuffle) {
    forall k, s :: multiset(shuffle(k, s)) == multiset(s)
  }

  /** An intent that survives the split: its pool for the language exists and
      yields at least MIN_TRAIN training utterances. */
  predicate IsKept(language: string, i: Intent) {
    language in i.utterances && TrainCount(|i.utterances[language]|) >= MIN_TRAIN
  }

  /** The train-set entry of a kept intent: the intent with its utterances
      replaced by the training slice of its shuffled pool, under the language only. */
  function TrainEntry(language: string, k: nat, i: Intent, shuffle: Shuffle): Intent
    requires language in i.utterances
  {
    var pool := i.utterances[language];
    i.(utterances := map[language := Take(shuffle(k, pool), TrainCount(|pool|))])
  }

  /** The test examples of a kept intent: the rest of its shuffled pool. */
  function TestPart(language: string, k: nat, i: Intent, shuffle: Shuffle, tokenize: Tokenizer): seq<TestExample>
    requires language in i.utterances
  {
    var pool := i.utterances[language];
    MakeIntentTestSet(Drop(shuffle(k, pool), TrainCount(|pool|)), i.contexts, i.name, tokenize)
  }

  datatype IntentSplit = Dropped | Kept(entry: Intent, test: seq<TestExample>)

  /** What the split does with the intent at position k. Reading the pool of a
      language the intent does not have fails. */
  function SplitIntent(language: string, k: nat, i: Intent, shuffle: Shuffle, tokenize: Tokenizer): Result<IntentSplit>
  {
    if language !in i.utterances then Err(MissingLanguage(i.name))
    else if !IsKept(language, i) then Ok(Dropped)
    else Ok(Kept(TrainEntry(language, k, i, shuffle), TestPart(language, k, i, shuffle, tokenize)))
  }

  datatype SplitResult = SplitResult(train: seq<Intent>, test: seq<TestExample>)

  /** Add the outcome for one more intent to the split of the intents before it. */
  function Extend(acc: Result<SplitResult>, next: Result<IntentSplit>): Result<SplitResult> {
    match acc
    case Err(e) => Err(e)
    case Ok(s) =>
      match next
      case Err(e) => Err(e)
      case Ok(Dropped) => Ok(s)
      case Ok(Kept(entry, test)) => Ok(SplitResult(s.train + [entry], s.test + test))
  }

  /** The split of a whole intent list, intent after intent: train entries in
      input order, test examples concatenated. */
  function Split(language: string, intents: seq<Intent>, shuffle: Shuffle, tokenize: Tokenizer): Result<SplitResult>
    decreases |intents|
  {
    if intents == [] then Ok(SplitResult([], []))
    else
      var k := |intents| - 1;
      Extend(Split(language, intents[..k], shuffle, tokenize), SplitIntent(language, k, intents[k], shuffle, tokenize))
  }

  lemma SplitStep(language: string, intents: seq<Intent>, k: nat, shuffle: Shuffle, tokenize: Tokenizer)
    requires k < |intents|
    ensures Split(language, intents[..k + 1], shuffle, tokenize)
         == Extend(Split(language, intents[..k], shuffle, tokenize), SplitIntent(language, k, intents[k], shuffle, tokenize))
  {
    assert intents[..k + 1][..k] == intents[..k];
  }

  /** splitSet: one pass over the intents accumulating the train set and the test set. */
  method SplitSet(language: string, intents: seq<Intent>, shuffle: Shuffle, tokenize: Tokenizer)
    returns (r: Result<SplitResult>)
    ensures r == Split(language, intents, shuffle, tokenize)
  {
    var testSet: seq<TestExample> := [];
    var trainSet: seq<Intent> := [];
    for k := 0 to |intents|
      invariant Split(language, intents[..k], shuffle, tokenize) == Ok(SplitResult(trainSet, testSet))
    {
      SplitStep(language, intents, k, shuffle, tokenize);
      var i := intents[k];
      if language !in i.utterances {
        r := Err(MissingLanguage(i.name));
        SplitErrorPersists(language, intents, k + 1, shuffle, tokenize);
        return;
      }
      var nTrain := TrainCount(|i.utterances[language]|);
      if nTrain < MIN_TRAIN {
        continue;
      }
      var utterances := shuffle(k, i.utterances[language]);
      var trainUtts := Take(utterances, nTrain);
      var iTestSet := MakeIntentTestSet(Drop(utterances, nTrain), i.contexts, i.name, tokenize);
      testSet := testSet + iTestSet;
      trainSet := trainSet + [i.(utterances := map[language := trainUtts])];
    }
    assert intents[..|intents|] == intents;
    r := Ok(SplitResult(trainSet, testSet));
  }

  /** Once a prefix of the intents fails, the whole split fails the same way. */
  lemma {:induction false} SplitErrorPersists(language: string, intents: seq<Intent>, n: nat, shuffle: Shuffle, tokenize: Tokenizer)
    requires 0 < n <= |intents|
    requires Split(language, intents[..n], shuffle, tokenize).Err?
    ensures Split(language, intents, shuffle, tokenize) == Split(language, intents[..n], shuffle, tokenize)
    decreases |intents|
  {
    if n == |intents| {
      assert intents[..n] == intents;
    } else {
      var k := |intents| - 1;
      assert intents[..k][..n] == intents[..n];
      SplitErrorPersists(language, intents[..k], n, shuffle, tokenize);
    }
  }

  /** The split succeeds exactly when every intent has a pool for the language. */
  lemma {:induction false} SplitOkIffLanguagePresent(language: string, intents: seq<Intent>, shuffle: Shuffle, tokenize: Tokenizer)
    ensures Split(language, intents, shuffle, tokenize).Ok?
        <==> forall k :: 0 <= k < |intents| ==> language in intents[k].utterances
    decreases |intents|
  {
    if intents != [] {
      var k := |intents| - 1;
      var prefix := intents[..k];
      SplitOkIffLanguagePresent(language, prefix, shuffle, tokenize);
      assert forall j :: 0 <= j < k ==> prefix[j] == intents[j];
    }
  }

  /** A failed split reports the first intent that has no pool for the language. */
  lemma {:induction false} SplitErrorNamesFirstMissing(language: string, intents: seq<Intent>, shuffle: Shuffle, tokenize: Tokenizer)
    ensures Split(language, intents, shuffle, tokenize).Err? ==>
      exists k :: 0 <= k < |intents| && language !in intents[k].utterances
        && (forall j :: 0 <= j < k ==> language in intents[j].utterances)
        && Split(language, intents, shuffle, tokenize).error == MissingLanguage(intents[k].name)
    decreases |intents|
  {
    if intents != [] {
      var k := |intents| - 1;
      var prefix := intents[..k];
      var r := Split(language, intents, shuffle, tokenize);
      var acc := Split(language, prefix, shuffle, tokenize);
      if acc.Err? {
        SplitErrorNamesFirstMissing(language, prefix, shuffle, tokenize);
        var k' :| 0 <= k' < |prefix| && language !in prefix[k'].utterances
          && (forall j :: 0 <= j < k' ==> language in prefix[j].utterances)
          && acc.error == MissingLanguage(prefix[k'].name);
        assert forall j :: 0 <= j <= k' ==> prefix[j] == intents[j];
        assert r == acc;
      } else if language !in intents[k].utterances {
        SplitOkIffLanguagePresent(language, prefix, shuffle, tokenize);
        assert forall j :: 0 <= j < k ==> prefix[j] == intents[j];
        assert r == Err(MissingLanguage(intents[k].name));
      }
    }
  }

  /** The positions of the kept intents, in increasing order. */
  function KeptIndices(language: string, intents: seq<Intent>): (r: seq<nat>)
    ensures forall j :: 0 <= j < |r| ==> r[j] < |intents| && IsKept(language, intents[r[j]])
    ensures forall j1, j2 :: 0 <= j1 < j2 < |r| ==> r[j1] < r[j2]
    ensures forall k :: 0 <= k < |intents| && IsKept(language, intents[k]) ==> k in r
    decreases |intents|
  {
    if intents == [] then []
    else
      var k := |intents| - 1;
      KeptIndices(language, intents[..k]) + (if IsKept(language, intents[k]) then [k] else [])
  }

  /** The number of test examples the kept intents contribute, |pool| - nTrain each. */
  function TestCount(language: string, intents: seq<Intent>): nat
    decreases |intents|
  {
    if intents == [] then 0
    else
      var k := |intents| - 1;
      var i := intents[k];
      TestCount(language, intents[..k])
        + if IsKept(language, i) then |i.utterances[language]| - TrainCount(|i.utterances[language]|) else 0
  }

  /** train holds, in order, the train entries of the kept intents at the positions in kept. */
  ghost predicate TrainEntriesOf(language: string, intents: seq<Intent>, shuffle: Shuffle,
                                 train: seq<Intent>, kept: seq<nat>)
  {
    && |train| == |kept|
    && forall j :: 0 <= j < |kept| ==>
         kept[j] < |intents| && IsKept(language, intents[kept[j]])
         && train[j] == TrainEntry(language, kept[j], intents[kept[j]], shuffle)
  }

  lemma TrainEntriesStep(language: string, intents: seq<Intent>, k: nat, shuffle: Shuffle,
                         before: seq<Intent>, keptBefore: seq<nat>, train: seq<Intent>, kept: seq<nat>)
    requires k < |intents|
    requires TrainEntriesOf(language, intents[..k], shuffle, before, keptBefore)
    requires IsKept(language, intents[k]) ==>
               train == before + [TrainEntry(language, k, intents[k], shuffle)] && kept == keptBefore + [k]
    requires !IsKept(language, intents[k]) ==> train == before && kept == keptBefore
    ensures TrainEntriesOf(language, intents, shuffle, train, kept)
  {
  }

  /** The train set holds one entry per kept intent, in input order, and
      nothing for the dropped ones. */
  lemma {:induction false} SplitTrainSetKeepsOrder(language: string, intents: seq<Intent>, shuffle: Shuffle, tokenize: Tokenizer)
    requires Split(language, intents, shuffle, tokenize).Ok?
    ensures TrainEntriesOf(language, intents, shuffle,
                           Split(language, intents, shuffle, tokenize).value.train, KeptIndices(language, intents))
    decreases |intents|
  {
    if intents != [] {
      var k := |intents| - 1;
      var prefix := intents[..k];
      SplitTrainSetKeepsOrder(language, prefix, shuffle, tokenize);
      TrainEntriesStep(language, intents, k, shuffle,
                       Split(language, prefix, shuffle, tokenize).value.train, KeptIndices(language, prefix),
                       Split(language, intents, shuffle, tokenize).value.train, KeptIndices(language, intents));
    }
  }

  /** The test parts of the kept intents, in input order. Unlike Split, this
      ignores the train set and treats an intent without a pool for the
      language as dropped. */
  function KeptTestParts(language: string, intents: seq<Intent>, shuffle: Shuffle, tokenize: Tokenizer): seq<TestExample>
    decreases |intents|
  {
    if intents == [] then []
    else
      var k := |intents| - 1;
      KeptTestParts(language, intents[..k], shuffle, tokenize)
        + if IsKept(language, intents[k]) then TestPart(language, k, intents[k], shuffle, tokenize) else []
  }

  /** One more intent adds its test part to the test set, if it is kept. */
  lemma SplitTestStep(language: string, intents: seq<Intent>, shuffle: Shuffle, tokenize: Tokenizer)
    requires intents != []
    requires Split(language, intents, shuffle, tokenize).Ok?
    ensures var k := |intents| - 1;
            && Split(language, intents[..k], shuffle, tokenize).Ok?
            && Split(language, intents, shuffle, tokenize).value.test
            == Split(language, intents[..k], shuffle, tokenize).value.test
               + (if IsKept(language, intents[k]) then TestPart(language, k, intents[k], shuffle, tokenize) else [])
  {
  }

  /** The test set is the test part of each kept intent, in input order: the
      tokenized held-out utterances of that intent, labelled with its name and
      contexts. Dropped intents contribute nothing. */
  lemma {:induction false} SplitTestSetIsKeptTestParts(language: string, intents: seq<Intent>, shuffle: Shuffle, tokenize: Tokenizer)
    requires Split(language, intents, shuffle, tokenize).Ok?
    ensures Split(language, intents, shuffle, tokenize).value.test == KeptTestParts(language, intents, shuffle, tokenize)
    decreases |intents|
  {
    if intents != [] {
      var k := |intents| - 1;
      SplitTestStep(language, intents, shuffle, tokenize);
      SplitTestSetIsKeptTestParts(language, intents[..k], shuffle, tokenize);
    }
  }

  /** Every test example comes from a kept intent: it is the tokenized form of
      one of that intent's held-out utterances, and it carries that intent's
      name and contexts and one gold tag per token. */
  lemma {:induction false} SplitTestSetFromKept(language: string, intents: seq<Intent>, shuffle: Shuffle, tokenize: Tokenizer)
    requires Split(language, intents, shuffle, tokenize).Ok?
    ensures forall e :: e in Split(language, intents, shuffle, tokenize).value.test ==>
              exists k :: 0 <= k < |intents| && IsKept(language, intents[k])
                && HeldOutOf(language, k, intents[k], shuffle, tokenize, e)
    decreases |intents|
  {
    if intents != [] {
      var k := |intents| - 1;
      var prefix := intents[..k];
      SplitTestStep(language, intents, shuffle, tokenize);
      SplitTestSetFromKept(language, prefix, shuffle, tokenize);
      var i := intents[k];
      var acc := Split(language, prefix, shuffle, tokenize).value.test;
      if IsKept(language, i) {
        TestPartHeldOut(language, k, i, shuffle, tokenize);
      }
      forall e | e in Split(language, intents, shuffle, tokenize).value.test
        ensures exists k' :: 0 <= k' < |intents| && IsKept(language, intents[k'])
                  && HeldOutOf(language, k', intents[k'], shuffle, tokenize, e)
      {
        if e in acc {
          var k' :| 0 <= k' < |prefix| && IsKept(language, prefix[k'])
                    && HeldOutOf(language, k', prefix[k'], shuffle, tokenize, e);
          assert intents[k'] == prefix[k'];
        } else {
          assert HeldOutOf(language, k, i, shuffle, tokenize, e);
        }
      }
    }
  }

  /** Every example of a kept intent's test part is one of its held-out
      utterances, labelled for it. */
  lemma TestPartHeldOut(language: string, k: nat, i: Intent, shuffle: Shuffle, tokenize: Tokenizer)
    requires IsKept(language, i)
    ensures forall e :: e in TestPart(language, k, i, shuffle, tokenize) ==> HeldOutOf(language, k, i, shuffle, tokenize, e)
  {
    var part := TestPart(language, k, i, shuffle, tokenize);
    forall e | e in part
      ensures HeldOutOf(language, k, i, shuffle, tokenize, e)
    {
      var j :| 0 <= j < |part| && part[j] == e;
    }
  }

  /** The slot labels of every test example are the gold tags of its own tokens. */
  lemma SplitTestLabelsFromTokens(language: string, intents: seq<Intent>, shuffle: Shuffle, tokenize: Tokenizer)
    requires Split(language, intents, shuffle, tokenize).Ok?
    ensures forall e :: e in Split(language, intents, shuffle, tokenize).value.test ==>
              |e.labels.slots| == |e.utterance.tokens|
              && forall j :: 0 <= j < |e.labels.slots| ==> e.labels.slots[j] == GoldTag(e.utterance.tokens[j])
  {
    SplitTestSetFromKept(language, intents, shuffle, tokenize);
    forall e | e in Split(language, intents, shuffle, tokenize).value.test
      ensures |e.labels.slots| == |e.utterance.tokens|
      ensures forall j :: 0 <= j < |e.labels.slots| ==> e.labels.slots[j] == GoldTag(e.utterance.tokens[j])
    {
      var k :| 0 <= k < |intents| && IsKept(language, intents[k])
               && HeldOutOf(language, k, intents[k], shuffle, tokenize, e);
    }
  }

  /** Test example e is built from one of the held-out utterances of intent i
      (at position k) and labelled for i. */
  predicate HeldOutOf(language: string, k: nat, i: Intent, shuffle: Shuffle, tokenize: Tokenizer, e: TestExample)
    requires language in i.utterances
  {
    var pool := i.utterances[language];
    var rest := Drop(shuffle(k, pool), TrainCount(|pool|));
    && (exists j :: 0 <= j < |rest| && e.utterance == tokenize(rest[j]))
    && LabelledFor(e, i.contexts, i.name)
  }

  /** The kept intents contribute |pool| - nTrain test examples each, the
      dropped ones none. */
  lemma {:induction false} SplitTestSetSize(language: string, intents: seq<Intent>, shuffle: Shuffle, tokenize: Tokenizer)
    requires IsShuffle(shuffle)
    requires Split(language, intents, shuffle, tokenize).Ok?
    ensures |Split(language, intents, shuffle, tokenize).value.test| == TestCount(language, intents)
    decreases |intents|
  {
    if intents != [] {
      var k := |intents| - 1;
      SplitTestSetSize(language, intents[..k], shuffle, tokenize);
      if IsKept(language, intents[k]) {
        KeptIntentSlices(language, k, intents[k], shuffle, tokenize);
      }
    }
  }

  /** For a kept intent, the training slice has nTrain utterances, the test
      part |pool| - nTrain >= 1 examples, the two slices together are a
      permutation of the pool, and every other field of the intent is kept. */
  lemma KeptIntentSlices(language: string, k: nat, i: Intent, shuffle: Shuffle, tokenize: Tokenizer)
    requires IsShuffle(shuffle)
    requires IsKept(language, i)
    ensures var pool := i.utterances[language];
            var nTrain := TrainCount(|pool|);
            var entry := TrainEntry(language, k, i, shuffle);
            var rest := Drop(shuffle(k, pool), nTrain);
            && entry.name == i.name && entry.contexts == i.contexts
            && entry.slots == i.slots && entry.filename == i.filename
            && entry.utterances.Keys == {language}
            && |entry.utterances[language]| == nTrain
            && multiset(entry.utterances[language]) + multiset(rest) == multiset(pool)
            && |TestPart(language, k, i, shuffle, tokenize)| == |pool| - nTrain >= 1
  {
    var pool := i.utterances[language];
    var s := shuffle(k, pool);
    var nTrain := TrainCount(|pool|);
    assert |s| == |multiset(s)| == |multiset(pool)| == |pool|;
    assert Take(s, nTrain) + Drop(s, nTrain) == s;
  }

  /** An intent is kept exactly when its pool has at least four utterances. */
  lemma KeptIffPoolAtLeastFour(language: string, i: Intent)
    requires language in i.utterances
    ensures IsKept(language, i) <==> |i.utterances[language]| >= 4
  {
    var n := |i.utterances[language]|;
    if n >= 4 {
      assert 4 * n >= 16;
      assert TrainCount(n) >= 3;
    } else {
      assert 4 * n < 15;
    }
  }
}
