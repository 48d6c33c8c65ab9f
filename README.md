# Cross-validation of the NLU engine, modelled in Dafny

This project models the cross-validation harness of the botpress NLU module
(`modules/nlu/src/backend/cross-validation.ts`). The harness measures how well
the intent classifier and the slot tagger do on held-out data. It works in four
steps:

- **Split.** For each intent it takes the pool of example utterances for the
  language and computes `nTrain = floor(0.8 * |pool|)`. An intent with
  `nTrain < 3` is dropped. Otherwise the pool is shuffled. The first `nTrain`
  utterances stay as training data. The rest become test examples.
- **Build test examples.** Each test example carries the tokenized utterance,
  the intent's contexts and gold labels: the intent name, and one tag per token
  (the token's first slot name, or `BIO.OUT`).
- **Set up scorers.** The context universe is the deduplicated list of all
  intents' contexts. There is one intent scorer per context, plus a synthetic
  `"all"` scorer when there is more than one context. One more scorer is for
  slots.
- **Evaluate.** Each test example is predicted once per context, restricted to
  that context, and the result is recorded in that context's scorer. It is
  predicted once more over all contexts. That prediction goes to `"all"`, but
  only when there are several contexts. Its extracted slots are also aligned
  with the tokens: a token's predicted tag is the name of the first slot whose
  `[start, end]` covers `[offset, offset + length]`, else `BIO.OUT`.

Modules, one per component:

- `NluTypes` (`nlu_types.dfy`): the value types, the `OUT` and `ALL` constants,
  and JavaScript's clamping `slice` as `Take`/`Drop`.
- `TestSet` (`test_set.dfy`): `makeIntentTestSet` and the gold tag of a token.
- `Splitter` (`split.dfy`): `splitSet`. `Split` is its specification, intent
  by intent. `SplitSet` is the loop, proved equal to it. Lemmas state the
  properties of `Split`.
- `Contexts` (`contexts.dfy`): the context universe (`flatMap` + `uniq`) and
  the scorer keys.
- `F1Scorer` (`scorer.dfy`): the scorer as a class whose `records` field is the
  log of recorded `(predicted, actual)` pairs.
- `Evaluation` (`evaluation.dfy`): slot alignment and the nested evaluation
  loops. These are methods over a `map` from key to scorer object. They are
  proved against the functions `IntentRecords` and `SlotRecords`.
- `CrossValidation` (`cross_validation.dfy`): `crossValidate` as a method,
  proved equal to the function `CrossValidation`, with lemmas about its result.

Assumptions and abstractions:

- `Math.floor(0.8 * n)` is the integer `(4 * n) / 5` (`TrainCount`). Its
  contract states the real-number floor relation
  `r <= 0.8 * n < r + 1`. This matches the double computation for every pool
  size the program can hold. The double nearest to 0.8 lies slightly above 4/5.
  So `0.8 * n` never rounds below an integer that `4n/5` reaches.
- The seeded shuffle is an arbitrary function `shuffle(k, pool)`, where `k` is
  the intent's position in the input. Only the lemmas that need it assume that
  it permutes its input (`IsShuffle`).
- The tokenizer is a function from a raw text to an utterance (tokens with
  `offset`, `value` and `slots`). The engine is a function `train` from the
  train set to a `predict` function `(text, contexts) -> (intent, slots)`.
- `_.values(res.slots)` is taken as a sequence of extracted slots, in the
  engine's order.
- `i.utterances[language].length` throws when an intent has no pool for the
  language. The model returns `Err(MissingLanguage(name))`, naming the first
  such intent.
- The result of a run holds, per scorer key, the pairs that scorer recorded,
  and the slot scorer's pairs. The F1 summaries are computed from these pairs.

Behaviour of the code that the model keeps:

- The prediction over all contexts is made for every example, even when there
  is only one context. The slot alignment always uses it.
- `nTrain` is computed before shuffling, and only kept intents are shuffled.
- Scorer keys are plain strings. A real context named `"all"` shares the
  synthetic scorer when there are several contexts. The record-count lemmas
  cover this case: that scorer gets both kinds of records.
- Contexts are lists and may repeat. A repeated context records once per
  occurrence.
- The drop threshold is a pool of fewer than 4 utterances
  (`KeptIffPoolAtLeastFour`).

## Model

| member | source | states |
|---|---|---|
| NluTypes.Take | modules/nlu/src/backend/cross-validation.ts:52 | `slice(0, n)` keeps the first `min(n, |s|)` elements: a prefix of `s` of that length |
| NluTypes.Drop | modules/nlu/src/backend/cross-validation.ts:53 | `slice(n)` is what follows: its length is `|s| - n` (or 0), and `Take(s, n) + Drop(s, n) == s` |
| TestSet.GoldTags | modules/nlu/src/backend/cross-validation.ts:36 | one gold tag per token, each the token's first slot name or `OUT` |
| TestSet.GoldTag | modules/nlu/src/backend/cross-validation.ts:36 | `_.get(t, 'slots.0.name', BIO.OUT)`: the first slot's name, or `OUT`. `GoldTagIsFirstSlotOrOut` states when it is `OUT` |
| TestSet.MakeIntentTestSet | modules/nlu/src/backend/cross-validation.ts:29-39 | one example per raw text, in order. Each holds the tokenized text, exactly the given contexts and intent name, and one gold tag per token |
| TestSet.GoldTagIsFirstSlotOrOut | modules/nlu/src/backend/cross-validation.ts:36 | the gold tag is `OUT` or the first slot's name. When no slot is named `OUT`, it is `OUT` exactly for tokens without slots |
| Splitter.TrainCount | modules/nlu/src/backend/cross-validation.ts:27-46 | `nTrain` is the floor of `0.8 * n`: `r <= 0.8n < r + 1`, and `r <= n` |
| Splitter.SplitSet | modules/nlu/src/backend/cross-validation.ts:41-63 | the loop that accumulates the train set and the test set returns exactly `Split`, including the error for a missing language |
| Splitter.SplitIntent | modules/nlu/src/backend/cross-validation.ts:46-59 | what the split does with one intent: an error without a pool for the language, nothing when `nTrain < 3`, else its train entry and test part. `KeptIffPoolAtLeastFour` and `KeptIntentSlices` state its properties |
| Splitter.Split | modules/nlu/src/backend/cross-validation.ts:44-60 | the whole split, intent by intent. `SplitOkIffLanguagePresent`, `SplitErrorNamesFirstMissing`, `SplitTrainSetKeepsOrder` and `SplitTestSetIsKeptTestParts` state what it returns |
| Splitter.KeptTestParts | modules/nlu/src/backend/cross-validation.ts:53-54 | the test parts of the kept intents, one after the other, computed without the train set and the error path. `SplitTestSetIsKeptTestParts` states that the split's test set equals it |
| Splitter.SplitErrorPersists | modules/nlu/src/backend/cross-validation.ts:44-46 | once the intents up to some position fail, the whole split fails with the same error |
| Splitter.SplitOkIffLanguagePresent | modules/nlu/src/backend/cross-validation.ts:46 | the split succeeds if and only if every intent has a pool for the language |
| Splitter.SplitErrorNamesFirstMissing | modules/nlu/src/backend/cross-validation.ts:44-46 | a failed split reports the first intent without a pool for the language |
| Splitter.KeptIndices | modules/nlu/src/backend/cross-validation.ts:46-49 | the positions of the kept intents, strictly increasing. A position is listed if and only if that intent is kept |
| Splitter.SplitTrainSetKeepsOrder | modules/nlu/src/backend/cross-validation.ts:44-60 | the train set has one entry per kept intent, in input order, and none for dropped ones. Each entry is the kept intent with its utterances replaced by the training slice of its shuffled pool |
| Splitter.SplitTestSetFromKept | modules/nlu/src/backend/cross-validation.ts:29-54 | every test example comes from a kept intent: it is the tokenized form of one of that intent's held-out utterances (the part of its shuffled pool after the first `nTrain`), with that intent's name and contexts and one gold tag per token |
| Splitter.SplitTestSetIsKeptTestParts | modules/nlu/src/backend/cross-validation.ts:44-60 | the test set is exactly the test parts of the kept intents, one after the other in input order, and nothing from dropped intents. Each part is its intent's held-out utterances, tokenized and labelled for it. With `KeptIntentSlices`, intent `k` contributes exactly `|pool| - nTrain` examples |
| Splitter.SplitTestSetSize | modules/nlu/src/backend/cross-validation.ts:46-54 | the test set's size is `TestCount`: the sum of `|pool| - nTrain` over the kept intents |
| Splitter.KeptIntentSlices | modules/nlu/src/backend/cross-validation.ts:51-59 | for a kept intent the training slice has `nTrain` utterances and the test part `|pool| - nTrain >= 1`. The two slices together are a permutation of the pool. The entry keeps every other field, and its utterances map only the language |
| Splitter.KeptIffPoolAtLeastFour | modules/nlu/src/backend/cross-validation.ts:46-49 | an intent is kept if and only if its pool has at least 4 utterances |
| Contexts.FlatContexts | modules/nlu/src/backend/cross-validation.ts:79-80 | `flatMap` holds exactly the contexts some intent lists |
| Contexts.Uniq | modules/nlu/src/backend/cross-validation.ts:81 | `uniq` keeps exactly the elements of its input, without duplicates |
| Contexts.AllContexts | modules/nlu/src/backend/cross-validation.ts:79-82 | `allCtx`: `uniq` of the `flatMap` of the intents' contexts. `AllContextsIsContextSet` and `SeveralIffMoreThanOne` state its properties |
| Contexts.AllContextsIsContextSet | modules/nlu/src/backend/cross-validation.ts:79-82 | the context universe holds each context of each intent exactly once |
| Contexts.SeveralIffMoreThanOne | modules/nlu/src/backend/cross-validation.ts:79-85 | `allCtx.length > 1` holds if and only if the intents span at least two distinct contexts |
| Contexts.ScorerKeys | modules/nlu/src/backend/cross-validation.ts:85 | the scorer keys: `"all"` in front of `allCtx` when it has more than one element. `ScorerKeySet` states the resulting key set |
| Contexts.ScorerKeySet | modules/nlu/src/backend/cross-validation.ts:84-87 | the scorer keys are exactly the intents' contexts, plus `"all"` if and only if there are at least two distinct contexts |
| F1Scorer.MultiClassF1Scorer.constructor | modules/nlu/src/backend/cross-validation.ts:86-89 | a new scorer has recorded nothing |
| F1Scorer.MultiClassF1Scorer.Record | modules/nlu/src/backend/cross-validation.ts:94 | `record` appends exactly one `(predicted, actual)` pair |
| Evaluation.FindCovering | modules/nlu/src/backend/cross-validation.ts:104 | `find` returns the first slot whose span covers the token, or nothing if none covers it |
| Evaluation.PredictedTag | modules/nlu/src/backend/cross-validation.ts:103-107 | the predicted tag of a token: the name of the slot `FindCovering` finds, or `OUT`. `PredictedTagIsFirstCovering` states it |
| Evaluation.PredictedTagIsFirstCovering | modules/nlu/src/backend/cross-validation.ts:103-107 | the predicted tag is the name of the first covering slot. A token that no slot covers is predicted `OUT` |
| Evaluation.CtxRecordsContent | modules/nlu/src/backend/cross-validation.ts:92-95 | visiting an example's contexts gives the scorer of a key one record per occurrence of the key. Each record is the prediction restricted to that context against the gold intent |
| Evaluation.TokenRecords | modules/nlu/src/backend/cross-validation.ts:102-110 | one slot record per token, in order: the predicted tag against the token's gold tag |
| Evaluation.ScoreContexts | modules/nlu/src/backend/cross-validation.ts:92-95 | the loop over contexts appends `CtxRecords` to each scorer's log and changes nothing else |
| Evaluation.ScoreTokens | modules/nlu/src/backend/cross-validation.ts:101-110 | the loop over tokens appends `TokenRecords` to the slot scorer's log |
| Evaluation.ScoreExample | modules/nlu/src/backend/cross-validation.ts:91-110 | one example adds its per-context records, then the `"all"` record (only with several contexts), then one slot record per token |
| Evaluation.Evaluate | modules/nlu/src/backend/cross-validation.ts:91-111 | after the loop over the test set, each intent scorer's log has grown by `IntentRecords` and the slot scorer's by `SlotRecords` |
| Evaluation.IntentRecords | modules/nlu/src/backend/cross-validation.ts:91-100 | the records the scorer of a key receives over a test set, in order. `IntentRecordsCount` and `IntentRecordsContent` state their number and content |
| Evaluation.SlotRecords | modules/nlu/src/backend/cross-validation.ts:101-110 | the records the slot scorer receives over a test set, in order. `SlotRecordsCount` and `SlotRecordsContent` state their number and content |
| Evaluation.IntentRecordsCount | modules/nlu/src/backend/cross-validation.ts:91-100 | a key's log has one record per occurrence of the key among the examples' contexts. `"all"` gets one more per example exactly when there are several contexts |
| Evaluation.IntentRecordsContent | modules/nlu/src/backend/cross-validation.ts:92-100 | every intent record pairs a test example's gold intent with its prediction, restricted to the key or over all contexts for `"all"` |
| Evaluation.SlotRecordsCount | modules/nlu/src/backend/cross-validation.ts:101-110 | the slot log has exactly one record per token of the test set |
| Evaluation.SlotRecordsContent | modules/nlu/src/backend/cross-validation.ts:101-110 | every slot record pairs a token's predicted tag, from the prediction over all contexts, with its gold tag |
| Evaluation.TokenRecordsMatchLabels | modules/nlu/src/backend/cross-validation.ts:36-108 | for an example labelled from its tokens, the gold side of its slot records is exactly `labels.slots` |
| Evaluation.CorrectPredictionsAgree | modules/nlu/src/backend/cross-validation.ts:93-99 | an engine that always predicts the gold intent yields only agreeing intent records |
| CrossValidation.MakeScorers | modules/nlu/src/backend/cross-validation.ts:84-87 | the `reduce` gives one fresh, empty scorer per key, no two keys sharing one |
| CrossValidation.TestContextsCovered | modules/nlu/src/backend/cross-validation.ts:79-94 | every context of every test example is in the context universe, so the scorer lookup never misses |
| CrossValidation.Scores | modules/nlu/src/backend/cross-validation.ts:84-116 | the logs of all scorers after the loop: `IntentRecords` under each scorer key and `SlotRecords`. `ResultKeys`, `ResultIntentCounts` and `ResultSlots` state their properties |
| CrossValidation.CrossValidation | modules/nlu/src/backend/cross-validation.ts:66-118 | a run: the split's error, or `Scores` of the test set for an engine trained on the train set, with `allCtx` taken over all intents. `CrossValidate` is proved to compute it |
| CrossValidation.RunScorers | modules/nlu/src/backend/cross-validation.ts:84-111 | creating one scorer per key plus the slot scorer and running the loop leaves each key's scorer holding `IntentRecords` and the slot scorer `SlotRecords` |
| CrossValidation.Score | modules/nlu/src/backend/cross-validation.ts:84-116 | creating the scorers, running the loop and collecting the logs yields `Scores` |
| CrossValidation.CrossValidate | modules/nlu/src/backend/cross-validation.ts:66-118 | the whole run returns `CrossValidation`: the split's error, or the scorer logs of the test set for an engine trained on the train set |
| CrossValidation.ResultKeys | modules/nlu/src/backend/cross-validation.ts:79-115 | the intent results are keyed by exactly the intents' contexts, plus `"all"` if and only if there are several distinct contexts |
| CrossValidation.ResultIntentCounts | modules/nlu/src/backend/cross-validation.ts:91-115 | each result key has one record per occurrence among the test examples' contexts. `"all"` has one more per example exactly when there are several contexts |
| CrossValidation.ResultSlots | modules/nlu/src/backend/cross-validation.ts:101-116 | the slot results hold one record per test token. Each pairs the predicted tag with that example's `labels.slots` entry for the token |

## Left out

- The seeded random source (`seedrandom`, `_.runInContext`, lodash `shuffle`): it is global RNG state. It is replaced by an arbitrary shuffle function, so the model does not show that a fixed seed gives the same split twice.
- `Engine2` construction, `train` and `predict`: an opaque ML engine. It is replaced by function parameters, and training or prediction failures are not modelled.
- `buildUtteranceBatch`: an external tokenizer. It is replaced by a function from text to utterance; language-dependent tokenization and tokenizer failures are not modelled.
- `MultiClassF1Scorer.getResults` and its precision, recall and F1 arithmetic: floating point, and its source is not part of this model. The scorer keeps only its log of recorded pairs, and the run returns those logs.
- `Promise.map` concurrency: the intents' test parts are appended in the order their callbacks finish, so the source's test set, and with it each scorer's log, equals the model's only up to the order of the intents' blocks. The train set keeps input order in both, because `Promise.map` returns its results in input order. The count and content lemmas and the F1 results do not depend on that order.
- Token lengths are counted in characters. JavaScript counts UTF-16 code units; the two differ only outside the Basic Multilingual Plane.
- The value of `BIO.OUT` is taken as `"o"`; `typings.ts` is not part of this model, and no property depends on the value.
- Contexts.Uniq: the contract does not state that first occurrences keep their order. The definition does keep it, and the order only affects the context list given to `predict`.
- The BetaNotice UI component: a React dialog with no logic to model.
