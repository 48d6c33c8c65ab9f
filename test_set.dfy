/** Building the test examples of one intent (makeIntentTestSet). */
module TestSet {
  import opened NluTypes

  /** The gold tag of a token: the name of its first slot, or OUT when it has none. */
  function GoldTag(t: Token): string {
    if |t.slots| > 0 then t.slots[0].name else OUT
  }

  /** The gold tags of a token sequence, one per token. */
  function GoldTags(tokens: seq<Token>): (r: seq<string>)
    ensures |r| == |tokens|
    ensures forall j :: 0 <= j < |tokens| ==> r[j] == GoldTag(tokens[j])
  {
    if tokens == [] then [] else [GoldTag(tokens[0])] + GoldTags(tokens[1..])
  }

  /** The test example built from one tokenized utterance. */
  function MakeExample(u: Utterance, ctxs: seq<string>, intent: string): TestExample {
    TestExample(u, ctxs, Labels(intent, GoldTags(u.tokens)))
  }

  /** A test example whose labels were derived from its own tokens for the given
      intent and contexts. */
  predicate LabelledFor(e: TestExample, ctxs: seq<string>, intent: string) {
    && e.ctxs == ctxs
    && e.labels.intent == intent
    && |e.labels.slots| == |e.utterance.tokens|
    && forall j :: 0 <= j < |e.labels.slots| ==> e.labels.slots[j] == GoldTag(e.utterance.tokens[j])
  }

  /** makeIntentTestSet: tokenize every raw text and label it with the intent,
      its contexts and one gold tag per token; order follows the raw texts. */
  function MakeIntentTestSet(rawUtts: seq<string>, ctxs: seq<string>, intent: string, tokenize: Tokenizer)
    : (r: seq<TestExample>)
    ensures |r| == |rawUtts|
    ensures forall j :: 0 <= j < |rawUtts| ==> r[j].utterance == tokenize(rawUtts[j])
    ensures forall j :: 0 <= j < |rawUtts| ==> LabelledFor(r[j], ctxs, intent)
  {
    if rawUtts == [] then []
    else [MakeExample(tokenize(rawUtts[0]), ctxs, intent)] + MakeIntentTestSet(rawUtts[1..], ctxs, intent, tokenize)
  }

  /** The gold tag is OUT or the name of one of the token's slots; when no slot
      is itself named OUT, the tag is OUT exactly for tokens without slots. */
  lemma GoldTagIsFirstSlotOrOut(t: Token)
    ensures GoldTag(t) == OUT || (|t.slots| > 0 && GoldTag(t) == t.slots[0].name)
    ensures (forall j :: 0 <= j < |t.slots| ==> t.slots[j].name != OUT) ==> (GoldTag(t) == OUT <==> |t.slots| == 0)
  {
  }
}
