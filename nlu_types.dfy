/** Value types shared by the cross-validation harness: intent definitions,
    tokenized utterances, test examples, engine predictions and the
    (predicted, actual) pairs that scorers record. */
module NluTypes {

  /** BIO.OUT: the tag of a token that belongs to no slot. */
  const OUT: string := "o"

  /** The key of the synthetic scorer that evaluates against every context at once. */
  const ALL: string := "all"

  /** A slot declared on an intent definition. */
  datatype SlotDefinition = SlotDefinition(name: string, entities: seq<string>)

  /** An intent definition: a name, the contexts it lives in and, per language,
      its pool of raw example utterances. */
  datatype Intent = Intent(
    name: string,
    contexts: seq<string>,
    utterances: map<string, seq<string>>,
    slots: seq<SlotDefinition>,
    filename: string)

  /** A slot annotation carried by a token (only its name is read). */
  datatype TokenSlot = TokenSlot(name: string)

  /** A token of a tokenized utterance: where it starts, its surface text and its slots. */
  datatype Token = Token(offset: int, value: string, slots: seq<TokenSlot>)

  /** A tokenized utterance; `text` is what the utterance prints as. */
  datatype Utterance = Utterance(text: string, tokens: seq<Token>)

  /** The gold labels of a test example: its intent and one slot tag per token. */
  datatype Labels = Labels(intent: string, slots: seq<string>)

  datatype TestExample = TestExample(utterance: Utterance, ctxs: seq<string>, labels: Labels)

  /** A slot the engine extracted, covering the characters [start, end]. */
  datatype ExtractedSlot = ExtractedSlot(name: string, start: int, end: int)

  /** What the engine predicts for one text. */
  datatype Prediction = Prediction(intent: string, slots: seq<ExtractedSlot>)

  /** One observation given to a scorer. */
  datatype Pair = Pair(predicted: string, actual: string)

  datatype Error = MissingLanguage(intent: string)

  datatype Option<+T> = None | Some(value: T)

  datatype Result<+T> = Ok(value: T) | Err(error: Error)

  /** The external tokenizer, applied to one raw text. */
  type Tokenizer = string -> Utterance

  /** A trained engine's predict: text and the contexts to consider. */
  type Engine = (string, seq<string>) -> Prediction

  /** `s.slice(0, n)` for n >= 0: the first n elements, or all of s if it is shorter. */
  function Take<T>(s: seq<T>, n: nat): (r: seq<T>)
    ensures |r| == if n <= |s| then n else |s|
    ensures r <= s
  {
    if n <= |s| then s[..n] else s
  }

  /** `s.slice(n)` for n >= 0: what follows the first n elements. */
  function Drop<T>(s: seq<T>, n: nat): (r: seq<T>)
    ensures |r| == if n <= |s| then |s| - n else 0
    ensures Take(s, n) + r == s
  {
    if n <= |s| then s[n..] else []
  }
}
