/** The part of MultiClassF1Scorer that the harness drives: it records
    (predicted, actual) label pairs. */
module F1Scorer {
  import opened NluTypes

  class MultiClassF1Scorer {
    /** Every pair recorded so far, oldest first. */
    var records: seq<Pair>

    constructor ()
      ensures records == []
    {
      records := [];
    }

    /** record(predicted, actual): one more observation. */
    method Record(predicted: string, actual: string)
      modifies this
      ensures records == old(records) + [Pair(predicted, actual)]
    {
      records := records + [Pair(predicted, actual)];
    }
  }
}
