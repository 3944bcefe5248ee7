/** What the writer hands to the persistence gateway, the exceptions that end
    a run, and the foreign calls it depends on. Every write is an append of
    one record to a log. */
module Records {
  import opened Wrappers
  import opened DocumentFeatures

  /** The exceptions that abort the writer. */
  datatype Failure =
    | TimeUnparsable        // "time" missing or not a date: DateTime.Parse throws
    | PumpIndexUnparsable   // "pumpIndex" not a number: Convert.ToDouble throws
    | CorpusGuidInvalid     // corpus "guid" missing or malformed: new Guid throws
    | DocumentGuidInvalid   // document "guid" missing or malformed: new Guid throws
    | WordClassMissing      // a SentimentWord without "instanceClassUri": EndsWith on null

  /** One row handed to the persistence gateway. */
  datatype Record =
    | DocumentRow(title: string, date: nat, pubDate: string, ingestedMinute: nat,
                  responseUrl: string, urlKey: string, domainName: string,
                  isFinancial: bool, pumpIndex: real, documentId: GuidBytes)
    | Occurrence(date: nat, spanStart: int, spanEnd: int, sentenceNum: nat, blockNum: nat,
                 docId: nat, instanceUri: Option<string>)
    | Term(occId: nat, term: string)
    | SentimentWordOccurrence(date: nat, spanStart: int, spanEnd: int, sentenceNum: nat,
                              blockNum: nat, docId: nat, instanceUri: Option<string>)
    | BlockSentiment(docId: nat, blockNum: nat, positive: nat, negative: nat, tokens: nat)

  /** The rows written by a run and the exception that ended it, if any. */
  datatype Outcome = Outcome(log: seq<Record>, failure: Option<Failure>)

  /** The calls into code outside the model: date parsing, number parsing,
      GUID parsing and the MD5 digest. */
  datatype Foreign = Foreign(
    parseDate: string -> Option<nat>,
    toDouble: string -> Option<real>,
    parseGuid: string -> Option<GuidBytes>,
    digest: seq<byte> -> GuidBytes)

  /** What the traversal of one document needs besides its blocks: the
      effective day and the document row's surrogate key. A surrogate key is
      modelled by the position in the log of the row it identifies. */
  datatype DocContext = DocContext(date: nat, docId: nat)

  /** Occurrence and sentiment-word records carry a (sentence, block) position. */
  predicate Located(r: Record)
  {
    r.Occurrence? || r.SentimentWordOccurrence?
  }
}
