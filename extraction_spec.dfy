/** Reference definitions of what the writer emits.

    The traversal is described by position rather than by counters: the n-th
    block of the selected layer has block number n, and its sentences are
    numbered on from the number of sentences in the blocks before it. Each
    definition covers the first n elements of a sequence and peels off the
    n-th, the order in which the writer's loops visit them. A SentimentWord without a class URI
    ends the run right before its own record would be written. */
module ExtractionSpec {
  import opened Wrappers
  import opened Annotations
  import opened DocumentFeatures
  import opened Records

  // ---------------------------------------------------------------- counting

  predicate HasClass(w: Span)
  {
    InstanceClassUri in w.features
  }

  /** The polarity a sentiment word contributes; a word without a class URI
      contributes none (the writer stops on it before counting anyway). */
  function WordPolarity(w: Span): Polarity
  {
    match Get(w.features, InstanceClassUri)
    case None => Unclassified
    case Some(u) => Classify(u)
  }

  /** Positive words among the first n words. */
  function PositiveCount(ws: seq<Span>, n: nat): nat
    requires n <= |ws|
  {
    if n == 0 then 0
    else PositiveCount(ws, n - 1) + (if WordPolarity(ws[n - 1]) == Positive then 1 else 0)
  }

  /** Negative words among the first n words. */
  function NegativeCount(ws: seq<Span>, n: nat): nat
    requires n <= |ws|
  {
    if n == 0 then 0
    else NegativeCount(ws, n - 1) + (if WordPolarity(ws[n - 1]) == Negative then 1 else 0)
  }

  /** Positive words in the first n sentences. */
  function SentencesPositive(ss: seq<Sentence>, n: nat): nat
    requires n <= |ss|
  {
    if n == 0 then 0
    else SentencesPositive(ss, n - 1) + PositiveCount(ss[n - 1].words, |ss[n - 1].words|)
  }

  function SentencesNegative(ss: seq<Sentence>, n: nat): nat
    requires n <= |ss|
  {
    if n == 0 then 0
    else SentencesNegative(ss, n - 1) + NegativeCount(ss[n - 1].words, |ss[n - 1].words|)
  }

  function BlockPositive(b: Block): nat
  {
    SentencesPositive(b.sentences, |b.sentences|)
  }

  function BlockNegative(b: Block): nat
  {
    SentencesNegative(b.sentences, |b.sentences|)
  }

  /** Document totals over the first n blocks, as sums of block counts. */
  function DocumentPositive(bs: seq<Block>, n: nat): nat
    requires n <= |bs|
  {
    if n == 0 then 0 else DocumentPositive(bs, n - 1) + BlockPositive(bs[n - 1])
  }

  function DocumentNegative(bs: seq<Block>, n: nat): nat
    requires n <= |bs|
  {
    if n == 0 then 0 else DocumentNegative(bs, n - 1) + BlockNegative(bs[n - 1])
  }

  function TokenTotal(bs: seq<Block>, n: nat): nat
    requires n <= |bs|
  {
    if n == 0 then 0 else TokenTotal(bs, n - 1) + bs[n - 1].tokens
  }

  /** Sentences in the first n blocks. */
  function SentenceCount(bs: seq<Block>, n: nat): nat
    requires n <= |bs|
  {
    if n == 0 then 0 else SentenceCount(bs, n - 1) + |bs[n - 1].sentences|
  }

  /** The index of the first word without a class URI, or |ws| if every word has one. */
  function FirstUnclassified(ws: seq<Span>): (k: nat)
    ensures k <= |ws|
    ensures forall i :: 0 <= i < k ==> HasClass(ws[i])
    ensures k < |ws| ==> !HasClass(ws[k])
    decreases |ws|
  {
    if ws == [] || !HasClass(ws[0]) then 0 else 1 + FirstUnclassified(ws[1..])
  }

  // ----------------------------------------------------------------- records

  /** The rows of the first n SentimentObjects: for each an occurrence row
      and a term row; the term row carries the key of the occurrence row
      written just before it, at log position base + 2k for the k-th object. */
  function ObjectRecords(os: seq<Span>, n: nat, ctx: DocContext, sNum: nat, bNum: nat, base: nat): (r: seq<Record>)
    requires n <= |os|
    ensures |r| == 2 * n
  {
    if n == 0 then []
    else
      var o := os[n - 1];
      ObjectRecords(os, n - 1, ctx, sNum, bNum, base)
        + [Occurrence(ctx.date, o.start, o.end, sNum, bNum, ctx.docId, Get(o.features, InstanceUri)),
           Term(base + 2 * (n - 1), o.text)]
  }

  /** The rows of the first n SentimentWords: one sentiment-word row each. */
  function WordRecords(ws: seq<Span>, n: nat, ctx: DocContext, sNum: nat, bNum: nat): (r: seq<Record>)
    requires n <= |ws|
    ensures |r| == n
  {
    if n == 0 then []
    else
      var w := ws[n - 1];
      WordRecords(ws, n - 1, ctx, sNum, bNum)
        + [SentimentWordOccurrence(ctx.date, w.start, w.end, sNum, bNum, ctx.docId, Get(w.features, InstanceUri))]
  }

  /** Sentence number sNum in block bNum, its first row written at position base. */
  function SentenceRun(s: Sentence, ctx: DocContext, sNum: nat, bNum: nat, base: nat): Outcome
  {
    var k := FirstUnclassified(s.words);
    Outcome(ObjectRecords(s.objects, |s.objects|, ctx, sNum, bNum, base) + WordRecords(s.words, k, ctx, sNum, bNum),
            if k < |s.words| then Some(WordClassMissing) else None)
  }

  /** The first n sentences of block bNum, numbered on from `before`. */
  function SentencesRun(ss: seq<Sentence>, n: nat, ctx: DocContext, bNum: nat, before: nat, base: nat): Outcome
    requires n <= |ss|
  {
    if n == 0 then Outcome([], None)
    else
      var prev := SentencesRun(ss, n - 1, ctx, bNum, before, base);
      if prev.failure.Some? then prev
      else
        var last := SentenceRun(ss[n - 1], ctx, before + n, bNum, base + |prev.log|);
        Outcome(prev.log + last.log, last.failure)
  }

  /** The block aggregate: present only when the block has a positive or a negative word. */
  function Aggregate(b: Block, ctx: DocContext, bNum: nat): seq<Record>
  {
    if BlockPositive(b) != 0 || BlockNegative(b) != 0
    then [BlockSentiment(ctx.docId, bNum, BlockPositive(b), BlockNegative(b), b.tokens)]
    else []
  }

  /** Block number bNum, preceded by `before` sentences. */
  function BlockRun(b: Block, ctx: DocContext, bNum: nat, before: nat, base: nat): Outcome
  {
    var r := SentencesRun(b.sentences, |b.sentences|, ctx, bNum, before, base);
    if r.failure.Some? then r else Outcome(r.log + Aggregate(b, ctx, bNum), None)
  }

  /** The first n selected blocks: the k-th is block number k. */
  function BlocksRun(bs: seq<Block>, n: nat, ctx: DocContext, base: nat): Outcome
    requires n <= |bs|
  {
    if n == 0 then Outcome([], None)
    else
      var prev := BlocksRun(bs, n - 1, ctx, base);
      if prev.failure.Some? then prev
      else
        var last := BlockRun(bs[n - 1], ctx, n, SentenceCount(bs, n - 1), base + |prev.log|);
        Outcome(prev.log + last.log, last.failure)
  }

  /** Every word of the first n sentences carries a class. */
  predicate SentencesClassified(ss: seq<Sentence>, n: nat)
    requires n <= |ss|
  {
    forall j, k :: 0 <= j < n && 0 <= k < |ss[j].words| ==> HasClass(ss[j].words[k])
  }

  /** Every word of the first n blocks carries a class. */
  predicate BlocksClassified(bs: seq<Block>, n: nat)
    requires n <= |bs|
  {
    forall i :: 0 <= i < n ==> SentencesClassified(bs[i].sentences, |bs[i].sentences|)
  }

  // --------------------------------------------------------------- documents

  /** A feature passed through a parser; a missing feature is null, which
      the parsers reject. */
  function ParseFeature<T>(value: Option<string>, parse: string -> Option<T>): Option<T>
  {
    match value
    case None => None
    case Some(s) => parse(s)
  }

  /** The document row, or the exception raised before it is written. */
  function Prologue(doc: Document, corpusFeatures: map<string, string>, f: Foreign): Result<Record, Failure>
  {
    var fs := doc.features;
    var pubDate := OrEmpty(Get(fs, "pubDate"));
    var timeGet := ParseFeature(Get(fs, "time"), f.parseDate);
    if timeGet.None? then Failure(TimeUnparsable)
    else
      var date := EffectiveDay(timeGet.value, f.parseDate(pubDate));
      // Convert.ToDouble of null is 0
      var pump := if "pumpIndex" in fs then f.toDouble(fs["pumpIndex"]) else Some(0.0);
      if pump.None? then Failure(PumpIndexUnparsable)
      else
        var cGuid := ParseFeature(Get(corpusFeatures, "guid"), f.parseGuid);
        if cGuid.None? then Failure(CorpusGuidInvalid)
        else
          var dGuid := ParseFeature(Get(fs, "guid"), f.parseGuid);
          if dGuid.None? then Failure(DocumentGuidInvalid)
          else
            Success(DocumentRow(OrEmpty(Get(fs, "title")), date, pubDate, Minute(timeGet.value),
                                OrEmpty(Get(fs, "responseUrl")), OrEmpty(Get(fs, "urlKey")),
                                OrEmpty(Get(fs, "domainName")), IsFinancial(Get(fs, "isFinancial")),
                                pump.value, f.digest(DigestInput(cGuid.value, dGuid.value))))
  }

  /** The blocks the document's revision selects. */
  function SelectedBlocks(doc: Document): seq<Block>
  {
    Layer(doc, BlockSelector(Get(doc.features, "rev")))
  }

  /** One document whose row is written at position base: the row first,
      then the traversal, every child row carrying the row's key. */
  function DocumentRun(doc: Document, corpusFeatures: map<string, string>, f: Foreign, base: nat): Outcome
  {
    match Prologue(doc, corpusFeatures, f)
    case Failure(e) => Outcome([], Some(e))
    case Success(row) =>
      var bs := SelectedBlocks(doc);
      var ext := BlocksRun(bs, |bs|, DocContext(row.date, base), base + 1);
      Outcome([row] + ext.log, ext.failure)
  }

  /** The document run as a function of the document and the position its
      row is written at. */
  function DocumentWriter(corpusFeatures: map<string, string>, f: Foreign): (Document, nat) -> Outcome
  {
    (doc: Document, at: nat) => DocumentRun(doc, corpusFeatures, f, at)
  }

  /** The first n documents of a corpus, one after the other, each run by
      `run` from the position where the previous one ended; the first
      exception ends the run. */
  function CorpusRun(docs: seq<Document>, n: nat, run: (Document, nat) -> Outcome, base: nat): Outcome
    requires n <= |docs|
  {
    if n == 0 then Outcome([], None)
    else
      var prev := CorpusRun(docs, n - 1, run, base);
      if prev.failure.Some? then prev
      else
        var last := run(docs[n - 1], base + |prev.log|);
        Outcome(prev.log + last.log, last.failure)
  }
}
