/** The writer itself: the corpus loop, the per-document prologue and the
    nested block / sentence / span loops, each appending the rows it writes
    to the log in the order the gateway receives them. */
module OccurrenceWriter {
  import opened Wrappers
  import opened Annotations
  import opened DocumentFeatures
  import opened Records
  import opened ExtractionSpec
  import opened ExtractionProperties
  import opened TraversalProperties

  /** The SentimentObject loop of one sentence: an occurrence row, then a term
      row carrying the key the store returned for that occurrence row. */
  method EmitObjects(os: seq<Span>, ctx: DocContext, sentenceNum: nat, blockNum: nat, log0: seq<Record>)
    returns (log: seq<Record>)
    ensures log == log0 + ObjectRecords(os, |os|, ctx, sentenceNum, blockNum, |log0|)
  {
    log := log0;
    var k := 0;
    while k < |os|
      invariant k <= |os|
      invariant log == log0 + ObjectRecords(os, k, ctx, sentenceNum, blockNum, |log0|)
    {
      var so := os[k];
      var instUri := Get(so.features, InstanceUri);
      var term := so.text;
      var occId := |log|;
      log := log + [Occurrence(ctx.date, so.start, so.end, sentenceNum, blockNum, ctx.docId, instUri)];
      log := log + [Term(occId, term)];
      k := k + 1;
    }
  }

  /** The SentimentWord loop of one sentence: each word bumps the sentence,
      block and document counters of its polarity and is written whatever its
      class. A word without a class URI raises before its row is written. */
  method EmitWords(ws: seq<Span>, ctx: DocContext, sentenceNum: nat, blockNum: nat, log0: seq<Record>,
                   blockPoz0: nat, blockNeg0: nat, documentPoz0: nat, documentNeg0: nat)
    returns (log: seq<Record>, blockPoz: nat, blockNeg: nat, documentPoz: nat, documentNeg: nat, failed: bool)
    ensures failed <==> FirstUnclassified(ws) < |ws|
    ensures log == log0 + WordRecords(ws, FirstUnclassified(ws), ctx, sentenceNum, blockNum)
    ensures !failed ==> blockPoz == blockPoz0 + PositiveCount(ws, |ws|) && documentPoz == documentPoz0 + PositiveCount(ws, |ws|)
    ensures !failed ==> blockNeg == blockNeg0 + NegativeCount(ws, |ws|) && documentNeg == documentNeg0 + NegativeCount(ws, |ws|)
  {
    log, blockPoz, blockNeg, documentPoz, documentNeg := log0, blockPoz0, blockNeg0, documentPoz0, documentNeg0;
    var sentencePoz, sentenceNeg := 0, 0;
    var k := 0;
    while k < |ws|
      invariant k <= FirstUnclassified(ws)
      invariant log == log0 + WordRecords(ws, k, ctx, sentenceNum, blockNum)
      invariant sentencePoz == PositiveCount(ws, k) && sentenceNeg == NegativeCount(ws, k)
      invariant blockPoz == blockPoz0 + sentencePoz && documentPoz == documentPoz0 + sentencePoz
      invariant blockNeg == blockNeg0 + sentenceNeg && documentNeg == documentNeg0 + sentenceNeg
    {
      var so := ws[k];
      var instUri := Get(so.features, InstanceUri);
      var instClassUri := Get(so.features, InstanceClassUri);
      if instClassUri.None? {
        failed := true;
        return;
      }
      if EndsWith(instClassUri.value, PositiveSuffix) {
        sentencePoz, blockPoz, documentPoz := sentencePoz + 1, blockPoz + 1, documentPoz + 1;
      } else if EndsWith(instClassUri.value, NegativeSuffix) {
        sentenceNeg, blockNeg, documentNeg := sentenceNeg + 1, blockNeg + 1, documentNeg + 1;
      }
      log := log + [SentimentWordOccurrence(ctx.date, so.start, so.end, sentenceNum, blockNum, ctx.docId, instUri)];
      k := k + 1;
    }
    failed := false;
  }

  /** The body of the sentence loop: the SentimentObject loop, then the
      SentimentWord loop. */
  method EmitSentence(s: Sentence, ctx: DocContext, sentenceNum: nat, blockNum: nat, log0: seq<Record>,
                      blockPoz0: nat, blockNeg0: nat, documentPoz0: nat, documentNeg0: nat)
    returns (log: seq<Record>, blockPoz: nat, blockNeg: nat, documentPoz: nat, documentNeg: nat, failed: bool)
    ensures log == log0 + SentenceRun(s, ctx, sentenceNum, blockNum, |log0|).log
    ensures failed <==> SentenceRun(s, ctx, sentenceNum, blockNum, |log0|).failure.Some?
    ensures !failed ==> blockPoz == blockPoz0 + PositiveCount(s.words, |s.words|)
                        && documentPoz == documentPoz0 + PositiveCount(s.words, |s.words|)
    ensures !failed ==> blockNeg == blockNeg0 + NegativeCount(s.words, |s.words|)
                        && documentNeg == documentNeg0 + NegativeCount(s.words, |s.words|)
  {
    var tokensPerSentence := s.tokens;  // read and not used further
    log := EmitObjects(s.objects, ctx, sentenceNum, blockNum, log0);
    ghost var objectsLog := log;
    log, blockPoz, blockNeg, documentPoz, documentNeg, failed :=
      EmitWords(s.words, ctx, sentenceNum, blockNum, log, blockPoz0, blockNeg0, documentPoz0, documentNeg0);
    Concat2(log0, ObjectRecords(s.objects, |s.objects|, ctx, sentenceNum, blockNum, |log0|),
            WordRecords(s.words, FirstUnclassified(s.words), ctx, sentenceNum, blockNum));
  }

  /** The body of the block loop after the token count: the sentence loop
      (sentence numbers continue from `sentenceNum0`), then the block's
      aggregate row if it has a positive or a negative word. */
  method EmitBlock(tb: Block, ctx: DocContext, blockNum: nat, sentenceNum0: nat, log0: seq<Record>,
                   documentPoz0: nat, documentNeg0: nat)
    returns (log: seq<Record>, sentenceNum: nat, documentPoz: nat, documentNeg: nat, failed: bool)
    ensures log == log0 + BlockRun(tb, ctx, blockNum, sentenceNum0, |log0|).log
    ensures failed <==> BlockRun(tb, ctx, blockNum, sentenceNum0, |log0|).failure.Some?
    ensures !failed ==> sentenceNum == sentenceNum0 + |tb.sentences|
    ensures !failed ==> documentPoz == documentPoz0 + BlockPositive(tb) && documentNeg == documentNeg0 + BlockNegative(tb)
  {
    log, sentenceNum, documentPoz, documentNeg := log0, sentenceNum0, documentPoz0, documentNeg0;
    var blockNeg, blockPoz := 0, 0;
    var j := 0;
    while j < |tb.sentences|
      invariant j <= |tb.sentences|
      invariant sentenceNum == sentenceNum0 + j
      invariant SentencesRun(tb.sentences, j, ctx, blockNum, sentenceNum0, |log0|).failure.None?
      invariant log == log0 + SentencesRun(tb.sentences, j, ctx, blockNum, sentenceNum0, |log0|).log
      invariant blockPoz == SentencesPositive(tb.sentences, j) && blockNeg == SentencesNegative(tb.sentences, j)
      invariant documentPoz == documentPoz0 + blockPoz && documentNeg == documentNeg0 + blockNeg
    {
      ghost var prev := log;
      var s := tb.sentences[j];
      sentenceNum := sentenceNum + 1;
      var sentenceFailed;
      log, blockPoz, blockNeg, documentPoz, documentNeg, sentenceFailed :=
        EmitSentence(s, ctx, sentenceNum, blockNum, log, blockPoz, blockNeg, documentPoz, documentNeg);
      ghost var run := SentencesRun(tb.sentences, j, ctx, blockNum, sentenceNum0, |log0|).log;
      SentencesRunStep(tb.sentences, j, ctx, blockNum, sentenceNum0, |log0|, s, sentenceNum, |prev|);
      Concat2(log0, run, SentenceRun(s, ctx, sentenceNum, blockNum, |prev|).log);
      if sentenceFailed {
        SentencesRunStops(tb.sentences, j + 1, |tb.sentences|, ctx, blockNum, sentenceNum0, |log0|);
        failed := true;
        return;
      }
      j := j + 1;
    }
    ghost var sentencesLog := SentencesRun(tb.sentences, |tb.sentences|, ctx, blockNum, sentenceNum0, |log0|).log;
    var aggregate: seq<Record> := [];
    if blockNeg != 0 || blockPoz != 0 {
      aggregate := [BlockSentiment(ctx.docId, blockNum, blockPoz, blockNeg, tb.tokens)];
      log := log + aggregate;
    }
    assert aggregate == Aggregate(tb, ctx, blockNum);
    assert log == (log0 + sentencesLog) + aggregate;
    Concat2(log0, sentencesLog, aggregate);
    BlockRunComplete(tb, ctx, blockNum, sentenceNum0, |log0|);
    failed := false;
  }

  /** The block loop. Returns the rows, the document totals (token count,
      positive and negative words) and whether an exception ended the
      traversal. */
  method ExtractOccurrences(bs: seq<Block>, ctx: DocContext, log0: seq<Record>)
    returns (log: seq<Record>, tokensPerDocument: nat, documentPoz: nat, documentNeg: nat, failed: bool)
    ensures log == log0 + BlocksRun(bs, |bs|, ctx, |log0|).log
    ensures failed <==> BlocksRun(bs, |bs|, ctx, |log0|).failure.Some?
    ensures !failed ==> tokensPerDocument == TokenTotal(bs, |bs|)
    ensures !failed ==> documentPoz == DocumentPositive(bs, |bs|) && documentNeg == DocumentNegative(bs, |bs|)
  {
    log := log0;
    tokensPerDocument, documentPoz, documentNeg := 0, 0, 0;
    var sentenceNum, blockNum := 0, 0;
    var i := 0;
    while i < |bs|
      invariant i <= |bs|
      invariant blockNum == i && sentenceNum == SentenceCount(bs, i)
      invariant BlocksRun(bs, i, ctx, |log0|).failure.None?
      invariant log == log0 + BlocksRun(bs, i, ctx, |log0|).log
      invariant tokensPerDocument == TokenTotal(bs, i)
      invariant documentPoz == DocumentPositive(bs, i) && documentNeg == DocumentNegative(bs, i)
    {
      var tb := bs[i];
      var tokensPerBlock := tb.tokens;
      tokensPerDocument := tokensPerDocument + tokensPerBlock;
      blockNum := blockNum + 1;
      var blockFailed;
      ghost var prev := log;
      ghost var before := sentenceNum;
      log, sentenceNum, documentPoz, documentNeg, blockFailed :=
        EmitBlock(tb, ctx, blockNum, sentenceNum, log, documentPoz, documentNeg);
      ghost var run := BlocksRun(bs, i, ctx, |log0|).log;
      BlocksRunStep(bs, i, ctx, |log0|, tb, blockNum, before, |prev|);
      Concat2(log0, run, BlockRun(tb, ctx, blockNum, before, |prev|).log);
      if blockFailed {
        BlocksRunStops(bs, i + 1, |bs|, ctx, |log0|);
        failed := true;
        return;
      }
      i := i + 1;
    }
    failed := false;
  }

  /** One document: its features, the date, the document row, then the
      traversal of the blocks its revision selects, every child row carrying
      the document row's key. */
  method ConsumeDocument(doc: Document, corpusFeatures: map<string, string>, f: Foreign, log0: seq<Record>)
    returns (log: seq<Record>, failure: Option<Failure>)
    ensures log == log0 + DocumentRun(doc, corpusFeatures, f, |log0|).log
    ensures failure == DocumentRun(doc, corpusFeatures, f, |log0|).failure
  {
    log := log0;
    var fs := doc.features;
    var responseUrl := OrEmpty(Get(fs, "responseUrl"));
    var urlKey := OrEmpty(Get(fs, "urlKey"));
    var title := OrEmpty(Get(fs, "title"));
    var domainName := OrEmpty(Get(fs, "domainName"));

    var pubDate := OrEmpty(Get(fs, "pubDate"));
    var timeGet := ParseFeature(Get(fs, "time"), f.parseDate);
    if timeGet.None? {
      return log, Some(TimeUnparsable);
    }
    // a publication date that does not parse is swallowed
    var date := EffectiveDay(timeGet.value, f.parseDate(pubDate));

    var pumpDumpIndex := if "pumpIndex" in fs then f.toDouble(fs["pumpIndex"]) else Some(0.0);
    if pumpDumpIndex.None? {
      return log, Some(PumpIndexUnparsable);
    }
    var isFinancial := IsFinancial(Get(fs, "isFinancial"));
    var cGuid := ParseFeature(Get(corpusFeatures, "guid"), f.parseGuid);
    if cGuid.None? {
      return log, Some(CorpusGuidInvalid);
    }
    var dGuid := ParseFeature(Get(fs, "guid"), f.parseGuid);
    if dGuid.None? {
      return log, Some(DocumentGuidInvalid);
    }
    var documentId := f.digest(DigestInput(cGuid.value, dGuid.value));
    var docId := |log|;
    var row := DocumentRow(title, date, pubDate, Minute(timeGet.value), responseUrl, urlKey, domainName,
                           isFinancial, pumpDumpIndex.value, documentId);
    log := log + [row];

    var blockSelector := BlockSelector(Get(fs, "rev"));
    var blocks := Layer(doc, blockSelector);
    var tokensPerDocument, documentPoz, documentNeg, failed;
    log, tokensPerDocument, documentPoz, documentNeg, failed := ExtractOccurrences(blocks, DocContext(date, docId), log);
    Concat2(log0, [row], BlocksRun(blocks, |blocks|, DocContext(date, docId), |log0| + 1).log);
    BlocksRunFailure(blocks, |blocks|, DocContext(date, docId), |log0| + 1);
    failure := if failed then Some(WordClassMissing) else None;
  }

  /** The corpus loop: documents one after the other; the first exception
      ends the whole run, keeping the rows already written. */
  method ConsumeData(c: Corpus, f: Foreign) returns (log: seq<Record>, failure: Option<Failure>)
    ensures log == CorpusRun(c.documents, |c.documents|, DocumentWriter(c.features, f), 0).log
    ensures failure == CorpusRun(c.documents, |c.documents|, DocumentWriter(c.features, f), 0).failure
  {
    log, failure := [], None;
    var i := 0;
    while i < |c.documents|
      invariant i <= |c.documents|
      invariant CorpusRun(c.documents, i, DocumentWriter(c.features, f), 0) == Outcome(log, failure)
      invariant failure.None?
    {
      var doc := c.documents[i];
      ghost var prev := log;
      log, failure := ConsumeDocument(doc, c.features, f, log);
      WriterStep(c.documents, i, c.features, f, prev, log, failure);
      if failure.Some? {
        return;
      }
      i := i + 1;
    }
  }

  /** The document ConsumeDocument has just written, as a step of the corpus run. */
  lemma WriterStep(docs: seq<Document>, i: nat, corpusFeatures: map<string, string>, f: Foreign,
                   prev: seq<Record>, log: seq<Record>, failure: Option<Failure>)
    requires i < |docs|
    requires CorpusRun(docs, i, DocumentWriter(corpusFeatures, f), 0) == Outcome(prev, None)
    requires log == prev + DocumentRun(docs[i], corpusFeatures, f, |prev|).log
    requires failure == DocumentRun(docs[i], corpusFeatures, f, |prev|).failure
    ensures CorpusRun(docs, i + 1, DocumentWriter(corpusFeatures, f), 0) == Outcome(log, failure)
    ensures failure.Some? ==> CorpusRun(docs, |docs|, DocumentWriter(corpusFeatures, f), 0) == Outcome(log, failure)
  {
    CorpusRunStep(docs, i, DocumentWriter(corpusFeatures, f), 0, docs[i], |prev|);
    if failure.Some? {
      CorpusRunStops(docs, i + 1, |docs|, DocumentWriter(corpusFeatures, f), 0);
    }
  }
}
