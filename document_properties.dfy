/** What one document and the whole corpus promise: which exception is
    raised before the document row, what the row holds, and that every
    child row carries the key of the row written first. */
module DocumentProperties {
  import opened Wrappers
  import opened Annotations
  import opened DocumentFeatures
  import opened Records
  import opened ExtractionSpec
  import opened ExtractionProperties
  import opened TraversalProperties

  // ---------------------------------------------------------------- prologue

  /** The exceptions raised before the document row, in the order they are
      raised: the ingestion time, the pump index, the corpus guid, the
      document guid. */
  lemma PrologueFailures(doc: Document, corpusFeatures: map<string, string>, f: Foreign)
    ensures var fs := doc.features;
      var timeBad := !("time" in fs && f.parseDate(fs["time"]).Some?);
      var pumpBad := "pumpIndex" in fs && f.toDouble(fs["pumpIndex"]).None?;
      var cGuidBad := !("guid" in corpusFeatures && f.parseGuid(corpusFeatures["guid"]).Some?);
      var dGuidBad := !("guid" in fs && f.parseGuid(fs["guid"]).Some?);
      && (Prologue(doc, corpusFeatures, f) == Failure(TimeUnparsable) <==> timeBad)
      && (Prologue(doc, corpusFeatures, f) == Failure(PumpIndexUnparsable) <==> !timeBad && pumpBad)
      && (Prologue(doc, corpusFeatures, f) == Failure(CorpusGuidInvalid) <==> !timeBad && !pumpBad && cGuidBad)
      && (Prologue(doc, corpusFeatures, f) == Failure(DocumentGuidInvalid)
          <==> !timeBad && !pumpBad && !cGuidBad && dGuidBad)
      && (Prologue(doc, corpusFeatures, f).Success? <==> !timeBad && !pumpBad && !cGuidBad && !dGuidBad)
  {
  }

  /** The document row: missing text features become empty strings, the
      financial flag is the exact text "True", a missing pump index is 0 and
      a present one is written as its parsed value,
      the date is the ingestion day or a publication day at most three days
      earlier, and the key hashes the corpus guid followed by the document
      guid. */
  lemma PrologueRow(doc: Document, corpusFeatures: map<string, string>, f: Foreign)
    requires Prologue(doc, corpusFeatures, f).Success?
    ensures var fs := doc.features;
      var row := Prologue(doc, corpusFeatures, f).value;
      && "time" in fs && f.parseDate(fs["time"]).Some?
      && "guid" in fs && "guid" in corpusFeatures
      && f.parseGuid(corpusFeatures["guid"]).Some? && f.parseGuid(fs["guid"]).Some?
      && row.DocumentRow?
      && row.title == (if "title" in fs then fs["title"] else "")
      && row.responseUrl == (if "responseUrl" in fs then fs["responseUrl"] else "")
      && row.urlKey == (if "urlKey" in fs then fs["urlKey"] else "")
      && row.domainName == (if "domainName" in fs then fs["domainName"] else "")
      && row.pubDate == (if "pubDate" in fs then fs["pubDate"] else "")
      && (row.isFinancial <==> "isFinancial" in fs && fs["isFinancial"] == "True")
      && ("pumpIndex" !in fs ==> row.pumpIndex == 0.0)
      && ("pumpIndex" in fs ==> f.toDouble(fs["pumpIndex"]).Some? && row.pumpIndex == f.toDouble(fs["pumpIndex"]).value)
      && row.ingestedMinute == Minute(f.parseDate(fs["time"]).value)
      && row.date <= Day(f.parseDate(fs["time"]).value) <= row.date + 3
      && row.date == EffectiveDay(f.parseDate(fs["time"]).value, f.parseDate(row.pubDate))
      && row.documentId
        == f.digest(DigestInput(f.parseGuid(corpusFeatures["guid"]).value, f.parseGuid(fs["guid"]).value))
  {
    var fs := doc.features;
    var t := f.parseDate(fs["time"]).value;
    EffectiveDayBounds(t, f.parseDate(OrEmpty(Get(fs, "pubDate"))));
  }

  // ---------------------------------------------------------------- document

  /** One document written from position base: nothing when an exception
      comes before the row; otherwise the row first, then rows that all
      carry the row's position as their document key, numbered, keyed and
      in order; the document then fails only for a word without a class. */
  lemma DocumentRunShape(doc: Document, corpusFeatures: map<string, string>, f: Foreign, base: nat)
    ensures Prologue(doc, corpusFeatures, f).Failure? ==>
      DocumentRun(doc, corpusFeatures, f, base) == Outcome([], Some(Prologue(doc, corpusFeatures, f).error))
    ensures Prologue(doc, corpusFeatures, f).Success? ==>
      var log := DocumentRun(doc, corpusFeatures, f, base).log;
      var bs := SelectedBlocks(doc);
      && 1 <= |log| && log[0] == Prologue(doc, corpusFeatures, f).value
      && Numbered(log[1..], base, 1, |bs|, 1, SentenceCount(bs, |bs|))
      && Keyed(log[1..], base + 1)
      && Ordered(log[1..])
      && DocumentRun(doc, corpusFeatures, f, base).failure
        == if BlocksClassified(bs, |bs|) then None else Some(WordClassMissing)
  {
    if Prologue(doc, corpusFeatures, f).Success? {
      var row := Prologue(doc, corpusFeatures, f).value;
      var bs := SelectedBlocks(doc);
      var ctx := DocContext(row.date, base);
      var ext := BlocksRun(bs, |bs|, ctx, base + 1);
      assert DocumentRun(doc, corpusFeatures, f, base) == Outcome([row] + ext.log, ext.failure);
      assert ([row] + ext.log)[1..] == ext.log;
      BlocksRunNumbered(bs, |bs|, ctx, base + 1);
      BlocksRunKeyed(bs, |bs|, ctx, base + 1);
      BlocksRunOrdered(bs, |bs|, ctx, base + 1);
      BlocksRunFailure(bs, |bs|, ctx, base + 1);
    }
  }

  // ------------------------------------------------------------------ corpus

  /** Document rows among the first n rows of a log. */
  function RowCount(log: seq<Record>, n: nat): nat
    requires n <= |log|
  {
    if n == 0 then 0 else RowCount(log, n - 1) + (if log[n - 1].DocumentRow? then 1 else 0)
  }

  lemma {:induction false} RowCountAgree(a: seq<Record>, c: seq<Record>, n: nat)
    requires n <= |a| && n <= |c|
    requires forall i :: 0 <= i < n ==> a[i] == c[i]
    ensures RowCount(a, n) == RowCount(c, n)
  {
    if n > 0 {
      RowCountAgree(a, c, n - 1);
    }
  }

  lemma {:induction false} RowCountConcat(a: seq<Record>, b: seq<Record>, k: nat)
    requires k <= |b|
    ensures RowCount(a + b, |a| + k) == RowCount(a, |a|) + RowCount(b, k)
  {
    if k == 0 {
      RowCountAgree(a + b, a, |a|);
    } else {
      RowCountConcat(a, b, k - 1);
      assert (a + b)[|a| + k - 1] == b[k - 1];
    }
  }

  lemma RowCountAppend(a: seq<Record>, b: seq<Record>)
    ensures RowCount(a + b, |a + b|) == RowCount(a, |a|) + RowCount(b, |b|)
  {
    RowCountConcat(a, b, |b|);
  }

  lemma {:induction false} NumberedRowCount(log: seq<Record>, n: nat, docId: nat, bLo: nat, bHi: nat, sLo: nat, sHi: nat)
    requires n <= |log| && Numbered(log, docId, bLo, bHi, sLo, sHi)
    ensures RowCount(log, n) == 0
  {
    if n > 0 {
      NumberedRowCount(log, n - 1, docId, bLo, bHi, sLo, sHi);
      assert RowWithin(log[n - 1], docId, bLo, bHi, sLo, sHi);
    }
  }

  /** A document writes one document row when its prologue succeeds, none otherwise. */
  lemma DocumentRunRows(doc: Document, corpusFeatures: map<string, string>, f: Foreign, base: nat)
    ensures var log := DocumentRun(doc, corpusFeatures, f, base).log;
      RowCount(log, |log|) == if Prologue(doc, corpusFeatures, f).Success? then 1 else 0
  {
    DocumentRunShape(doc, corpusFeatures, f, base);
    var log := DocumentRun(doc, corpusFeatures, f, base).log;
    if Prologue(doc, corpusFeatures, f).Success? {
      var bs := SelectedBlocks(doc);
      assert log == [log[0]] + log[1..];
      NumberedRowCount(log[1..], |log| - 1, base, 1, |bs|, 1, SentenceCount(bs, |bs|));
      RowCountAppend([log[0]], log[1..]);
    }
  }

  lemma CleanDocumentRows(doc: Document, corpusFeatures: map<string, string>, f: Foreign, base: nat, run: Outcome)
    requires run == DocumentRun(doc, corpusFeatures, f, base) && run.failure.None?
    ensures RowCount(run.log, |run.log|) == 1
  {
    DocumentRunRows(doc, corpusFeatures, f, base);
  }

  lemma RowCountStep(a: seq<Record>, b: seq<Record>, n: nat)
    requires 0 < n && RowCount(a, |a|) == n - 1 && RowCount(b, |b|) == 1
    ensures RowCount(a + b, |a + b|) == n
  {
    RowCountAppend(a, b);
  }

  /** Every clean document run writes exactly one document row. */
  ghost predicate OneRowEach(run: (Document, nat) -> Outcome)
  {
    forall doc: Document, at: nat :: run(doc, at).failure.None? ==> RowCount(run(doc, at).log, |run(doc, at).log|) == 1
  }

  lemma WriterOneRowEach(corpusFeatures: map<string, string>, f: Foreign)
    ensures OneRowEach(DocumentWriter(corpusFeatures, f))
  {
    forall doc: Document, at: nat | DocumentWriter(corpusFeatures, f)(doc, at).failure.None?
      ensures RowCount(DocumentWriter(corpusFeatures, f)(doc, at).log, |DocumentWriter(corpusFeatures, f)(doc, at).log|) == 1
    {
      CleanDocumentRows(doc, corpusFeatures, f, at, DocumentWriter(corpusFeatures, f)(doc, at));
    }
  }

  /** A corpus run that meets no exception, with a document run that writes
      one document row, writes exactly one document row per document. */
  lemma {:induction false} CorpusRunRows(docs: seq<Document>, n: nat, run: (Document, nat) -> Outcome, base: nat)
    requires n <= |docs| && OneRowEach(run)
    requires CorpusRun(docs, n, run, base).failure.None?
    ensures RowCount(CorpusRun(docs, n, run, base).log, |CorpusRun(docs, n, run, base).log|) == n
  {
    if n > 0 {
      var prev := CorpusRun(docs, n - 1, run, base);
      assert prev.failure.None?;
      var last := run(docs[n - 1], base + |prev.log|);
      CorpusRunStep(docs, n - 1, run, base, docs[n - 1], base + |prev.log|);
      CorpusRunRows(docs, n - 1, run, base);
      RowCountStep(prev.log, last.log, n);
    }
  }

  /** ConsumeData without an exception writes one document row per document. */
  lemma CorpusDocumentRows(c: Corpus, f: Foreign)
    requires CorpusRun(c.documents, |c.documents|, DocumentWriter(c.features, f), 0).failure.None?
    ensures var log := CorpusRun(c.documents, |c.documents|, DocumentWriter(c.features, f), 0).log;
      RowCount(log, |log|) == |c.documents|
  {
    WriterOneRowEach(c.features, f);
    CorpusRunRows(c.documents, |c.documents|, DocumentWriter(c.features, f), 0);
  }
}
