/** Properties of the reference definitions: the shape of the rows each
    annotation yields, the numbering of blocks and sentences, the block
    aggregates, the document totals and the document row's place. */
module ExtractionProperties {
  import opened Wrappers
  import opened Annotations
  import opened DocumentFeatures
  import opened Records
  import opened ExtractionSpec

  // ------------------------------------------------------ one step further

  lemma Concat2(a: seq<Record>, b: seq<Record>, c: seq<Record>)
    ensures (a + b) + c == a + (b + c)
  {
  }

  /** The (j+1)-th sentence s, numbered sNum and written from position `at`. */
  lemma SentencesRunStep(ss: seq<Sentence>, j: nat, ctx: DocContext, bNum: nat, before: nat, base: nat,
                         s: Sentence, sNum: nat, at: nat)
    requires j < |ss| && s == ss[j]
    requires SentencesRun(ss, j, ctx, bNum, before, base).failure.None?
    requires sNum == before + j + 1
    requires at == base + |SentencesRun(ss, j, ctx, bNum, before, base).log|
    ensures SentencesRun(ss, j + 1, ctx, bNum, before, base).log
      == SentencesRun(ss, j, ctx, bNum, before, base).log + SentenceRun(s, ctx, sNum, bNum, at).log
    ensures SentencesRun(ss, j + 1, ctx, bNum, before, base).failure == SentenceRun(s, ctx, sNum, bNum, at).failure
  {
  }

  /** Block i+1 (b, numbered bNum), preceded by `before` sentences and
      written from position `at`. */
  lemma BlocksRunStep(bs: seq<Block>, i: nat, ctx: DocContext, base: nat, b: Block, bNum: nat, before: nat, at: nat)
    requires i < |bs| && b == bs[i] && bNum == i + 1
    requires BlocksRun(bs, i, ctx, base).failure.None?
    requires before == SentenceCount(bs, i)
    requires at == base + |BlocksRun(bs, i, ctx, base).log|
    ensures BlocksRun(bs, i + 1, ctx, base).log
      == BlocksRun(bs, i, ctx, base).log + BlockRun(b, ctx, bNum, before, at).log
    ensures BlocksRun(bs, i + 1, ctx, base).failure == BlockRun(b, ctx, bNum, before, at).failure
  {
  }

  /** Document i+1 of a corpus, written from position `at`. */
  lemma CorpusRunStep(docs: seq<Document>, i: nat, run: (Document, nat) -> Outcome, base: nat, doc: Document, at: nat)
    requires i < |docs| && doc == docs[i]
    requires CorpusRun(docs, i, run, base).failure.None?
    requires at == base + |CorpusRun(docs, i, run, base).log|
    ensures CorpusRun(docs, i + 1, run, base).log == CorpusRun(docs, i, run, base).log + run(doc, at).log
    ensures CorpusRun(docs, i + 1, run, base).failure == run(doc, at).failure
  {
  }

  lemma BlockRunComplete(b: Block, ctx: DocContext, bNum: nat, before: nat, base: nat)
    requires SentencesRun(b.sentences, |b.sentences|, ctx, bNum, before, base).failure.None?
    ensures BlockRun(b, ctx, bNum, before, base)
      == Outcome(SentencesRun(b.sentences, |b.sentences|, ctx, bNum, before, base).log + Aggregate(b, ctx, bNum), None)
  {
  }

  // ------------------------------------------------- an exception ends a run

  lemma {:induction false} SentencesRunStops(ss: seq<Sentence>, m: nat, n: nat, ctx: DocContext, bNum: nat, before: nat, base: nat)
    requires m <= n <= |ss|
    requires SentencesRun(ss, m, ctx, bNum, before, base).failure.Some?
    ensures SentencesRun(ss, n, ctx, bNum, before, base) == SentencesRun(ss, m, ctx, bNum, before, base)
  {
    if m < n {
      SentencesRunStops(ss, m, n - 1, ctx, bNum, before, base);
    }
  }

  lemma {:induction false} BlocksRunStops(bs: seq<Block>, m: nat, n: nat, ctx: DocContext, base: nat)
    requires m <= n <= |bs|
    requires BlocksRun(bs, m, ctx, base).failure.Some?
    ensures BlocksRun(bs, n, ctx, base) == BlocksRun(bs, m, ctx, base)
  {
    if m < n {
      BlocksRunStops(bs, m, n - 1, ctx, base);
    }
  }

  /** Once a document of a corpus fails, no later document writes anything. */
  lemma {:induction false} CorpusRunStops(docs: seq<Document>, m: nat, n: nat, run: (Document, nat) -> Outcome, base: nat)
    requires m <= n <= |docs|
    requires CorpusRun(docs, m, run, base).failure.Some?
    ensures CorpusRun(docs, n, run, base) == CorpusRun(docs, m, run, base)
  {
    if m < n {
      CorpusRunStops(docs, m, n - 1, run, base);
    }
  }
}
