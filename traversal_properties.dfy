/** What the traversal of one document's blocks promises: when it fails,
    the shape of the rows each annotation yields, the numbering of blocks
    and sentences, and the block aggregates. */
module TraversalProperties {
  import opened Wrappers
  import opened Annotations
  import opened DocumentFeatures
  import opened Records
  import opened ExtractionSpec
  import opened ExtractionProperties

  // ----------------------------------------------------------------- failure

  /** The sentences fail exactly when one of their words has no class. */
  lemma {:induction false} SentencesRunFailure(ss: seq<Sentence>, n: nat, ctx: DocContext, bNum: nat, before: nat, base: nat)
    requires n <= |ss|
    ensures SentencesRun(ss, n, ctx, bNum, before, base).failure
      == if SentencesClassified(ss, n) then None else Some(WordClassMissing)
  {
    if n > 0 {
      SentencesRunFailure(ss, n - 1, ctx, bNum, before, base);
      var ws := ss[n - 1].words;
      var k := FirstUnclassified(ws);
      if !SentencesClassified(ss, n - 1) {
        var j, i :| 0 <= j < n - 1 && 0 <= i < |ss[j].words| && !HasClass(ss[j].words[i]);
        assert !SentencesClassified(ss, n);
      } else if k < |ws| {
        assert !HasClass(ss[n - 1].words[k]);
      } else {
        forall j, i | 0 <= j < n && 0 <= i < |ss[j].words|
          ensures HasClass(ss[j].words[i])
        {
          if j == n - 1 {
            assert ss[j].words[i] == ws[i];
          }
        }
      }
    }
  }

  lemma BlocksClassifiedStep(bs: seq<Block>, n: nat)
    requires 0 < n <= |bs|
    ensures BlocksClassified(bs, n)
      <==> BlocksClassified(bs, n - 1) && SentencesClassified(bs[n - 1].sentences, |bs[n - 1].sentences|)
  {
  }

  /** A block fails exactly when one of its words has no class. */
  lemma BlockRunFailure(b: Block, ctx: DocContext, bNum: nat, before: nat, at: nat)
    ensures BlockRun(b, ctx, bNum, before, at).failure
      == if SentencesClassified(b.sentences, |b.sentences|) then None else Some(WordClassMissing)
  {
    SentencesRunFailure(b.sentences, |b.sentences|, ctx, bNum, before, at);
  }

  /** The traversal fails exactly when a word of a selected block has no
      class, and then with that exception only. */
  lemma {:induction false} BlocksRunFailure(bs: seq<Block>, n: nat, ctx: DocContext, base: nat)
    requires n <= |bs|
    ensures BlocksRun(bs, n, ctx, base).failure
      == if BlocksClassified(bs, n) then None else Some(WordClassMissing)
  {
    if n > 0 {
      var prev := BlocksRun(bs, n - 1, ctx, base);
      if prev.failure.None? {
        var b, before, at := bs[n - 1], SentenceCount(bs, n - 1), base + |prev.log|;
        BlocksRunStep(bs, n - 1, ctx, base, b, n, before, at);
        BlockRunFailure(b, ctx, n, before, at);
      }
      BlocksRunFailure(bs, n - 1, ctx, base);
      BlocksClassifiedStep(bs, n);
    }
  }

  // ------------------------------------------------------- rows of a sentence

  /** Object k yields an occurrence row with its own span and instance URI,
      then a term row holding its text and the occurrence row's key. */
  lemma {:induction false} ObjectRecordsAt(os: seq<Span>, n: nat, ctx: DocContext, sNum: nat, bNum: nat, base: nat, k: nat)
    requires k < n <= |os|
    ensures ObjectRecords(os, n, ctx, sNum, bNum, base)[2 * k]
      == Occurrence(ctx.date, os[k].start, os[k].end, sNum, bNum, ctx.docId, Get(os[k].features, InstanceUri))
    ensures ObjectRecords(os, n, ctx, sNum, bNum, base)[2 * k + 1] == Term(base + 2 * k, os[k].text)
  {
    if k < n - 1 {
      ObjectRecordsAt(os, n - 1, ctx, sNum, bNum, base, k);
    }
  }

  /** Word k yields one sentiment-word row with its own span, whatever its class. */
  lemma {:induction false} WordRecordsAt(ws: seq<Span>, n: nat, ctx: DocContext, sNum: nat, bNum: nat, k: nat)
    requires k < n <= |ws|
    ensures WordRecords(ws, n, ctx, sNum, bNum)[k]
      == SentimentWordOccurrence(ctx.date, ws[k].start, ws[k].end, sNum, bNum, ctx.docId, Get(ws[k].features, InstanceUri))
  {
    if k < n - 1 {
      WordRecordsAt(ws, n - 1, ctx, sNum, bNum, k);
    }
  }

  // --------------------------------------------------------------- numbering

  /** Rows of document docId, within blocks bLo..bHi and, for the located
      rows, sentences sLo..sHi; none of them is a document row. */
  predicate Numbered(log: seq<Record>, docId: nat, bLo: nat, bHi: nat, sLo: nat, sHi: nat)
  {
    forall p :: 0 <= p < |log| ==> RowWithin(log[p], docId, bLo, bHi, sLo, sHi)
  }

  predicate RowWithin(r: Record, docId: nat, bLo: nat, bHi: nat, sLo: nat, sHi: nat)
  {
    !r.DocumentRow?
    && (Located(r) ==> r.docId == docId && bLo <= r.blockNum <= bHi && sLo <= r.sentenceNum <= sHi)
    && (r.BlockSentiment? ==> r.docId == docId && bLo <= r.blockNum <= bHi)
  }

  predicate NoAggregate(log: seq<Record>)
  {
    forall p :: 0 <= p < |log| ==> !log[p].BlockSentiment?
  }

  /** Every term row of a log whose first row sits at position start
      follows its occurrence row and carries that row's key. */
  predicate Keyed(log: seq<Record>, start: nat)
  {
    forall p :: 0 <= p < |log| ==> KeyedAt(log, start, p)
  }

  predicate KeyedAt(log: seq<Record>, start: nat, p: nat)
    requires p < |log|
  {
    log[p].Term? ==> 0 < p && log[p - 1].Occurrence? && log[p].occId == start + p - 1
  }

  /** x may come before y: block and sentence numbers never go back, and a
      block aggregate comes after every row of its block. */
  predicate InOrder(x: Record, y: Record)
  {
    (Located(x) && Located(y) ==> x.blockNum <= y.blockNum && x.sentenceNum <= y.sentenceNum)
    && (Located(x) && y.BlockSentiment? ==> x.blockNum <= y.blockNum)
    && (x.BlockSentiment? && (Located(y) || y.BlockSentiment?) ==> x.blockNum < y.blockNum)
  }

  predicate Ordered(log: seq<Record>)
  {
    forall p, q :: 0 <= p < q < |log| ==> InOrderAt(log, p, q)
  }

  predicate InOrderAt(log: seq<Record>, p: nat, q: nat)
    requires p < |log| && q < |log|
  {
    InOrder(log[p], log[q])
  }

  lemma KeyedConcat(a: seq<Record>, b: seq<Record>, start: nat)
    requires Keyed(a, start) && Keyed(b, start + |a|)
    ensures Keyed(a + b, start)
  {
    forall p | 0 <= p < |a + b|
      ensures KeyedAt(a + b, start, p)
    {
      if p < |a| {
        assert KeyedAt(a, start, p);
      } else {
        assert KeyedAt(b, start + |a|, p - |a|);
      }
    }
  }

  lemma OrderedConcat(a: seq<Record>, b: seq<Record>)
    requires Ordered(a) && Ordered(b)
    requires forall p, q :: 0 <= p < |a| && 0 <= q < |b| ==> InOrder(a[p], b[q])
    ensures Ordered(a + b)
  {
    forall p, q | 0 <= p < q < |a + b|
      ensures InOrderAt(a + b, p, q)
    {
      if q < |a| {
        assert InOrderAt(a, p, q);
        assert (a + b)[p] == a[p] && (a + b)[q] == a[q];
      } else if p < |a| {
        assert (a + b)[p] == a[p] && (a + b)[q] == b[q - |a|];
      } else {
        assert InOrderAt(b, p - |a|, q - |a|);
        assert (a + b)[p] == b[p - |a|] && (a + b)[q] == b[q - |a|];
      }
    }
  }

  /** The rows of one sentence: all in that sentence and block, keyed from base. */
  lemma {:induction false} ObjectRecordsNumbered(os: seq<Span>, n: nat, ctx: DocContext, sNum: nat, bNum: nat, base: nat)
    requires n <= |os|
    ensures Numbered(ObjectRecords(os, n, ctx, sNum, bNum, base), ctx.docId, bNum, bNum, sNum, sNum)
    ensures NoAggregate(ObjectRecords(os, n, ctx, sNum, bNum, base))
    ensures Keyed(ObjectRecords(os, n, ctx, sNum, bNum, base), base)
  {
    if n > 0 {
      var prev := ObjectRecords(os, n - 1, ctx, sNum, bNum, base);
      ObjectRecordsNumbered(os, n - 1, ctx, sNum, bNum, base);
      var o := os[n - 1];
      var pair := [Occurrence(ctx.date, o.start, o.end, sNum, bNum, ctx.docId, Get(o.features, InstanceUri)),
                   Term(base + 2 * (n - 1), o.text)];
      KeyedConcat(prev, pair, base);
    }
  }

  lemma {:induction false} WordRecordsNumbered(ws: seq<Span>, n: nat, ctx: DocContext, sNum: nat, bNum: nat, start: nat)
    requires n <= |ws|
    ensures Numbered(WordRecords(ws, n, ctx, sNum, bNum), ctx.docId, bNum, bNum, sNum, sNum)
    ensures NoAggregate(WordRecords(ws, n, ctx, sNum, bNum))
    ensures Keyed(WordRecords(ws, n, ctx, sNum, bNum), start)
  {
    if n > 0 {
      var prev := WordRecords(ws, n - 1, ctx, sNum, bNum);
      WordRecordsNumbered(ws, n - 1, ctx, sNum, bNum, start);
      forall p | 0 <= p < n
        ensures KeyedAt(WordRecords(ws, n, ctx, sNum, bNum), start, p)
      {
        if p < n - 1 {
          assert KeyedAt(prev, start, p);
        }
      }
    }
  }

  lemma SentenceRunNumbered(s: Sentence, ctx: DocContext, sNum: nat, bNum: nat, base: nat)
    ensures Numbered(SentenceRun(s, ctx, sNum, bNum, base).log, ctx.docId, bNum, bNum, sNum, sNum)
    ensures NoAggregate(SentenceRun(s, ctx, sNum, bNum, base).log)
    ensures Keyed(SentenceRun(s, ctx, sNum, bNum, base).log, base)
  {
    var objects := ObjectRecords(s.objects, |s.objects|, ctx, sNum, bNum, base);
    var words := WordRecords(s.words, FirstUnclassified(s.words), ctx, sNum, bNum);
    ObjectRecordsNumbered(s.objects, |s.objects|, ctx, sNum, bNum, base);
    WordRecordsNumbered(s.words, FirstUnclassified(s.words), ctx, sNum, bNum, base + |objects|);
    KeyedConcat(objects, words, base);
  }

  /** Two numbered runs joined lie within any ranges holding both. */
  lemma NumberedConcat(a: seq<Record>, b: seq<Record>, docId: nat, bLa: nat, bHa: nat, sLa: nat, sHa: nat,
                       bLb: nat, bHb: nat, sLb: nat, sHb: nat, bLo: nat, bHi: nat, sLo: nat, sHi: nat)
    requires Numbered(a, docId, bLa, bHa, sLa, sHa) && Numbered(b, docId, bLb, bHb, sLb, sHb)
    requires bLo <= bLa && bLo <= bLb && bHa <= bHi && bHb <= bHi
    requires sLo <= sLa && sLo <= sLb && sHa <= sHi && sHb <= sHi
    ensures Numbered(a + b, docId, bLo, bHi, sLo, sHi)
    ensures NoAggregate(a) && NoAggregate(b) ==> NoAggregate(a + b)
  {
    forall p | 0 <= p < |a + b|
      ensures RowWithin((a + b)[p], docId, bLo, bHi, sLo, sHi)
    {
      if p >= |a| {
        assert (a + b)[p] == b[p - |a|];
      }
    }
    if NoAggregate(a) && NoAggregate(b) {
      forall p | 0 <= p < |a + b|
        ensures !(a + b)[p].BlockSentiment?
      {
        if p >= |a| {
          assert (a + b)[p] == b[p - |a|];
        }
      }
    }
  }

  /** Rows of a single sentence, with no aggregate among them, are in order. */
  lemma SingleSentenceOrdered(log: seq<Record>, docId: nat, bNum: nat, sNum: nat)
    requires Numbered(log, docId, bNum, bNum, sNum, sNum) && NoAggregate(log)
    ensures Ordered(log)
  {
    forall p, q | 0 <= p < q < |log|
      ensures InOrderAt(log, p, q)
    {
      assert RowWithin(log[p], docId, bNum, bNum, sNum, sNum) && RowWithin(log[q], docId, bNum, bNum, sNum, sNum);
    }
  }

  /** Two runs joined: numbers never go back across the seam. */
  lemma OrderedJoin(a: seq<Record>, b: seq<Record>, docId: nat, bLa: nat, bHa: nat, sLa: nat, sHa: nat,
                    bLb: nat, bHb: nat, sLb: nat, sHb: nat)
    requires Ordered(a) && Ordered(b)
    requires Numbered(a, docId, bLa, bHa, sLa, sHa) && Numbered(b, docId, bLb, bHb, sLb, sHb)
    requires bHa <= bLb && sHa <= sLb
    requires bHa < bLb || NoAggregate(a)
    ensures Ordered(a + b)
  {
    forall p, q | 0 <= p < |a| && 0 <= q < |b|
      ensures InOrder(a[p], b[q])
    {
      assert RowWithin(a[p], docId, bLa, bHa, sLa, sHa) && RowWithin(b[q], docId, bLb, bHb, sLb, sHb);
    }
    OrderedConcat(a, b);
  }

  /** The sentences of block bNum: numbered before+1, before+2, ... and
      keyed, without an aggregate. */
  lemma {:induction false} SentencesRunNumbered(ss: seq<Sentence>, n: nat, ctx: DocContext, bNum: nat, before: nat, base: nat)
    requires n <= |ss|
    ensures Numbered(SentencesRun(ss, n, ctx, bNum, before, base).log, ctx.docId, bNum, bNum, before + 1, before + n)
    ensures NoAggregate(SentencesRun(ss, n, ctx, bNum, before, base).log)
  {
    if n > 0 {
      var prev := SentencesRun(ss, n - 1, ctx, bNum, before, base);
      if prev.failure.None? {
        var at := base + |prev.log|;
        var last := SentenceRun(ss[n - 1], ctx, before + n, bNum, at).log;
        assert SentencesRun(ss, n, ctx, bNum, before, base).log == prev.log + last;
        SentencesRunNumbered(ss, n - 1, ctx, bNum, before, base);
        SentenceRunNumbered(ss[n - 1], ctx, before + n, bNum, at);
        NumberedConcat(prev.log, last, ctx.docId, bNum, bNum, before + 1, before + n - 1,
                       bNum, bNum, before + n, before + n, bNum, bNum, before + 1, before + n);
      } else {
        assert SentencesRun(ss, n, ctx, bNum, before, base) == prev;
        SentencesRunNumbered(ss, n - 1, ctx, bNum, before, base);
        NumberedConcat(prev.log, [], ctx.docId, bNum, bNum, before + 1, before + n - 1,
                       bNum, bNum, before + n, before + n, bNum, bNum, before + 1, before + n);
        assert prev.log + [] == prev.log;
      }
    }
  }


  lemma {:induction false} SentencesRunKeyed(ss: seq<Sentence>, n: nat, ctx: DocContext, bNum: nat, before: nat, base: nat)
    requires n <= |ss|
    ensures Keyed(SentencesRun(ss, n, ctx, bNum, before, base).log, base)
  {
    if n > 0 {
      var prev := SentencesRun(ss, n - 1, ctx, bNum, before, base);
      if prev.failure.None? {
        var at := base + |prev.log|;
        var last := SentenceRun(ss[n - 1], ctx, before + n, bNum, at).log;
        assert SentencesRun(ss, n, ctx, bNum, before, base).log == prev.log + last;
        SentencesRunKeyed(ss, n - 1, ctx, bNum, before, base);
        SentenceRunNumbered(ss[n - 1], ctx, before + n, bNum, at);
        KeyedConcat(prev.log, last, base);
      } else {
        assert SentencesRun(ss, n, ctx, bNum, before, base) == prev;
        SentencesRunKeyed(ss, n - 1, ctx, bNum, before, base);
      }
    }
  }


  /** Sentence numbers never go back within a block. */
  lemma {:induction false} SentencesRunOrdered(ss: seq<Sentence>, n: nat, ctx: DocContext, bNum: nat, before: nat, base: nat)
    requires n <= |ss|
    ensures Ordered(SentencesRun(ss, n, ctx, bNum, before, base).log)
  {
    if n > 0 {
      var prev := SentencesRun(ss, n - 1, ctx, bNum, before, base);
      if prev.failure.None? {
        var at := base + |prev.log|;
        var last := SentenceRun(ss[n - 1], ctx, before + n, bNum, at).log;
        assert SentencesRun(ss, n, ctx, bNum, before, base).log == prev.log + last;
        SentencesRunOrdered(ss, n - 1, ctx, bNum, before, base);
        SentencesRunNumbered(ss, n - 1, ctx, bNum, before, base);
        SentenceRunNumbered(ss[n - 1], ctx, before + n, bNum, at);
        SingleSentenceOrdered(last, ctx.docId, bNum, before + n);
        OrderedJoin(prev.log, last, ctx.docId, bNum, bNum, before + 1, before + n - 1, bNum, bNum, before + n, before + n);
      } else {
        assert SentencesRun(ss, n, ctx, bNum, before, base) == prev;
        SentencesRunOrdered(ss, n - 1, ctx, bNum, before, base);
      }
    }
  }


  // ------------------------------------------------------------------ blocks

  /** Located rows of block k carry sentence numbers SentenceCount(bs, k-1)+1 .. SentenceCount(bs, k). */
  predicate BlockSentences(log: seq<Record>, bs: seq<Block>, n: nat)
    requires n <= |bs|
  {
    forall p :: 0 <= p < |log| ==> SentencesOfItsBlock(log[p], bs, n)
  }

  predicate SentencesOfItsBlock(r: Record, bs: seq<Block>, n: nat)
    requires n <= |bs|
  {
    Located(r) ==>
      1 <= r.blockNum <= n
      && SentenceCount(bs, r.blockNum - 1) < r.sentenceNum <= SentenceCount(bs, r.blockNum)
  }

  lemma AggregateNumbered(b: Block, ctx: DocContext, bNum: nat, sLo: nat, sHi: nat, start: nat)
    ensures Numbered(Aggregate(b, ctx, bNum), ctx.docId, bNum, bNum, sLo, sHi)
    ensures Keyed(Aggregate(b, ctx, bNum), start)
    ensures Ordered(Aggregate(b, ctx, bNum))
  {
    if |Aggregate(b, ctx, bNum)| == 1 {
      assert KeyedAt(Aggregate(b, ctx, bNum), start, 0);
    }
  }

  /** One block: its sentences' rows, then its aggregate, all numbered
      within the block, keyed and in order. */
  lemma BlockRunNumbered(b: Block, ctx: DocContext, bNum: nat, before: nat, base: nat)
    ensures Numbered(BlockRun(b, ctx, bNum, before, base).log, ctx.docId, bNum, bNum, before + 1, before + |b.sentences|)
    ensures Keyed(BlockRun(b, ctx, bNum, before, base).log, base)
    ensures Ordered(BlockRun(b, ctx, bNum, before, base).log)
  {
    var n := |b.sentences|;
    var sl := SentencesRun(b.sentences, n, ctx, bNum, before, base).log;
    SentencesRunNumbered(b.sentences, n, ctx, bNum, before, base);
    SentencesRunKeyed(b.sentences, n, ctx, bNum, before, base);
    SentencesRunOrdered(b.sentences, n, ctx, bNum, before, base);
    if SentencesRun(b.sentences, n, ctx, bNum, before, base).failure.None? {
      var agg := Aggregate(b, ctx, bNum);
      AggregateNumbered(b, ctx, bNum, before + 1, before + n, base + |sl|);
      AggregateNumbered(b, ctx, bNum, before + n, before + n, base + |sl|);
      NumberedConcat(sl, agg, ctx.docId, bNum, bNum, before + 1, before + n, bNum, bNum, before + 1, before + n,
                     bNum, bNum, before + 1, before + n);
      KeyedConcat(sl, agg, base);
      OrderedJoin(sl, agg, ctx.docId, bNum, bNum, before + 1, before + n, bNum, bNum, before + n, before + n);
    }
  }

  lemma BlockSentencesConcat(a: seq<Record>, b: seq<Record>, bs: seq<Block>, n: nat, docId: nat)
    requires 0 < n <= |bs|
    requires BlockSentences(a, bs, n - 1)
    requires Numbered(b, docId, n, n, SentenceCount(bs, n - 1) + 1, SentenceCount(bs, n))
    ensures BlockSentences(a + b, bs, n)
  {
    forall p | 0 <= p < |a + b|
      ensures SentencesOfItsBlock((a + b)[p], bs, n)
    {
      if p < |a| {
        assert SentencesOfItsBlock(a[p], bs, n - 1);
      } else {
        assert RowWithin(b[p - |a|], docId, n, n, SentenceCount(bs, n - 1) + 1, SentenceCount(bs, n));
      }
    }
  }

  /** The traversal of the first n blocks: block numbers 1..n, sentence
      numbers running on across blocks, every row belonging to the document
      whose row sits at ctx.docId. */
  lemma {:induction false} BlocksRunNumbered(bs: seq<Block>, n: nat, ctx: DocContext, base: nat)
    requires n <= |bs|
    ensures Numbered(BlocksRun(bs, n, ctx, base).log, ctx.docId, 1, n, 1, SentenceCount(bs, n))
    ensures BlockSentences(BlocksRun(bs, n, ctx, base).log, bs, n)
  {
    if n > 0 {
      var prev := BlocksRun(bs, n - 1, ctx, base);
      var before := SentenceCount(bs, n - 1);
      var after := before + |bs[n - 1].sentences|;
      assert SentenceCount(bs, n) == after;
      if prev.failure.None? {
        var at := base + |prev.log|;
        var last := BlockRun(bs[n - 1], ctx, n, before, at).log;
        assert BlocksRun(bs, n, ctx, base).log == prev.log + last;
        BlocksRunNumbered(bs, n - 1, ctx, base);
        BlockRunNumbered(bs[n - 1], ctx, n, before, at);
        NumberedConcat(prev.log, last, ctx.docId, 1, n - 1, 1, before, n, n, before + 1, after, 1, n, 1, after);
        BlockSentencesConcat(prev.log, last, bs, n, ctx.docId);
      } else {
        assert BlocksRun(bs, n, ctx, base) == prev;
        BlocksRunNumbered(bs, n - 1, ctx, base);
        NumberedConcat(prev.log, [], ctx.docId, 1, n - 1, 1, before, 1, n, 1, after, 1, n, 1, after);
        assert prev.log + [] == prev.log;
        assert BlockSentences(prev.log, bs, n) by {
          forall p | 0 <= p < |prev.log|
            ensures SentencesOfItsBlock(prev.log[p], bs, n)
          {
            assert SentencesOfItsBlock(prev.log[p], bs, n - 1);
          }
        }
      }
    }
  }


  /** Every term row of the traversal follows its occurrence row and holds its key. */
  lemma {:induction false} BlocksRunKeyed(bs: seq<Block>, n: nat, ctx: DocContext, base: nat)
    requires n <= |bs|
    ensures Keyed(BlocksRun(bs, n, ctx, base).log, base)
  {
    if n > 0 {
      var prev := BlocksRun(bs, n - 1, ctx, base);
      if prev.failure.None? {
        var before := SentenceCount(bs, n - 1);
        var at := base + |prev.log|;
        var last := BlockRun(bs[n - 1], ctx, n, before, at).log;
        assert BlocksRun(bs, n, ctx, base).log == prev.log + last;
        BlocksRunKeyed(bs, n - 1, ctx, base);
        BlockRunNumbered(bs[n - 1], ctx, n, before, at);
        KeyedConcat(prev.log, last, base);
      } else {
        assert BlocksRun(bs, n, ctx, base) == prev;
        BlocksRunKeyed(bs, n - 1, ctx, base);
      }
    }
  }


  /** Block and sentence numbers never go back over the whole traversal,
      and each block aggregate follows every row of its block. */
  lemma {:induction false} BlocksRunOrdered(bs: seq<Block>, n: nat, ctx: DocContext, base: nat)
    requires n <= |bs|
    ensures Ordered(BlocksRun(bs, n, ctx, base).log)
  {
    if n > 0 {
      var prev := BlocksRun(bs, n - 1, ctx, base);
      if prev.failure.None? {
        var before := SentenceCount(bs, n - 1);
        var at := base + |prev.log|;
        var last := BlockRun(bs[n - 1], ctx, n, before, at).log;
        assert BlocksRun(bs, n, ctx, base).log == prev.log + last;
        BlocksRunOrdered(bs, n - 1, ctx, base);
        BlocksRunNumbered(bs, n - 1, ctx, base);
        BlockRunNumbered(bs[n - 1], ctx, n, before, at);
        OrderedJoin(prev.log, last, ctx.docId, 1, n - 1, 1, before, n, n, before + 1, before + |bs[n - 1].sentences|);
      } else {
        assert BlocksRun(bs, n, ctx, base) == prev;
        BlocksRunOrdered(bs, n - 1, ctx, base);
      }
    }
  }

}
