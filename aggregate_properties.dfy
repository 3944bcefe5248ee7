/** What the block aggregates and the polarity counters promise: one
    aggregate exactly for each block with a positive or a negative word,
    holding that block's own counts, and aggregates that add up to the
    document totals. */
module AggregateProperties {
  import opened Wrappers
  import opened Annotations
  import opened DocumentFeatures
  import opened Records
  import opened ExtractionSpec
  import opened TraversalProperties

  // ---------------------------------------------------------------- counters

  /** A word counts as positive or as negative, never as both, and a word
      with any other class counts as neither; so the two counters never
      exceed the number of sentiment-word rows. */
  lemma {:induction false} CountsBounded(ws: seq<Span>, n: nat)
    requires n <= |ws|
    ensures PositiveCount(ws, n) + NegativeCount(ws, n) <= n
  {
    if n > 0 {
      CountsBounded(ws, n - 1);
    }
  }

  /** Words whose class ends in neither suffix leave both counters unchanged. */
  lemma {:induction false} CountsIgnoreOthers(ws: seq<Span>, n: nat)
    requires n <= |ws|
    requires forall i :: 0 <= i < n ==> WordPolarity(ws[i]) == Unclassified
    ensures PositiveCount(ws, n) == 0 && NegativeCount(ws, n) == 0
  {
    if n > 0 {
      CountsIgnoreOthers(ws, n - 1);
    }
  }

  // -------------------------------------------------------------- aggregates

  /** The block's positive or negative count is nonzero. */
  predicate Emitted(b: Block)
  {
    BlockPositive(b) != 0 || BlockNegative(b) != 0
  }

  predicate AggregateAt(log: seq<Record>, p: nat, bNum: nat)
    requires p < |log|
  {
    log[p].BlockSentiment? && log[p].blockNum == bNum
  }

  predicate HasAggregate(log: seq<Record>, bNum: nat)
  {
    exists p :: 0 <= p < |log| && AggregateAt(log, p, bNum)
  }

  /** Every aggregate of the log names one of blocks lo..hi and holds that
      block's counts and token count. */
  predicate AggregatesFaithful(log: seq<Record>, bs: seq<Block>, lo: nat, hi: nat, docId: nat)
    requires hi <= |bs|
  {
    forall p :: 0 <= p < |log| ==> FaithfulAt(log, p, bs, lo, hi, docId)
  }

  predicate FaithfulAt(log: seq<Record>, p: nat, bs: seq<Block>, lo: nat, hi: nat, docId: nat)
    requires p < |log| && hi <= |bs|
  {
    var r := log[p];
    r.BlockSentiment? ==>
      1 <= lo <= r.blockNum <= hi
      && r == BlockSentiment(docId, r.blockNum, BlockPositive(bs[r.blockNum - 1]),
                             BlockNegative(bs[r.blockNum - 1]), bs[r.blockNum - 1].tokens)
  }

  lemma HasAggregateConcat(a: seq<Record>, b: seq<Record>, bNum: nat)
    ensures HasAggregate(a + b, bNum) <==> HasAggregate(a, bNum) || HasAggregate(b, bNum)
  {
    if HasAggregate(a + b, bNum) {
      var p :| 0 <= p < |a + b| && AggregateAt(a + b, p, bNum);
      if p < |a| {
        assert AggregateAt(a, p, bNum);
      } else {
        assert AggregateAt(b, p - |a|, bNum);
      }
    }
    if HasAggregate(a, bNum) {
      var p :| 0 <= p < |a| && AggregateAt(a, p, bNum);
      assert AggregateAt(a + b, p, bNum);
    }
    if HasAggregate(b, bNum) {
      var p :| 0 <= p < |b| && AggregateAt(b, p, bNum);
      assert AggregateAt(a + b, |a| + p, bNum);
    }
  }

  lemma NoAggregateHasNone(log: seq<Record>, bNum: nat)
    requires NoAggregate(log)
    ensures !HasAggregate(log, bNum)
  {
    forall p | 0 <= p < |log|
      ensures !AggregateAt(log, p, bNum)
    {
      assert !log[p].BlockSentiment?;
    }
  }

  /** One block's rows: its aggregate is there exactly when the block has
      sentiment, and it holds that block's counts. */
  lemma BlockRunAggregate(bs: seq<Block>, n: nat, ctx: DocContext, before: nat, base: nat)
    requires 0 < n <= |bs|
    requires BlockRun(bs[n - 1], ctx, n, before, base).failure.None?
    ensures AggregatesFaithful(BlockRun(bs[n - 1], ctx, n, before, base).log, bs, n, n, ctx.docId)
    ensures HasAggregate(BlockRun(bs[n - 1], ctx, n, before, base).log, n) <==> Emitted(bs[n - 1])
  {
    var b := bs[n - 1];
    var sl := SentencesRun(b.sentences, |b.sentences|, ctx, n, before, base).log;
    var agg := Aggregate(b, ctx, n);
    assert BlockRun(b, ctx, n, before, base).log == sl + agg;
    SentencesRunNumbered(b.sentences, |b.sentences|, ctx, n, before, base);
    forall p | 0 <= p < |sl + agg|
      ensures FaithfulAt(sl + agg, p, bs, n, n, ctx.docId)
    {
      if p < |sl| {
        assert !sl[p].BlockSentiment?;
      } else {
        assert (sl + agg)[p] == agg[p - |sl|];
      }
    }
    NoAggregateHasNone(sl, n);
    HasAggregateConcat(sl, agg, n);
    if Emitted(b) {
      assert AggregateAt(agg, 0, n);
    }
  }

  /** Aggregates only for blocks lo..hi: none for any other block. */
  lemma FaithfulHasNone(log: seq<Record>, bs: seq<Block>, lo: nat, hi: nat, docId: nat, k: nat)
    requires hi <= |bs| && AggregatesFaithful(log, bs, lo, hi, docId)
    requires k < lo || hi < k
    ensures !HasAggregate(log, k)
  {
    forall p | 0 <= p < |log|
      ensures !AggregateAt(log, p, k)
    {
      assert FaithfulAt(log, p, bs, lo, hi, docId);
    }
  }

  lemma FaithfulConcat(a: seq<Record>, b: seq<Record>, bs: seq<Block>, loA: nat, hiA: nat, loB: nat, hiB: nat,
                       lo: nat, hi: nat, docId: nat)
    requires hiA <= |bs| && hiB <= |bs| && hi <= |bs|
    requires AggregatesFaithful(a, bs, loA, hiA, docId) && AggregatesFaithful(b, bs, loB, hiB, docId)
    requires 1 <= lo <= loA && lo <= loB && hiA <= hi && hiB <= hi
    ensures AggregatesFaithful(a + b, bs, lo, hi, docId)
  {
    forall p | 0 <= p < |a + b|
      ensures FaithfulAt(a + b, p, bs, lo, hi, docId)
    {
      if p < |a| {
        assert FaithfulAt(a, p, bs, loA, hiA, docId);
      } else {
        assert FaithfulAt(b, p - |a|, bs, loB, hiB, docId);
      }
    }
  }

  lemma EmittedConcat(a: seq<Record>, b: seq<Record>, bs: seq<Block>, n: nat, docId: nat)
    requires 0 < n <= |bs|
    requires AggregatesFaithful(a, bs, 1, n - 1, docId) && AggregatesFaithful(b, bs, n, n, docId)
    requires forall k :: 1 <= k <= n - 1 ==> (HasAggregate(a, k) <==> Emitted(bs[k - 1]))
    requires HasAggregate(b, n) <==> Emitted(bs[n - 1])
    ensures forall k :: 1 <= k <= n ==> (HasAggregate(a + b, k) <==> Emitted(bs[k - 1]))
  {
    forall k | 1 <= k <= n
      ensures HasAggregate(a + b, k) <==> Emitted(bs[k - 1])
    {
      HasAggregateConcat(a, b, k);
      if k < n {
        FaithfulHasNone(b, bs, n, n, docId, k);
      } else {
        FaithfulHasNone(a, bs, 1, n - 1, docId, k);
      }
    }
  }

  /** Over a traversal that completes: every aggregate holds its own block's
      counts and token count, and block k has an aggregate exactly when its
      positive or negative count is nonzero. */
  lemma {:induction false} BlocksRunAggregates(bs: seq<Block>, n: nat, ctx: DocContext, base: nat)
    requires n <= |bs|
    requires BlocksRun(bs, n, ctx, base).failure.None?
    ensures AggregatesFaithful(BlocksRun(bs, n, ctx, base).log, bs, 1, n, ctx.docId)
    ensures forall k :: 1 <= k <= n ==> (HasAggregate(BlocksRun(bs, n, ctx, base).log, k) <==> Emitted(bs[k - 1]))
  {
    if n > 0 {
      var prev := BlocksRun(bs, n - 1, ctx, base);
      var before := SentenceCount(bs, n - 1);
      assert prev.failure.None?;
      var at := base + |prev.log|;
      var last := BlockRun(bs[n - 1], ctx, n, before, at).log;
      assert BlocksRun(bs, n, ctx, base).log == prev.log + last;
      BlocksRunAggregates(bs, n - 1, ctx, base);
      BlockRunAggregate(bs, n, ctx, before, at);
      FaithfulConcat(prev.log, last, bs, 1, n - 1, n, n, 1, n, ctx.docId);
      EmittedConcat(prev.log, last, bs, n, ctx.docId);
    }
  }

  /** In an ordered log there is at most one aggregate per block: none
      after the first. */
  lemma AggregateUnique(log: seq<Record>, p: nat, q: nat, bNum: nat)
    requires Ordered(log)
    requires p < q < |log| && AggregateAt(log, p, bNum)
    ensures !AggregateAt(log, q, bNum)
  {
    assert InOrderAt(log, p, q);
  }

  // -------------------------------------------------------------------- sums

  /** What an aggregate row adds to the positive (or the negative) total. */
  function Tally(r: Record, positive: bool): nat
  {
    if !r.BlockSentiment? then 0 else if positive then r.positive else r.negative
  }

  /** The positive (or negative) counts of the aggregate rows of a log, added up. */
  function AggregateSum(log: seq<Record>, positive: bool): nat
  {
    if |log| == 0 then 0 else AggregateSum(log[..|log| - 1], positive) + Tally(log[|log| - 1], positive)
  }

  lemma {:induction false} AggregateSumConcat(a: seq<Record>, b: seq<Record>, positive: bool)
    ensures AggregateSum(a + b, positive) == AggregateSum(a, positive) + AggregateSum(b, positive)
    decreases |b|
  {
    if |b| > 0 {
      assert (a + b)[..|a + b| - 1] == a + b[..|b| - 1];
      AggregateSumConcat(a, b[..|b| - 1], positive);
    } else {
      assert a + b == a;
    }
  }

  lemma {:induction false} NoAggregateSum(log: seq<Record>, positive: bool)
    requires NoAggregate(log)
    ensures AggregateSum(log, positive) == 0
    decreases |log|
  {
    if |log| > 0 {
      var init := log[..|log| - 1];
      assert NoAggregate(init) by {
        forall p | 0 <= p < |init|
          ensures !init[p].BlockSentiment?
        {
          assert init[p] == log[p];
        }
      }
      NoAggregateSum(init, positive);
      assert !log[|log| - 1].BlockSentiment?;
    }
  }

  /** A block's aggregate adds exactly that block's counts, and a block that
      emits none has none to add. */
  lemma AggregateSumOfBlock(b: Block, ctx: DocContext, bNum: nat)
    ensures AggregateSum(Aggregate(b, ctx, bNum), true) == BlockPositive(b)
    ensures AggregateSum(Aggregate(b, ctx, bNum), false) == BlockNegative(b)
  {
    var agg := Aggregate(b, ctx, bNum);
    if |agg| == 1 {
      assert agg[..0] == [];
    }
  }

  /** Over a traversal that completes, the aggregates add up to the document
      totals, blocks without an aggregate included. */
  lemma {:induction false} BlocksRunSums(bs: seq<Block>, n: nat, ctx: DocContext, base: nat)
    requires n <= |bs|
    requires BlocksRun(bs, n, ctx, base).failure.None?
    ensures AggregateSum(BlocksRun(bs, n, ctx, base).log, true) == DocumentPositive(bs, n)
    ensures AggregateSum(BlocksRun(bs, n, ctx, base).log, false) == DocumentNegative(bs, n)
  {
    if n > 0 {
      var prev := BlocksRun(bs, n - 1, ctx, base);
      var before := SentenceCount(bs, n - 1);
      assert prev.failure.None?;
      var at := base + |prev.log|;
      var b := bs[n - 1];
      var sl := SentencesRun(b.sentences, |b.sentences|, ctx, n, before, at).log;
      var agg := Aggregate(b, ctx, n);
      assert BlocksRun(bs, n, ctx, base).log == prev.log + (sl + agg);
      BlocksRunSums(bs, n - 1, ctx, base);
      SentencesRunNumbered(b.sentences, |b.sentences|, ctx, n, before, at);
      NoAggregateSum(sl, true);
      NoAggregateSum(sl, false);
      AggregateSumOfBlock(b, ctx, n);
      AggregateSumConcat(sl, agg, true);
      AggregateSumConcat(sl, agg, false);
      AggregateSumConcat(prev.log, sl + agg, true);
      AggregateSumConcat(prev.log, sl + agg, false);
    }
  }
}
