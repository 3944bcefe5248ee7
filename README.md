# Occurrence writer: a verified model

This project models `OccurrenceWriterComponent.ConsumeData` from the LATINO
workflow library. The component takes a corpus of annotated news documents
and, for each document in turn:

- reads its features, with defaults for the optional ones;
- settles the document's effective date;
- writes the document row;
- walks the blocks selected by the document's revision. For each block it
  walks its sentences, and for each sentence its SentimentObject and
  SentimentWord spans. It writes an occurrence row and a term row per object,
  a sentiment-word row per word, and a block-sentiment row per block that
  holds a positive or a negative word.

Every child row carries the document row's surrogate key. Sentence numbers
run across the whole document.

The model is layered as follows.

- `Annotations` holds the annotated document as the writer sees it. A block
  holds its sentences; a sentence holds its object spans and word spans. Its
  "Token" range queries are kept as counts.
- `DocumentFeatures` holds the expression-level rules:
  - the `?? ""` defaults;
  - the exact `"True"` test;
  - the block selector;
  - the effective day;
  - the polarity suffix test;
  - the buffer that the document identifier is digested from.
- `Records` holds the rows handed to the persistence gateway, the exceptions
  that abort a run, and the foreign calls (date, number and GUID parsing, the
  MD5 digest), which are passed in as parameters.
- `ExtractionSpec` defines, position by position, what a run writes:
  - the rows of the first n objects, words, sentences, blocks and documents;
  - the exception that ends the run.
- `OccurrenceWriter` is the writer itself: one method per loop of the
  source, each appending to a log. Each method is proved to write exactly
  what `ExtractionSpec` defines.
- `ExtractionProperties`, `TraversalProperties`, `AggregateProperties` and
  `DocumentProperties` prove what the writer promises: numbering, keying,
  order, aggregates, sums, the document row and the exceptions.

A `ToDb.*` call is an append to the log. The surrogate key it returns is
modelled as the position of the written row in the log. The document row's
key is therefore its own position, and an occurrence row's key is the
position of that occurrence row.

## Model

| member | source | states |
|---|---|---|
| DocumentFeatures.OrEmpty | OccurrenceWriterComponent.cs:42-48 | an absent feature reads as "", a present one as its own value |
| DocumentFeatures.IsFinancial | OccurrenceWriterComponent.cs:64 | the flag holds exactly when the feature is present and equals "True" |
| DocumentFeatures.IsFinancialOnlyExactTrue | OccurrenceWriterComponent.cs:64 | "True" sets the flag; "true", "TRUE", "False", "" and an absent feature do not |
| DocumentFeatures.BlockSelector | OccurrenceWriterComponent.cs:76-81 | the selector is TextBlock/Content exactly when rev is "1", otherwise TextBlock/Content/Unseen (an absent rev included) |
| DocumentFeatures.EffectiveDay | OccurrenceWriterComponent.cs:47-60 | the date written is either the ingestion day or the publication day; which one, for every input, is stated by EffectiveDayBounds |
| DocumentFeatures.EffectiveDayBounds | OccurrenceWriterComponent.cs:47-60 | the date is never after the ingestion day and at most three days before it; it is the publication day exactly when the publication time parsed, is strictly before ingestion and less than three days (in ticks) before it; an unparsable publication date, one not strictly before ingestion, or one three days or more before ingestion leaves the ingestion day |
| DocumentFeatures.EffectiveDayExamples | OccurrenceWriterComponent.cs:54-58 | a publication two days earlier is used; one five days earlier, one two days later, or an unparsable one is not |
| DocumentFeatures.ClassifyBySuffix | OccurrenceWriterComponent.cs:122-133 | a class URI counts as positive exactly when it ends with "PositiveWord", as negative exactly when it ends with "NegativeWord", and otherwise as neither |
| DocumentFeatures.DigestInput | OccurrenceWriterComponent.cs:68-70 | the digested buffer is 32 bytes long: the corpus GUID's 16 bytes first, then the document GUID's 16 bytes |
| DocumentFeatures.DigestInputInjective | OccurrenceWriterComponent.cs:66-71 | the buffer determines both the corpus GUID and the document GUID |
| DocumentFeatures.DigestInputOrderSensitive | OccurrenceWriterComponent.cs:68-70 | swapping the corpus and document GUIDs gives the same buffer only when they are equal |
| Annotations.Layer | OccurrenceWriterComponent.cs:87 | a selector with no annotations yields no blocks |
| ExtractionSpec.FirstUnclassified | OccurrenceWriterComponent.cs:114-122 | every word before the returned index has a class URI, and the word at that index (if any) has none |
| ExtractionSpec.ObjectRecords | OccurrenceWriterComponent.cs:101-111 | n objects give exactly 2n rows |
| ExtractionSpec.WordRecords | OccurrenceWriterComponent.cs:114-136 | n words give exactly n rows |
| OccurrenceWriter.EmitObjects | OccurrenceWriterComponent.cs:101-111 | the object loop appends exactly the ObjectRecords of the sentence's objects |
| OccurrenceWriter.EmitWords | OccurrenceWriterComponent.cs:114-136 | the word loop fails exactly when some word has no class, having appended the rows of the words before the first such word. Otherwise the block and document counters grow by the positive and negative word counts |
| OccurrenceWriter.EmitSentence | OccurrenceWriterComponent.cs:94-137 | one sentence's rows are its objects' rows, then its words' rows; it fails exactly when a word has no class; the counters grow by its polarity counts |
| OccurrenceWriter.EmitBlock | OccurrenceWriterComponent.cs:89-142 | the sentences continue the document's numbering; the block counters start at 0; the aggregate row is written after the sentences; the document counters grow by the block's counts |
| OccurrenceWriter.ExtractOccurrences | OccurrenceWriterComponent.cs:84-143 | the block loop numbers blocks 1..n; the token total and the positive and negative totals equal the sums over all blocks; the log equals BlocksRun |
| OccurrenceWriter.ConsumeDocument | OccurrenceWriterComponent.cs:36-143 | one document appends exactly DocumentRun: its exceptions, then the document row, then the traversal keyed by the row's position |
| OccurrenceWriter.ConsumeData | OccurrenceWriterComponent.cs:31-145 | the corpus loop writes CorpusRun: documents in order, each starting where the previous one ended; the first exception ends the run and keeps earlier rows |
| OccurrenceWriter.WriterStep | OccurrenceWriterComponent.cs:34-35 | one more document extends the corpus run by that document's rows; a failing document is the last one that writes |
| ExtractionProperties.SentencesRunStep | OccurrenceWriterComponent.cs:94-98 | unfolding step used by the loop proofs: sentence j+1 of a block is numbered before+j+1 and its rows follow the earlier sentences' rows |
| ExtractionProperties.BlocksRunStep | OccurrenceWriterComponent.cs:87-98 | unfolding step used by the loop proofs: block i+1 is numbered i+1, its sentences continue after SentenceCount(i), and its rows follow the earlier blocks' rows |
| ExtractionProperties.CorpusRunStep | OccurrenceWriterComponent.cs:34-35 | unfolding step used by the loop proofs: document i+1 is written from the position where the earlier documents ended |
| ExtractionProperties.BlockRunComplete | OccurrenceWriterComponent.cs:138-142 | unfolding step used by the loop proofs: a block whose sentences all succeed writes its sentences' rows followed by its aggregate |
| ExtractionProperties.SentencesRunStops | OccurrenceWriterComponent.cs:94-137 | once a sentence fails, later sentences of the block write nothing |
| ExtractionProperties.BlocksRunStops | OccurrenceWriterComponent.cs:87-143 | once a block fails, later blocks write nothing |
| ExtractionProperties.CorpusRunStops | OccurrenceWriterComponent.cs:34-144 | once a document raises, later documents write nothing |
| TraversalProperties.SentencesRunFailure | OccurrenceWriterComponent.cs:114-122 | sentences fail exactly when one of their words has no class, and then with that exception |
| TraversalProperties.BlockRunFailure | OccurrenceWriterComponent.cs:94-137 | a block fails exactly when one of its words has no class |
| TraversalProperties.BlocksRunFailure | OccurrenceWriterComponent.cs:87-143 | the traversal fails exactly when a word of a selected block has no class |
| TraversalProperties.ObjectRecordsAt | OccurrenceWriterComponent.cs:101-111 | object k gives an occurrence row with the object's own span, the sentence and block numbers, the document key and its instanceUri, followed by a term row holding its text and the occurrence row's key |
| TraversalProperties.WordRecordsAt | OccurrenceWriterComponent.cs:114-135 | word k gives one sentiment-word row with its own span, numbers, document key and instanceUri, whatever its class |
| TraversalProperties.ObjectRecordsNumbered | OccurrenceWriterComponent.cs:101-111 | object rows carry the current sentence and block numbers and document key; every term row follows its occurrence row and holds its key |
| TraversalProperties.WordRecordsNumbered | OccurrenceWriterComponent.cs:114-135 | word rows carry the current sentence and block numbers and document key; none is an aggregate or a term |
| TraversalProperties.SentenceRunNumbered | OccurrenceWriterComponent.cs:98-136 | one sentence's rows all carry its number, its block's number and the document key, and are keyed |
| TraversalProperties.SentencesRunNumbered | OccurrenceWriterComponent.cs:94-98 | the sentences of a block carry numbers before+1..before+n and the block's number |
| TraversalProperties.SentencesRunKeyed | OccurrenceWriterComponent.cs:109-110 | in a block's sentence rows, every term row follows its occurrence row and holds its key |
| TraversalProperties.SentencesRunOrdered | OccurrenceWriterComponent.cs:94-98 | sentence numbers never go back within a block |
| TraversalProperties.AggregateNumbered | OccurrenceWriterComponent.cs:139-142 | the aggregate row carries the document key and the block's number |
| TraversalProperties.BlockRunNumbered | OccurrenceWriterComponent.cs:89-143 | one block's rows carry its number and the sentence numbers after those of the earlier blocks; they are keyed and in order |
| TraversalProperties.BlocksRunNumbered | OccurrenceWriterComponent.cs:36-98 | over the traversal, blocks are numbered 1..n; the sentences of block k are numbered SentenceCount(k-1)+1..SentenceCount(k) (never reset); there is no document row among the children |
| TraversalProperties.BlocksRunKeyed | OccurrenceWriterComponent.cs:109-110 | over the traversal, every term row follows its occurrence row and holds its key |
| TraversalProperties.BlocksRunOrdered | OccurrenceWriterComponent.cs:87-142 | block and sentence numbers never go back; a block's aggregate follows every row of its block |
| AggregateProperties.CountsBounded | OccurrenceWriterComponent.cs:122-133 | a word bumps at most one of the two counters |
| AggregateProperties.CountsIgnoreOthers | OccurrenceWriterComponent.cs:122-133 | words of neither polarity change no counter |
| AggregateProperties.BlockRunAggregate | OccurrenceWriterComponent.cs:139-142 | a block writes an aggregate exactly when its positive or negative count is nonzero, carrying its counts and token count |
| AggregateProperties.BlocksRunAggregates | OccurrenceWriterComponent.cs:89-142 | for every block k of the traversal: an aggregate for k is present iff block k has a polarity word; every aggregate holds its own block's counts (the counters reset per block) and token count |
| AggregateProperties.AggregateUnique | OccurrenceWriterComponent.cs:139-142 | in an ordered log a block has at most one aggregate |
| AggregateProperties.AggregateSumOfBlock | OccurrenceWriterComponent.cs:139-142 | a block's aggregate contributes exactly its positive and negative counts (nothing when none is written) |
| AggregateProperties.BlocksRunSums | OccurrenceWriterComponent.cs:84-142 | the aggregates' counts add up to the document's positive and negative totals; blocks without an aggregate contribute zero |
| DocumentProperties.PrologueFailures | OccurrenceWriterComponent.cs:49-67 | the exceptions before the document row, in the order they are raised: time, pumpIndex, corpus guid, document guid |
| DocumentProperties.PrologueRow | OccurrenceWriterComponent.cs:42-72 | the document row: defaults to "", isFinancial iff "True", a missing pumpIndex is 0 and a present one is written as its parsed value, the minute of ingestion, the effective date within three days before ingestion, the digest of the corpus GUID then the document GUID |
| DocumentProperties.DocumentRunShape | OccurrenceWriterComponent.cs:72-143 | the document row comes first; every child row carries its key, is numbered, keyed and in order; the document fails only for a word without a class |
| DocumentProperties.DocumentRunRows | OccurrenceWriterComponent.cs:72 | a document writes one document row when its prologue succeeds and none otherwise |
| DocumentProperties.WriterOneRowEach | OccurrenceWriterComponent.cs:72 | every document that runs clean writes exactly one document row |
| DocumentProperties.CorpusRunRows | OccurrenceWriterComponent.cs:34-72 | a clean corpus run writes one document row per document |
| DocumentProperties.CorpusDocumentRows | OccurrenceWriterComponent.cs:31-72 | ConsumeData without an exception writes exactly as many document rows as the corpus has documents |

## Left out

- SQL persistence (the `ToDb.*` calls, the connection, `Dispose` and the constructor) is modelled as appends to a log. A surrogate key is modelled as the log position of its row; the real store's key values are not modelled.
- The annotation library (`CreateAnnotationIndex`, the `GetAnnotatedBlocks` range queries, `TextBlock.Text`) is replaced by the nested block/sentence/span structure those queries return. Span containment and document order are assumed through that structure and never checked.
- `DateTime.Parse` and the "yyyy-MM-dd" / "yyyy-MM-dd HH:mm" formatting are abstracted. Parsing is a parameter returning a tick count or nothing, and the formatted values are day and minute numbers.
- MD5 and the byte layout of `Guid.ToByteArray` are abstracted. GUID parsing and the digest are parameters; only the 32-byte buffer is modelled.
- `Convert.ToDouble` is a parameter that returns a real or nothing. Floating-point parsing is not modelled.
- Missing pumpIndex: an absent feature reads as null and `Convert.ToDouble(null)` returns 0, so the row gets 0.0; only a present, unparsable value raises.
- The `short` counters `sentenceNum` and `blockNum` are unbounded here. A document with more than 32767 sentences or blocks would wrap around in the source, and that is not modelled.
- `EndsWith` in the source uses the current culture's comparison. The model uses an ordinal suffix test.
- Values the source reads but never uses are not modelled as outputs: `tokensPerSentence`, the word's `gazetteerUri` and text, and the sentence counters `sentencePoz`/`sentenceNeg`. The document totals `tokensPerDocument` and `documentPoz`/`documentNeg` are never written by the source; they are returned by `ExtractOccurrences` so the sums can be stated.
- An exception is not caught by the source, so it ends the whole corpus run and keeps the rows already written. The model does the same; the exception's message and stack are not modelled.
- The `StreamDataConsumer` base class, the `sender` argument and the cast of `data` to a corpus are left out.
