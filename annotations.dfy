/** The annotated document as the writer reads it.

    The annotation index answers "all spans of selector X inside [start, end)"
    in document order. The model replaces those range queries by the nested
    structure they produce: a block holds the sentences found inside its range,
    a sentence the SentimentObject and SentimentWord spans found inside its
    range, and the "Token" queries are kept only as counts. */
module Annotations {

  // Feature names read from SentimentObject and SentimentWord spans.
  const InstanceUri := "instanceUri"
  const InstanceClassUri := "instanceClassUri"

  /** An annotated span: its bounds, the text it covers and its features. */
  datatype Span = Span(start: int, end: int, text: string, features: map<string, string>)

  /** A "Sentence" span with the spans found inside it, in document order. */
  datatype Sentence = Sentence(
    start: int, end: int,
    tokens: nat,            // number of "Token" spans inside the sentence
    objects: seq<Span>,     // "SentimentObject" spans inside the sentence
    words: seq<Span>)       // "SentimentWord" spans inside the sentence

  /** A block span (selected by the block selector) with its sentences. */
  datatype Block = Block(
    start: int, end: int,
    tokens: nat,            // number of "Token" spans inside the block
    sentences: seq<Sentence>)

  /** A document: its feature map and, per block selector, the blocks that
      selector matches, in document order. */
  datatype Document = Document(features: map<string, string>, layers: map<string, seq<Block>>)

  /** A corpus: its own feature map (holding the corpus "guid") and its documents. */
  datatype Corpus = Corpus(features: map<string, string>, documents: seq<Document>)

  /** The blocks a selector matches; a selector with no annotations matches none. */
  function Layer(doc: Document, selector: string): (bs: seq<Block>)
    ensures selector !in doc.layers ==> bs == []
  {
    if selector in doc.layers then doc.layers[selector] else []
  }
}
