/** The shared content document both stage drivers load, work on and save.
    The stored form is a value (`Document`); the object a driver works on
    while it runs is a `Content`, whose fields the text stage reassigns. */
module ContentState {

  /** One narration unit. `keywords` is empty until the keyword stage runs;
      `images` is filled by stages outside this model. */
  datatype Sentence = Sentence(text: string, keywords: seq<string>, images: seq<string>)

  /** The persisted snapshot of the content document. */
  datatype Document = Document(
    searchTerm: string,
    maximumSentences: int,
    sourceContentOriginal: string,
    sourceContentSanitized: string,
    sentences: seq<Sentence>)

  /** The live content object of one driver run. */
  class Content {
    var searchTerm: string
    var maximumSentences: int
    var sourceContentOriginal: string
    var sourceContentSanitized: string
    var sentences: seq<Sentence>

    /** `state.load()`: a fresh object holding the stored snapshot. */
    constructor Load(doc: Document)
      ensures Snapshot() == doc
    {
      searchTerm := doc.searchTerm;
      maximumSentences := doc.maximumSentences;
      sourceContentOriginal := doc.sourceContentOriginal;
      sourceContentSanitized := doc.sourceContentSanitized;
      sentences := doc.sentences;
    }

    /** What `state.save(content)` stores. */
    function Snapshot(): Document
      reads this
    {
      Document(searchTerm, maximumSentences, sourceContentOriginal, sourceContentSanitized, sentences)
    }
  }
}
