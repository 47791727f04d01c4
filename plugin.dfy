/**
 * The options the plugin is installed with, and the values shared by its
 * parts: document ids, stems, field values and storage errors.
 */
module Plugin {

  /** A document identifier, compared by value. */
  type Id = nat

  /** A normalised word produced by the stemmer. */
  type Stem = string

  /** A failure reported by the document store. */
  datatype DbError = DbError(reason: string)

  /** What `doc.get(field)` yields, as far as keyword extraction can tell. */
  datatype FieldValue =
    | Text(text: string)          // a string
    | List(items: seq<string>)    // an array, each item as its string form
    | Other                       // undefined, null, a number, an object, ...

  /**
   * The installed plugin: the source fields, the stemmer's `tokenizeAndStem`,
   * the string distance, and the two attribute names it adds to documents.
   */
  datatype Config = Config(
    fields: seq<string>,
    tokenize: string -> seq<Stem>,
    distance: (Stem, Stem) -> real,
    keywordsPath: string,
    relevancePath: string)

  const DefaultKeywordsPath: string := "_keywords"
  const DefaultRelevancePath: string := "_relevance"

  /**
   * Reads the install options; an absent (empty) attribute name falls back
   * to its default. The stemmer and distance are the functions selected by
   * name from the text-processing library.
   */
  function Install(fields: seq<string>, tokenize: string -> seq<Stem>,
                   distance: (Stem, Stem) -> real,
                   keywordsPath: string, relevancePath: string): (c: Config)
    ensures c.fields == fields && c.tokenize == tokenize && c.distance == distance
    ensures c.keywordsPath != "" && c.relevancePath != ""
    ensures c.keywordsPath == if keywordsPath != "" then keywordsPath else "_keywords"
    ensures c.relevancePath == if relevancePath != "" then relevancePath else "_relevance"
  {
    Config(fields, tokenize, distance,
           if keywordsPath != "" then keywordsPath else DefaultKeywordsPath,
           if relevancePath != "" then relevancePath else DefaultRelevancePath)
  }
}
