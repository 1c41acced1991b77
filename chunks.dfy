/** The chunk objects handed over by title-based chunking, as the enricher and the aggregator see them. */
module Chunks {
  import opened Wrappers
  import opened Json

  /**
   * A chunk: its `.text`, its metadata as `metadata.to_dict()` shows it, and the
   * `metadata.text_as_html` attribute (None when the element carries no HTML rendering).
   */
  datatype Chunk = Chunk(text: string, metadata: Record, html: Option<string>)

  const TableHtmlKey := "text_as_html"

  /** A chunk is a table exactly when its metadata dict holds the HTML rendering key. */
  predicate IsTable(c: Chunk) {
    TableHtmlKey in c.metadata
  }
}
