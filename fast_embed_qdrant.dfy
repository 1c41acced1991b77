/**
 * The embedding-input builder: one embedding text and one vector-store point per enriched
 * record, in record order, with the record's position as the point id and the record itself
 * as payload; then embedding i is attached to point i. The embedding model and the vector
 * store client are outside the model: the model is a parameter and the points are returned
 * as they would be upserted.
 */
module FastEmbedQdrant {
  import opened Wrappers
  import opened Json
  import opened Text
  import opened Chunks
  import QwenOllamaChunking
  import ChunkAggregator

  type Vector = seq<real>

  /** A vector-store point: id, vector and payload. */
  datatype Point = Point(id: nat, vector: Vector, payload: Record)

  /** The summary the pipeline substitutes when enrichment is skipped. */
  const SkippedSummary := "No summary available (enrichment skipped)"

  /** Characters of content that go into an embedding text. */
  const MaxEmbeddedChars := 1000

  const Indent := "\n            "

  /**
   * What the builder needs of a record to not raise: a string `content`, a `summary` that
   * is absent or a string, and `keywords` that are absent or a list of strings.
   */
  predicate Embeddable(rec: Record) {
    && "content" in rec && rec["content"].Str?
    && ("summary" in rec ==> rec["summary"].Str?)
    && ("keywords" in rec ==> AsStrings(rec["keywords"]).Some?)
  }

  /** `chunk.get('summary', '')`: the stored summary, or "" when the record has none. */
  function SummaryOf(rec: Record): (r: string)
    requires Embeddable(rec)
    ensures "summary" in rec ==> rec["summary"] == Str(r)
    ensures "summary" !in rec ==> r == ""
  {
    if "summary" in rec then rec["summary"].s else ""
  }

  /** `chunk.get('keywords', [])`: the stored keyword list, or no keywords when the record has none. */
  function KeywordsOf(rec: Record): (r: seq<string>)
    requires Embeddable(rec)
    ensures "keywords" in rec ==> rec["keywords"] == StrArray(r)
    ensures "keywords" !in rec ==> r == []
  {
    if "keywords" in rec then
      var keywords := AsStrings(rec["keywords"]).value;
      StrArrayRoundTrip(keywords, rec["keywords"]);
      keywords
    else []
  }

  /** `chunk['content'][:1000]`. */
  function ContentPrefix(rec: Record): string
    requires Embeddable(rec)
  {
    Slice(rec["content"].s, MaxEmbeddedChars)
  }

  /**
   * The lines of the embedding text before the content itself, up to the colon after
   * "Content": only that label for a skipped enrichment.
   */
  function EmbeddingLead(rec: Record): (lead: string)
    requires Embeddable(rec)
  {
    if SummaryOf(rec) == SkippedSummary then "Content:"
    else "Summary: " + SummaryOf(rec) + Indent + "Keywords: " + Join(KeywordsOf(rec), ", ") + Indent + "Content:"
  }

  /**
   * The stripped embedding text of one record: `Content: <content>` for a skipped
   * enrichment, otherwise the three indented lines of the triple-quoted template.
   */
  function EmbeddingText(rec: Record): (r: string)
    requires Embeddable(rec)
    ensures r == [] || (!IsSpace(r[0]) && !IsSpace(r[|r| - 1]))
  {
    var body := EmbeddingLead(rec) + " " + ContentPrefix(rec);
    if SummaryOf(rec) == SkippedSummary then Strip(body) else Strip(Indent + body + Indent)
  }

  /** The embedding texts of a record list, in order. */
  function EmbeddingTexts(chunks: seq<Record>): (ts: seq<string>)
    requires forall j :: 0 <= j < |chunks| ==> Embeddable(chunks[j])
    ensures |ts| == |chunks|
  {
    if |chunks| == 0 then [] else EmbeddingTexts(chunks[..|chunks| - 1]) + [EmbeddingText(chunks[|chunks| - 1])]
  }

  /** Extending the record prefix by one record appends that record's text. */
  lemma EmbeddingTextsSnoc(chunks: seq<Record>, i: nat)
    requires forall j :: 0 <= j < |chunks| ==> Embeddable(chunks[j])
    requires i < |chunks|
    ensures EmbeddingTexts(chunks[..i + 1]) == EmbeddingTexts(chunks[..i]) + [EmbeddingText(chunks[i])]
  {
    assert chunks[..i + 1][..i] == chunks[..i];
  }

  /** Text i of the list is the embedding text of record i. */
  lemma {:induction false} EmbeddingTextsAt(chunks: seq<Record>, j: nat)
    requires forall k :: 0 <= k < |chunks| ==> Embeddable(chunks[k])
    requires j < |chunks|
    ensures EmbeddingTexts(chunks)[j] == EmbeddingText(chunks[j])
    decreases |chunks|
  {
    if j < |chunks| - 1 {
      var init := chunks[..|chunks| - 1];
      EmbeddingTextsAt(init, j);
      assert init[j] == chunks[j];
    }
  }

  /** The points of a record list before embedding: position as id, no vector, the record as payload. */
  function BarePoints(chunks: seq<Record>): (ps: seq<Point>)
    ensures |ps| == |chunks|
  {
    if |chunks| == 0 then [] else BarePoints(chunks[..|chunks| - 1]) + [Point(|chunks| - 1, [], chunks[|chunks| - 1])]
  }

  lemma BarePointsSnoc(chunks: seq<Record>, i: nat)
    requires i < |chunks|
    ensures BarePoints(chunks[..i + 1]) == BarePoints(chunks[..i]) + [Point(i, [], chunks[i])]
  {
    assert chunks[..i + 1][..i] == chunks[..i];
  }

  lemma {:induction false} BarePointsAt(chunks: seq<Record>, j: nat)
    requires j < |chunks|
    ensures BarePoints(chunks)[j] == Point(j, [], chunks[j])
    decreases |chunks|
  {
    if j < |chunks| - 1 {
      var init := chunks[..|chunks| - 1];
      BarePointsAt(init, j);
      assert init[j] == chunks[j];
    }
  }

  /**
   * The embedding text is the summary line, the keywords joined by ", " and the content
   * label (only the content label for a skipped enrichment), followed by the first at most
   * 1000 characters of the content with its trailing whitespace removed.
   */
  lemma EmbeddingTextShape(rec: Record)
    requires Embeddable(rec)
    ensures EmbeddingText(rec) == EmbeddingLead(rec) + StripRight(" " + ContentPrefix(rec))
    ensures IsPrefix(EmbeddingLead(rec), EmbeddingText(rec))
    ensures IsPrefix(EmbeddingText(rec)[|EmbeddingLead(rec)|..], " " + ContentPrefix(rec))
    ensures |ContentPrefix(rec)| <= MaxEmbeddedChars
  {
    var lead := EmbeddingLead(rec);
    var tail := " " + ContentPrefix(rec);
    if SummaryOf(rec) == SkippedSummary {
      SkippedShape(rec);
    } else {
      EnrichedShape(rec);
    }
    assert lead[|lead| - 1] == ':';
    StripRightAppend(lead, tail);
  }

  /** Without an enrichment the text starts with the content label, so nothing leads to strip. */
  lemma SkippedShape(rec: Record)
    requires Embeddable(rec) && SummaryOf(rec) == SkippedSummary
    ensures EmbeddingText(rec) == StripRight(EmbeddingLead(rec) + (" " + ContentPrefix(rec)))
  {
    var lead := EmbeddingLead(rec);
    var tail := " " + ContentPrefix(rec);
    ConcatAssoc(lead, " ", ContentPrefix(rec));
    assert (lead + tail)[0] == 'C';
    StripLeftSpaces([], lead + tail);
    assert [] + (lead + tail) == lead + tail;
  }

  /** With an enrichment the leading and the trailing indentation are stripped away. */
  lemma EnrichedShape(rec: Record)
    requires Embeddable(rec) && SummaryOf(rec) != SkippedSummary
    ensures EmbeddingText(rec) == StripRight(EmbeddingLead(rec) + (" " + ContentPrefix(rec)))
  {
    var lead := EmbeddingLead(rec);
    var tail := " " + ContentPrefix(rec);
    ConcatAssoc(lead, " ", ContentPrefix(rec));
    var body := lead + tail;
    ConcatAssoc(Indent, body, Indent);
    assert lead[0] == 'S';
    assert (body + Indent)[0] == 'S';
    IndentIsSpace();
    StripLeftSpaces(Indent, body + Indent);
    StripRightSpaces(body, Indent);
  }

  /** Every character of the indentation is whitespace. */
  lemma IndentIsSpace()
    ensures forall i :: 0 <= i < |Indent| ==> IsSpace(Indent[i])
  {
  }

  /**
   * The first loop of `create_embedding_from_chunks`: one embedding text and one point per
   * record, in record order, the point with the record's position as id, an empty vector
   * and the record as payload.
   */
  method PreparePoints(chunks: seq<Record>) returns (texts: seq<string>, points: seq<Point>)
    requires forall j :: 0 <= j < |chunks| ==> Embeddable(chunks[j])
    ensures texts == EmbeddingTexts(chunks)
    ensures |points| == |chunks|
    ensures forall j :: 0 <= j < |chunks| ==> points[j] == Point(j, [], chunks[j])
  {
    texts := [];
    points := [];
    for i := 0 to |chunks|
      invariant texts == EmbeddingTexts(chunks[..i])
      invariant points == BarePoints(chunks[..i])
    {
      var stringToEmbed := EmbeddingText(chunks[i]);
      EmbeddingTextsSnoc(chunks, i);
      BarePointsSnoc(chunks, i);
      texts := texts + [stringToEmbed];
      points := points + [Point(i, [], chunks[i])];
    }
    assert chunks[..|chunks|] == chunks;
    forall j | 0 <= j < |chunks|
      ensures points[j] == Point(j, [], chunks[j])
    {
      BarePointsAt(chunks, j);
    }
  }

  /**
   * The second loop: embedding i becomes the vector of point i; ids and payloads stay. More
   * embeddings than points raise an IndexError; with fewer, the remaining points keep their
   * vectors.
   */
  method AttachEmbeddings(points: seq<Point>, embeddings: seq<Vector>) returns (r: Result<seq<Point>, Exception>)
    ensures r.Err? <==> |embeddings| > |points|
    ensures r.Err? ==> r.error == IndexError
    ensures r.Ok? ==> |r.value| == |points|
    ensures r.Ok? ==> forall j :: 0 <= j < |points| ==>
      r.value[j] == points[j].(vector := if j < |embeddings| then embeddings[j] else points[j].vector)
  {
    var updated := points;
    for i := 0 to |embeddings|
      invariant i <= |points| && |updated| == |points|
      invariant forall j :: 0 <= j < |points| ==>
        updated[j] == points[j].(vector := if j < i then embeddings[j] else points[j].vector)
    {
      if i >= |updated| {
        return Err(IndexError);
      }
      updated := updated[i := updated[i].(vector := embeddings[i])];
    }
    r := Ok(updated);
  }

  /**
   * `create_embedding_from_chunks` up to the upsert: builds the texts and the points, embeds
   * the texts, and attaches embedding i to point i. An empty record list raises (a NameError
   * on the loop variable), so it is excluded; an empty embedding list raises an IndexError
   * at the progress print, and so does one longer than the point list.
   */
  method CreateEmbeddingFromChunks(chunks: seq<Record>, embed: seq<string> -> seq<Vector>)
    returns (texts: seq<string>, r: Result<seq<Point>, Exception>)
    requires |chunks| > 0
    requires forall j :: 0 <= j < |chunks| ==> Embeddable(chunks[j])
    ensures texts == EmbeddingTexts(chunks)
    ensures r.Err? <==> |embed(texts)| == 0 || |embed(texts)| > |chunks|
    ensures r.Err? ==> r.error == IndexError
    ensures r.Ok? ==> |r.value| == |chunks|
    ensures r.Ok? ==> forall j :: 0 <= j < |chunks| ==> r.value[j].id == j && r.value[j].payload == chunks[j]
    ensures r.Ok? ==> forall j :: 0 <= j < |chunks| ==>
      r.value[j].vector == if j < |embed(texts)| then embed(texts)[j] else []
  {
    var points;
    texts, points := PreparePoints(chunks);
    var embeddings := embed(texts);
    if |embeddings| == 0 {
      return texts, Err(IndexError);
    }
    r := AttachEmbeddings(points, embeddings);
  }

  /**
   * The records the aggregator builds from validated enrichments satisfy what the builder
   * needs of them, so the two stages fit together without raising.
   */
  lemma AggregatedRecordsEmbeddable(file: ChunkAggregator.FilePath, root: ChunkAggregator.FilePath, c: Chunk, m: QwenOllamaChunking.ChunkMetadata)
    ensures Embeddable(ChunkAggregator.FinalizeChunkData(file, root, c, QwenOllamaChunking.ModelDump(m)).value)
    ensures SummaryOf(ChunkAggregator.FinalizeChunkData(file, root, c, QwenOllamaChunking.ModelDump(m)).value) == m.summary
    ensures KeywordsOf(ChunkAggregator.FinalizeChunkData(file, root, c, QwenOllamaChunking.ModelDump(m)).value) == m.keywords
  {
    var e := QwenOllamaChunking.ModelDump(m);
    var rec := ChunkAggregator.FinalizeChunkData(file, root, c, e).value;
    assert "summary" in e;
    assert "content" !in e;
    ChunkAggregator.FinalizeChunkDataFields(file, root, c, e);
    Json.StrArrayRoundTrip(m.keywords, e["keywords"]);
  }
}
