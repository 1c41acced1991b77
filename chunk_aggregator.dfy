/**
 * The chunk aggregator: pairs chunk i with enrichment result i, drops the chunks whose
 * enrichment is empty, labels the survivors with a short source derived from the file path,
 * merges chunk and enrichment into flat records, and appends them to, or replaces, the
 * record list stored in the output file.
 */
module ChunkAggregator {
  import opened Wrappers
  import opened Json
  import opened Text
  import opened Chunks
  import LlmEnrichment

  // ---------------------------------------------------------------------------
  // Paths and the source label
  // ---------------------------------------------------------------------------

  /** A `pathlib` path: its anchor ("/" for an absolute path, "" for a relative one) and its names. */
  datatype FilePath = FilePath(anchor: string, names: seq<string>)

  /** `path.parts`. */
  function Parts(p: FilePath): seq<string> {
    (if p.anchor == "" then [] else [p.anchor]) + p.names
  }

  /** `path.name`: the last name, or "" for a bare anchor or an empty path. */
  function Name(p: FilePath): string {
    if p.names == [] then "" else p.names[|p.names| - 1]
  }

  predicate PartsPrefix(pre: seq<string>, s: seq<string>) {
    |pre| <= |s| && s[..|pre|] == pre
  }

  /**
   * `file.relative_to(root).parts`, or `file.parts` when `relative_to` raises ValueError:
   * under the root, the root's parts followed by the result give back the file's parts.
   */
  function RelativeParts(file: FilePath, root: FilePath): (rel: seq<string>)
    ensures PartsPrefix(Parts(root), Parts(file)) ==> Parts(root) + rel == Parts(file)
    ensures !PartsPrefix(Parts(root), Parts(file)) ==> rel == Parts(file)
  {
    if PartsPrefix(Parts(root), Parts(file)) then Parts(file)[|Parts(root)|..] else Parts(file)
  }

  /**
   * `_derive_source_label`: a single relative segment is the label, and without any the
   * label is the file name; with two or more segments, SourceLabelIsJoin says which two
   * are joined.
   */
  function DeriveSourceLabel(file: FilePath, root: FilePath): (r: string)
    ensures |RelativeParts(file, root)| == 1 ==> r == RelativeParts(file, root)[0]
    ensures |RelativeParts(file, root)| == 0 ==> r == Name(file)
  {
    var rel := RelativeParts(file, root);
    if |rel| >= 3 then rel[1] + "/" + rel[2]
    else if |rel| == 2 then rel[0] + "/" + rel[1]
    else if |rel| == 1 then rel[0]
    else Name(file)
  }

  /**
   * With three or more relative segments the label is `"/".join` of segments 1 and 2,
   * with exactly two it is `"/".join` of both.
   */
  lemma SourceLabelIsJoin(file: FilePath, root: FilePath)
    ensures |RelativeParts(file, root)| >= 3 ==> DeriveSourceLabel(file, root) == Join(RelativeParts(file, root)[1..3], "/")
    ensures |RelativeParts(file, root)| == 2 ==> DeriveSourceLabel(file, root) == Join(RelativeParts(file, root)[..2], "/")
  {
    var rel := RelativeParts(file, root);
    if |rel| >= 3 {
      assert rel[1..3][1..] == [rel[2]];
    } else if |rel| == 2 {
      assert rel[..2][1..] == [rel[1]];
    }
  }

  /** The path `root / n1 / n2 / ...`. */
  function Under(root: FilePath, names: seq<string>): (p: FilePath)
    ensures Parts(p) == Parts(root) + names
  {
    FilePath(root.anchor, root.names + names)
  }

  /**
   * For the `<entity>/<filing type>/<accession>/...` layout under the filings root, the label
   * is `<filing type>/<accession>`: the entity folder and everything below the accession are dropped.
   */
  lemma SourceLabelOfFilingLayout(root: FilePath, entity: string, filingType: string, accession: string, rest: seq<string>)
    ensures DeriveSourceLabel(Under(root, [entity, filingType, accession] + rest), root) == filingType + "/" + accession
  {
    var file := Under(root, [entity, filingType, accession] + rest);
    assert Parts(file)[..|Parts(root)|] == Parts(root);
    assert RelativeParts(file, root) == [entity, filingType, accession] + rest;
  }

  /** Two relative segments are joined with "/", one is used as it is, none gives the file name. */
  lemma SourceLabelOfShallowPaths(root: FilePath, a: string, b: string)
    ensures DeriveSourceLabel(Under(root, [a, b]), root) == a + "/" + b
    ensures DeriveSourceLabel(Under(root, [a]), root) == a
    ensures DeriveSourceLabel(root, root) == Name(root)
  {
    assert Parts(Under(root, [a, b]))[..|Parts(root)|] == Parts(root);
    assert RelativeParts(Under(root, [a, b]), root) == [a, b];
    assert Parts(Under(root, [a]))[..|Parts(root)|] == Parts(root);
    assert RelativeParts(Under(root, [a]), root) == [a];
    assert Parts(root)[..|Parts(root)|] == Parts(root);
  }

  /** A file outside the filings root is labelled from its own parts, as if there were no root. */
  lemma SourceLabelOutsideRoot(file: FilePath, root: FilePath)
    requires !PartsPrefix(Parts(root), Parts(file))
    ensures DeriveSourceLabel(file, root) == DeriveSourceLabel(file, FilePath("", []))
  {
    assert Parts(FilePath("", [])) == [];
    assert Parts(file)[..0] == [];
    assert Parts(file)[0..] == Parts(file);
  }

  /** The layout exercised by the aggregator's test. */
  lemma SourceLabelExample()
    ensures DeriveSourceLabel(
              FilePath("/", ["tmp", "sec", "MSFT", "8-K", "0001", "full-submission.txt"]),
              FilePath("/", ["tmp", "sec"]))
         == "8-K/0001"
  {
    var root := FilePath("/", ["tmp", "sec"]);
    assert Under(root, ["MSFT", "8-K", "0001"] + ["full-submission.txt"])
        == FilePath("/", ["tmp", "sec", "MSFT", "8-K", "0001", "full-submission.txt"]);
    SourceLabelOfFilingLayout(root, "MSFT", "8-K", "0001", ["full-submission.txt"]);
  }

  // ---------------------------------------------------------------------------
  // One record
  // ---------------------------------------------------------------------------

  const SourceKey := "source"
  const ContentKey := "content"
  const IsTableKey := "is_table"

  /** The content a record stores: the full HTML of a table, the full text otherwise, "" for None. */
  function RecordContent(c: Chunk): (r: string)
    ensures LlmEnrichment.EnricherContent(c).Some? ==> r == LlmEnrichment.EnricherContent(c).value
    ensures LlmEnrichment.EnricherContent(c).None? ==> r == ""
  {
    if IsTable(c) then c.html.GetOr("") else c.text
  }

  /**
   * A record keeps the full content the enricher read, and the enricher's prompt saw
   * only its first 3000 characters.
   */
  lemma RecordContentIsUntruncated(c: Chunk)
    requires LlmEnrichment.EnricherContent(c).Some?
    ensures RecordContent(c) == LlmEnrichment.EnricherContent(c).value
    ensures LlmEnrichment.ChunkPrompt(c).value
         == LlmEnrichment.QwenOllamaChunking.ChunkEnricher(
              Slice(RecordContent(c), LlmEnrichment.MaxPromptChars), IsTable(c), LlmEnrichment.Expert)
  {
  }

  /**
   * `_finalize_chunk_data`: nothing for an empty enrichment; otherwise source, content and
   * table flag, then every enrichment entry copied over them, so the enrichment wins a clash.
   */
  function FinalizeChunkData(file: FilePath, root: FilePath, c: Chunk, enrichment: Record): (r: Option<Record>)
    ensures r.None? <==> |enrichment| == 0
  {
    if |enrichment| == 0 then None
    else
      var base := map[SourceKey := Str(DeriveSourceLabel(file, root)),
                       ContentKey := Str(RecordContent(c)),
                       IsTableKey := Bool(IsTable(c))];
      Some(base + enrichment)
  }

  /**
   * A record holds source, content and table flag plus every enrichment key; enrichment
   * values win a clash, and the other three are the label, the chosen content and the flag.
   */
  lemma FinalizeChunkDataFields(file: FilePath, root: FilePath, c: Chunk, enrichment: Record)
    requires |enrichment| > 0
    ensures var rec := FinalizeChunkData(file, root, c, enrichment).value;
      && rec.Keys == {SourceKey, ContentKey, IsTableKey} + enrichment.Keys
      && (forall k :: k in enrichment ==> rec[k] == enrichment[k])
      && (SourceKey !in enrichment ==> rec[SourceKey] == Str(DeriveSourceLabel(file, root)))
      && (ContentKey !in enrichment ==> rec[ContentKey] == Str(RecordContent(c)))
      && (IsTableKey !in enrichment ==> rec[IsTableKey] == Bool(TableHtmlKey in c.metadata))
  {
  }

  // ---------------------------------------------------------------------------
  // The new records of one run
  // ---------------------------------------------------------------------------

  /** Enrichment `i` when the list has one, `{}` past its end. */
  function EnrichmentAt(enriched: seq<Record>, i: nat): (e: Record)
    ensures i < |enriched| ==> e == enriched[i]
    ensures i >= |enriched| ==> |e| == 0
  {
    if i < |enriched| then enriched[i] else map[]
  }

  /** The records the loop has collected after visiting the first `n` chunks. */
  function NewRecords(file: FilePath, root: FilePath, chunks: seq<Chunk>, enriched: seq<Record>, n: nat): (recs: seq<Value>)
    requires n <= |chunks|
    ensures |recs| <= n
  {
    if n == 0 then []
    else
      var earlier := NewRecords(file, root, chunks, enriched, n - 1);
      match FinalizeChunkData(file, root, chunks[n - 1], EnrichmentAt(enriched, n - 1))
      case None => earlier
      case Some(rec) => earlier + [Obj(rec)]
  }

  /** The positions below `n` whose enrichment is non-empty, in increasing order. */
  function KeptPositions(enriched: seq<Record>, n: nat): (ps: seq<nat>)
    ensures forall j :: 0 <= j < |ps| ==> ps[j] < n && ps[j] < |enriched| && |enriched[ps[j]]| > 0
  {
    if n == 0 then []
    else KeptPositions(enriched, n - 1) + (if |EnrichmentAt(enriched, n - 1)| > 0 then [n - 1] else [])
  }

  /** The kept positions are strictly increasing: records keep chunk order. */
  lemma {:induction false} KeptPositionsIncreasing(enriched: seq<Record>, n: nat)
    ensures forall j, k :: 0 <= j < k < |KeptPositions(enriched, n)| ==> KeptPositions(enriched, n)[j] < KeptPositions(enriched, n)[k]
  {
    if n > 0 {
      KeptPositionsIncreasing(enriched, n - 1);
    }
  }

  /** Every position below `n` with a non-empty enrichment is among the kept positions. */
  lemma {:induction false} KeptPositionsComplete(enriched: seq<Record>, n: nat, i: nat)
    requires i < n && i < |enriched| && |enriched[i]| > 0
    ensures i in KeptPositions(enriched, n)
  {
    if i < n - 1 {
      KeptPositionsComplete(enriched, n - 1, i);
    }
  }

  /** The record chunk `p` contributes when its enrichment is non-empty. */
  function RecordOf(file: FilePath, root: FilePath, chunks: seq<Chunk>, enriched: seq<Record>, p: nat): Value
    requires p < |chunks| && p < |enriched| && |enriched[p]| > 0
  {
    Obj(FinalizeChunkData(file, root, chunks[p], enriched[p]).value)
  }

  /** `recs` holds, entry by entry, the records of the chunks at positions `ps`. */
  predicate RecordsAt(file: FilePath, root: FilePath, chunks: seq<Chunk>, enriched: seq<Record>, recs: seq<Value>, ps: seq<nat>) {
    && |recs| == |ps|
    && forall j :: 0 <= j < |ps| ==>
         && ps[j] < |chunks| && ps[j] < |enriched| && |enriched[ps[j]]| > 0
         && recs[j] == RecordOf(file, root, chunks, enriched, ps[j])
  }

  lemma RecordsAtSnoc(file: FilePath, root: FilePath, chunks: seq<Chunk>, enriched: seq<Record>, recs: seq<Value>, ps: seq<nat>, p: nat)
    requires RecordsAt(file, root, chunks, enriched, recs, ps)
    requires p < |chunks| && p < |enriched| && |enriched[p]| > 0
    ensures RecordsAt(file, root, chunks, enriched, recs + [RecordOf(file, root, chunks, enriched, p)], ps + [p])
  {
    var v := RecordOf(file, root, chunks, enriched, p);
    forall j | 0 <= j < |ps|
      ensures (ps + [p])[j] == ps[j] && (recs + [v])[j] == recs[j]
    {
    }
  }

  /** One more chunk adds its record exactly when its enrichment is non-empty. */
  lemma NewRecordsStep(file: FilePath, root: FilePath, chunks: seq<Chunk>, enriched: seq<Record>, n: nat)
    requires 0 < n <= |chunks|
    ensures |EnrichmentAt(enriched, n - 1)| == 0 ==>
      NewRecords(file, root, chunks, enriched, n) == NewRecords(file, root, chunks, enriched, n - 1)
    ensures |EnrichmentAt(enriched, n - 1)| > 0 ==>
      NewRecords(file, root, chunks, enriched, n)
      == NewRecords(file, root, chunks, enriched, n - 1) + [RecordOf(file, root, chunks, enriched, n - 1)]
  {
  }

  lemma {:induction false} NewRecordsAreRecordsAt(file: FilePath, root: FilePath, chunks: seq<Chunk>, enriched: seq<Record>, n: nat)
    requires n <= |chunks|
    ensures RecordsAt(file, root, chunks, enriched, NewRecords(file, root, chunks, enriched, n), KeptPositions(enriched, n))
  {
    if n > 0 {
      var recs := NewRecords(file, root, chunks, enriched, n - 1);
      var ps := KeptPositions(enriched, n - 1);
      NewRecordsAreRecordsAt(file, root, chunks, enriched, n - 1);
      NewRecordsStep(file, root, chunks, enriched, n);
      if |EnrichmentAt(enriched, n - 1)| > 0 {
        RecordsAtSnoc(file, root, chunks, enriched, recs, ps, n - 1);
        assert KeptPositions(enriched, n) == ps + [n - 1];
        assert NewRecords(file, root, chunks, enriched, n) == recs + [RecordOf(file, root, chunks, enriched, n - 1)];
      } else {
        assert KeptPositions(enriched, n) == ps;
        assert NewRecords(file, root, chunks, enriched, n) == recs;
      }
    }
  }

  /**
   * Record j of a run is chunk p merged with enrichment p, where p is the j-th position
   * with a non-empty enrichment: every such chunk is kept, in chunk order, and no other.
   */
  lemma {:induction false} NewRecordsAtKeptPositions(file: FilePath, root: FilePath, chunks: seq<Chunk>, enriched: seq<Record>, n: nat)
    requires n <= |chunks|
    ensures |NewRecords(file, root, chunks, enriched, n)| == |KeptPositions(enriched, n)|
    ensures forall j :: 0 <= j < |KeptPositions(enriched, n)| ==>
      NewRecords(file, root, chunks, enriched, n)[j] == RecordOf(file, root, chunks, enriched, KeptPositions(enriched, n)[j])
  {
    NewRecordsAreRecordsAt(file, root, chunks, enriched, n);
  }

  /** A strictly increasing list of positions below m has at most m entries. */
  lemma {:induction false} IncreasingBelowBound(ps: seq<nat>, m: nat)
    requires forall j :: 0 <= j < |ps| ==> ps[j] < m
    requires forall j, k :: 0 <= j < k < |ps| ==> ps[j] < ps[k]
    ensures |ps| <= m
  {
    if ps != [] {
      var last := ps[|ps| - 1];
      IncreasingBelowBound(ps[..|ps| - 1], last);
    }
  }

  /** A run never produces more records than there are enrichment results or chunks. */
  lemma NewRecordsBound(file: FilePath, root: FilePath, chunks: seq<Chunk>, enriched: seq<Record>)
    ensures |NewRecords(file, root, chunks, enriched, |chunks|)| <= |enriched|
    ensures |NewRecords(file, root, chunks, enriched, |chunks|)| <= |chunks|
  {
    NewRecordsAtKeptPositions(file, root, chunks, enriched, |chunks|);
    KeptPositionsIncreasing(enriched, |chunks|);
    IncreasingBelowBound(KeptPositions(enriched, |chunks|), |enriched|);
    IncreasingBelowBound(KeptPositions(enriched, |chunks|), |chunks|);
  }

  /** When every enrichment is empty the run adds no record. */
  lemma {:induction false} AllEmptyAddsNothing(file: FilePath, root: FilePath, chunks: seq<Chunk>, enriched: seq<Record>, n: nat)
    requires n <= |chunks|
    requires forall i :: 0 <= i < |enriched| ==> |enriched[i]| == 0
    ensures NewRecords(file, root, chunks, enriched, n) == []
  {
    if n > 0 {
      AllEmptyAddsNothing(file, root, chunks, enriched, n - 1);
    }
  }

  /** Every record of a run whose enrichment does not itself set `source` carries the run's label. */
  lemma {:induction false} NewRecordsShareSource(file: FilePath, root: FilePath, chunks: seq<Chunk>, enriched: seq<Record>, n: nat)
    requires n <= |chunks|
    requires forall i :: 0 <= i < |enriched| ==> SourceKey !in enriched[i]
    ensures forall v :: v in NewRecords(file, root, chunks, enriched, n) ==>
      v.Obj? && SourceKey in v.fields && v.fields[SourceKey] == Str(DeriveSourceLabel(file, root))
  {
    var recs := NewRecords(file, root, chunks, enriched, n);
    var ps := KeptPositions(enriched, n);
    NewRecordsAtKeptPositions(file, root, chunks, enriched, n);
    forall v | v in recs
      ensures v.Obj? && SourceKey in v.fields && v.fields[SourceKey] == Str(DeriveSourceLabel(file, root))
    {
      var j :| 0 <= j < |recs| && recs[j] == v;
      FinalizeChunkDataFields(file, root, chunks[ps[j]], enriched[ps[j]]);
    }
  }

  // ---------------------------------------------------------------------------
  // The output file and collect_enriched_chunks
  // ---------------------------------------------------------------------------

  /** What the output path holds: nothing, a decodable JSON document, or text that is not JSON. */
  datatype FileContents = Missing | Json(doc: Value) | Undecodable

  /** The JSON file the aggregator reads and rewrites. */
  class OutputFile {
    var contents: FileContents

    constructor (initial: FileContents)
      ensures contents == initial
    {
      contents := initial;
    }
  }

  /**
   * The loop of `collect_enriched_chunks`: chunk i is paired with enrichment i, or with `{}`
   * past the end of the enrichment list, and its finalised record, if any, is appended.
   */
  method CollectNewRecords(filePath: FilePath, chunks: seq<Chunk>, enrichedMetadata: seq<Record>, filingsRoot: FilePath)
    returns (newRecords: seq<Value>)
    ensures newRecords == NewRecords(filePath, filingsRoot, chunks, enrichedMetadata, |chunks|)
  {
    newRecords := [];
    for index := 0 to |chunks|
      invariant newRecords == NewRecords(filePath, filingsRoot, chunks, enrichedMetadata, index)
    {
      var enrichmentData := if index < |enrichedMetadata| then enrichedMetadata[index] else map[];
      var finalChunk := FinalizeChunkData(filePath, filingsRoot, chunks[index], enrichmentData);
      if finalChunk.Some? {
        newRecords := newRecords + [Obj(finalChunk.value)];
      }
    }
  }

  /**
   * `collect_enriched_chunks`: read the prior records when appending to an existing file,
   * collect this run's records, write prior + new (or only new) back, and return what was written.
   */
  method CollectEnrichedChunks(
    filePath: FilePath, chunks: seq<Chunk>, enrichedMetadata: seq<Record>,
    output: OutputFile, filingsRoot: FilePath, append: bool)
    returns (r: Result<seq<Value>, Exception>)
    modifies output
    ensures r.Ok? ==> output.contents == Json(Arr(r.value))
    ensures r.Err? ==> output.contents == old(output.contents)
    ensures !append ==> r == Ok(NewRecords(filePath, filingsRoot, chunks, enrichedMetadata, |chunks|))
    ensures append && old(output.contents).Missing? ==>
      r == Ok(NewRecords(filePath, filingsRoot, chunks, enrichedMetadata, |chunks|))
    ensures append && old(output.contents).Json? && old(output.contents).doc.Arr? ==>
      r == Ok(old(output.contents).doc.items + NewRecords(filePath, filingsRoot, chunks, enrichedMetadata, |chunks|))
    ensures append && old(output.contents).Json? && !old(output.contents).doc.Arr? ==> r == Err(TypeError)
    ensures append && old(output.contents).Undecodable? ==> r == Err(JsonDecodeError)
  {
    var persisted := Arr([]);
    assert persisted.items + NewRecords(filePath, filingsRoot, chunks, enrichedMetadata, |chunks|)
        == NewRecords(filePath, filingsRoot, chunks, enrichedMetadata, |chunks|);
    if append && !output.contents.Missing? {
      match output.contents
      case Undecodable => return Err(JsonDecodeError);
      case Json(doc) => persisted := doc;
    }

    var newRecords := CollectNewRecords(filePath, chunks, enrichedMetadata, filingsRoot);

    var combined: seq<Value>;
    if append {
      if !persisted.Arr? {
        return Err(TypeError);
      }
      combined := persisted.items + newRecords;
    } else {
      combined := newRecords;
    }
    assert append && old(output.contents).Missing? ==> combined == newRecords;

    output.contents := Json(Arr(combined));
    return Ok(combined);
  }

  /**
   * Two appending runs over the same inputs: the second stores everything the first stored
   * followed by the same new records again; nothing is deduplicated.
   */
  method AppendTwice(
    filePath: FilePath, chunks: seq<Chunk>, enrichedMetadata: seq<Record>,
    output: OutputFile, filingsRoot: FilePath)
    returns (first: Result<seq<Value>, Exception>, second: Result<seq<Value>, Exception>)
    requires output.contents.Missing? || (output.contents.Json? && output.contents.doc.Arr?)
    modifies output
    ensures first.Ok? && second.Ok?
    ensures second.value == first.value + NewRecords(filePath, filingsRoot, chunks, enrichedMetadata, |chunks|)
    ensures |second.value| == |first.value| + |NewRecords(filePath, filingsRoot, chunks, enrichedMetadata, |chunks|)|
  {
    first := CollectEnrichedChunks(filePath, chunks, enrichedMetadata, output, filingsRoot, true);
    second := CollectEnrichedChunks(filePath, chunks, enrichedMetadata, output, filingsRoot, true);
  }
}
