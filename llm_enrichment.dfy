/**
 * The per-chunk enricher: classify the chunk, truncate its content, build the prompt, ask
 * the Qwen client, and turn any failure of that call into an empty result. The thread
 * pool's `map` keeps input order, so the batch is modelled as a sequential map.
 */
module LlmEnrichment {
  import opened Wrappers
  import opened Json
  import opened Text
  import opened Chunks
  import opened QwenOllamaChunking

  const Expert := "financial analyst"

  /** Characters of content passed to the prompt builder. */
  const MaxPromptChars := 3000

  /**
   * The content the enricher reads: the HTML attribute of a table chunk, the text of any
   * other chunk. None when a table chunk's HTML attribute is None, which the truncation
   * then fails on.
   */
  function EnricherContent(c: Chunk): (r: Option<string>)
    ensures r.None? <==> IsTable(c) && c.html.None?
    ensures IsTable(c) ==> r == c.html
    ensures !IsTable(c) ==> r == Some(c.text)
  {
    if IsTable(c) then c.html else Some(c.text)
  }

  /** The prompt `_process_single_chunk` builds for a chunk, when it gets that far. */
  function ChunkPrompt(c: Chunk): (r: Option<string>)
    ensures r.Some? <==> EnricherContent(c).Some?
  {
    match EnricherContent(c)
    case None => None
    case Some(content) => Some(ChunkEnricher(Slice(content, MaxPromptChars), IsTable(c), Expert))
  }

  /**
   * The prompt carries the chunk's table flag unchanged and the first
   * min(3000, |content|) characters of its content, written for a financial analyst.
   */
  lemma ChunkPromptCarriesFlagAndPrefix(c: Chunk)
    requires EnricherContent(c).Some?
    ensures ParsePrompt(Expert, ChunkPrompt(c).value)
         == Some((TableHtmlKey in c.metadata, EnricherContent(c).value[..Min(MaxPromptChars, |EnricherContent(c).value|)]))
  {
    var content := EnricherContent(c).value;
    PromptRoundTrip(Slice(content, MaxPromptChars), IsTable(c), Expert);
    assert Slice(content, MaxPromptChars) == content[..Min(MaxPromptChars, |content|)];
  }

  /**
   * `_process_single_chunk`: the model dump of a validated response, or `{}` when the
   * call, the decoding or the validation fails. Only a table chunk without an HTML
   * attribute raises, because its truncation lies outside the `try`.
   */
  function ProcessSingleChunk(c: Chunk, chat: string -> Reply): (r: Result<Record, Exception>)
    ensures r.Err? <==> IsTable(c) && c.html.None?
    ensures r.Err? ==> r.error == TypeError
    ensures r.Ok? && r.value != map[] ==> r.value.Keys == FieldNames && ModelValidate(r.value).Ok?
    ensures r.Ok? && chat(FullPrompt(ChunkPrompt(c).value)).Unreachable? ==> r.value == map[]
    ensures EnricherContent(c).Some? && QwenOllamaChunking.GenerateEnrichedChunk(ChunkPrompt(c).value, chat).Ok? ==>
      r == Ok(ModelDump(QwenOllamaChunking.GenerateEnrichedChunk(ChunkPrompt(c).value, chat).value))
    ensures EnricherContent(c).Some? && QwenOllamaChunking.GenerateEnrichedChunk(ChunkPrompt(c).value, chat).Err? ==>
      r == Ok(map[])
  {
    match ChunkPrompt(c)
    case None => Err(TypeError)
    case Some(prompt) =>
      match QwenOllamaChunking.GenerateEnrichedChunk(prompt, chat)
      case Ok(m) => DumpValidateRoundTrip(m); Ok(ModelDump(m))
      case Err(_) => Ok(map[])
  }

  /**
   * A chunk whose prompt is answered with a model's dump is enriched with exactly that dump;
   * an undecodable answer, which fails validation, leaves the chunk with `{}`.
   */
  lemma ProcessSingleChunkOfReply(c: Chunk, chat: string -> Reply, m: ChunkMetadata)
    requires EnricherContent(c).Some?
    ensures chat(FullPrompt(ChunkPrompt(c).value)) == Content(WellFormed(Obj(ModelDump(m)))) ==>
      ProcessSingleChunk(c, chat) == Ok(ModelDump(m))
    ensures chat(FullPrompt(ChunkPrompt(c).value)) == Content(Malformed) ==>
      ProcessSingleChunk(c, chat) == Ok(map[])
  {
    if chat(FullPrompt(ChunkPrompt(c).value)) == Content(WellFormed(Obj(ModelDump(m)))) {
      GenerateOfDumpReply(ChunkPrompt(c).value, chat, m);
    }
  }

  /**
   * The thread pool's `map`, collected into a list: one result per input, in input order;
   * the first call that raises aborts the whole collection.
   */
  function ExecutorMap<A, B>(xs: seq<A>, f: A -> Result<B, Exception>): (r: Result<seq<B>, Exception>)
    ensures r.Ok? <==> forall i :: 0 <= i < |xs| ==> f(xs[i]).Ok?
    ensures r.Ok? ==> |r.value| == |xs|
    ensures r.Ok? ==> forall i :: 0 <= i < |xs| ==> f(xs[i]) == Ok(r.value[i])
  {
    if xs == [] then Ok([])
    else
      match f(xs[0])
      case Err(e) => Err(e)
      case Ok(first) =>
        match ExecutorMap(xs[1..], f)
        case Err(e) => Err(e)
        case Ok(rest) =>
          assert forall i :: 1 <= i < |xs| ==> xs[i] == xs[1..][i - 1];
          Ok([first] + rest)
  }

  /**
   * `enrich_chunk`: one result per chunk, in chunk order, result i computed from chunk i
   * alone. A chunk that raises aborts the whole batch.
   */
  function EnrichChunk(chunks: seq<Chunk>, chat: string -> Reply): (r: Result<seq<Record>, Exception>)
    ensures r.Ok? <==> forall i :: 0 <= i < |chunks| ==> ProcessSingleChunk(chunks[i], chat).Ok?
    ensures r.Ok? ==> |r.value| == |chunks|
    ensures r.Ok? ==> forall i :: 0 <= i < |chunks| ==> ProcessSingleChunk(chunks[i], chat) == Ok(r.value[i])
  {
    ExecutorMap(chunks, c => ProcessSingleChunk(c, chat))
  }
}
