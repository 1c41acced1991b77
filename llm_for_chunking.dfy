/**
 * The Gemini client. Its `ChunkMetadata` schema, its `chunk_enricher` and its response
 * post-processing are textually the same as the Qwen client's and are taken from
 * QwenOllamaChunking; what differs is that the prompt is sent as it is and that
 * undecodable response text raises instead of falling back to an empty mapping.
 */
module LlmForChunking {
  import opened Wrappers
  import opened QwenOllamaChunking

  /** `generate_enriched_chunk` of the Gemini client. */
  function GenerateEnrichedChunk(metadataPrompt: string, generate: string -> Reply): (r: Result<ChunkMetadata, Exception>)
    ensures generate(metadataPrompt).Unreachable? ==> r == Err(ClientError)
    ensures generate(metadataPrompt) == Content(Malformed) ==> r == Err(JsonDecodeError)
    ensures r.Ok? ==> generate(metadataPrompt).Content? && generate(metadataPrompt).text.WellFormed?
    ensures generate(metadataPrompt).Content? && generate(metadataPrompt).text.WellFormed? ==>
      r == NormaliseResponse(generate(metadataPrompt).text.value)
  {
    match generate(metadataPrompt)
    case Unreachable => Err(ClientError)
    case Content(Malformed) => Err(JsonDecodeError)
    case Content(WellFormed(v)) => NormaliseResponse(v)
  }

  /**
   * Given the same reply, the two clients agree on every decodable response; on an
   * undecodable one both fail, the Qwen client in validation of its empty fallback
   * mapping, the Gemini client in decoding.
   */
  lemma AgreesWithQwen(metadataPrompt: string, generate: string -> Reply, chat: string -> Reply)
    requires generate(metadataPrompt) == chat(FullPrompt(metadataPrompt))
    ensures generate(metadataPrompt) != Content(Malformed) ==>
      GenerateEnrichedChunk(metadataPrompt, generate) == QwenOllamaChunking.GenerateEnrichedChunk(metadataPrompt, chat)
    ensures generate(metadataPrompt) == Content(Malformed) ==>
      && GenerateEnrichedChunk(metadataPrompt, generate) == Err(JsonDecodeError)
      && QwenOllamaChunking.GenerateEnrichedChunk(metadataPrompt, chat) == Err(ValidationError)
  {
  }
}
