# Chunk enrichment and aggregation for a RAG ingestion pipeline

This project models the part of the retrieval-augmented-generation template that lines
document chunks up with their LLM enrichment and builds the records that get stored and
embedded:

- **Prompt building and response normalisation** (`qwen_ollama_chunking.dfy`,
  `llm_for_chunking.dfy`): the `ChunkMetadata` schema, with pydantic's `model_validate` and
  `model_dump`; the `chunk_enricher` prompt template, whose instruction depends on whether
  the chunk is a table; the full prompt with its JSON-format instruction; and the
  post-processing of the model's reply. That post-processing defaults a missing
  `table_summary` to null and validates the result. The Ollama variant falls back to an empty
  mapping when the reply cannot be decoded; the Gemini variant raises.
- **Per-chunk enricher** (`llm_enrichment.dfy`): table/text classification by the
  `text_as_html` metadata key, truncation to 3000 characters, the prompt for a financial
  analyst, and the call. A failed call becomes `{}`. The batch is an order-preserving map.
- **Chunk aggregator** (`chunk_aggregator.dfy`): the source label derived from path
  segments, the flat record built from a chunk and its enrichment, and the loop that pairs
  chunk *i* with enrichment *i* and drops chunks with empty enrichment. It also models
  appending to or replacing the persisted JSON list, where the file is an object whose
  contents the method rewrites.
- **Embedding-input builder** (`fast_embed_qdrant.dfy`): one stripped embedding text and
  one point per record, with positional ids and the record as payload. Records whose
  enrichment was skipped get special handling. Embedding *i* is attached to point *i*.

Supporting modules:
- `wrappers.dfy`: `Option`, `Result` and the Python exceptions in play.
- `json.dfy`: decoded JSON values.
- `text.dfy`: Python's slicing, `', '.join` and `str.strip`, using Python's whitespace set.
- `chunks.dfy`: a chunk is its text, its metadata dict and its `text_as_html` attribute.

The language model, the chat client and the embedding model are function parameters.
A reply is either unreachable, malformed JSON text, or a decoded JSON value.

The two `llm` modules declare the same `ChunkMetadata` schema and the same
`chunk_enricher`, character for character. Both are modelled once, in `QwenOllamaChunking`.
`LlmForChunking` reuses them and models only its own `generate_enriched_chunk`.

## Model

| member | source | states |
|---|---|---|
| Json.StrArrayRoundTrip | llm/qwen_ollama_chunking.py:9-10 | A list of strings dumps to a JSON array that reads back as the same list, and the only array reading as a given list is its dump |
| Text.Slice | agent/chunk_enrichment/llm_enrichment.py:15 | `s[:n]` is a prefix of `s` of length `min(n, len(s))` |
| Text.Join | agent/embedder/fast_embed_qdrant.py:37 | `sep.join(parts)` of no parts is `""`, and of one part that part; otherwise it starts with the first part and ends with the last. JoinAppend fixes the rest |
| Text.JoinAppend | agent/embedder/fast_embed_qdrant.py:37 | Joining two non-empty lists is joining each with one separator between them, so parts and separators alternate in every join |
| Text.JoinLength | agent/embedder/fast_embed_qdrant.py:37 | A join is as long as all parts together plus one separator between each two neighbours |
| Text.StripLeft | agent/embedder/fast_embed_qdrant.py:41 | Left strip removes exactly the leading whitespace: the result is a suffix, everything dropped is whitespace, and the result does not start with whitespace |
| Text.StripRight | agent/embedder/fast_embed_qdrant.py:41 | Right strip removes exactly the trailing whitespace: the result is a prefix, everything dropped is whitespace, and the result does not end with whitespace |
| Text.Strip | agent/embedder/fast_embed_qdrant.py:41 | `s.strip()` is the window of `s` that starts after the leading whitespace; everything before and after it is whitespace, and it neither starts nor ends with whitespace |
| QwenOllamaChunking.ModelDump | agent/chunk_enrichment/llm_enrichment.py:21 | A dumped metadata object has exactly the four schema keys |
| QwenOllamaChunking.ModelValidate | llm/qwen_ollama_chunking.py:6-11 | Validation fails only with a validation error; when it succeeds, each of the four schema fields is present in the input and equals the dump of the validated object |
| QwenOllamaChunking.ValidateAcceptsDump | llm/qwen_ollama_chunking.py:6-11 | Any dict whose four schema fields are those of a metadata object validates to that object, whatever other keys it holds |
| QwenOllamaChunking.DumpValidateRoundTrip | agent/chunk_enrichment/llm_enrichment.py:20-21 | Validating a dump gives back the same metadata object |
| QwenOllamaChunking.ChunkEnricher | llm/qwen_ollama_chunking.py:13-28 | The chunk text is recovered verbatim from between the head (role, request, table-dependent instruction, content label and opening `---`) and the closing `---` line |
| QwenOllamaChunking.PromptRoundTrip | llm/qwen_ollama_chunking.py:13-28 | For a known role, the prompt determines both the table flag and the chunk text: parsing the prompt recovers them |
| QwenOllamaChunking.PromptMentionsRole | llm/qwen_ollama_chunking.py:20-21 | The prompt contains the expert role verbatim |
| QwenOllamaChunking.PromptMentionsInstruction | llm/qwen_ollama_chunking.py:15-22 | The prompt contains the TABLE instruction for a table and the set-`table_summary`-to-null instruction otherwise |
| QwenOllamaChunking.PromptDelimitsChunkText | llm/qwen_ollama_chunking.py:23-27 | The prompt contains the chunk text verbatim between the two `---` delimiter lines |
| QwenOllamaChunking.FullPrompt | llm/qwen_ollama_chunking.py:41 | The full prompt starts with the metadata prompt, and the JSON-format instruction with the example structure follows it. GenerateOfDumpReply shows that a model answering this prompt with a dump yields that model |
| QwenOllamaChunking.DefaultTableSummary | llm/qwen_ollama_chunking.py:59-61 | Adds `table_summary` as null when it is missing; the keys already present keep their values |
| QwenOllamaChunking.NormaliseResponse | llm/qwen_ollama_chunking.py:59-64 | Only a decoded object is accepted, and only when it holds `summary`, `keywords` and `hypothetical_questions`. The schema fields it holds are those of the result, and a missing `table_summary` becomes `None` |
| QwenOllamaChunking.NormaliseAcceptsConforming | llm/qwen_ollama_chunking.py:59-64 | An object matching a metadata object on summary, keywords and questions, with `table_summary` either matching or absent and then `None`, normalises to that object |
| QwenOllamaChunking.EmptyResponseRejected | llm/qwen_ollama_chunking.py:52-64 | The empty mapping, which is also what an undecodable reply falls back to, fails validation even after defaulting |
| QwenOllamaChunking.GenerateEnrichedChunk | llm/qwen_ollama_chunking.py:30-64 | An unreachable server raises a client error; undecodable reply text falls back to `{}` and so fails with a validation error; a well-formed reply to the full prompt gives exactly the post-processing of the decoded value, and only such a reply can succeed |
| QwenOllamaChunking.GenerateOfDumpReply | llm/qwen_ollama_chunking.py:41-64 | A reply holding a metadata object's dump gives back that object |
| LlmForChunking.GenerateEnrichedChunk | llm/llm_for_chunking.py:47-60 | The Gemini variant sends the metadata prompt unchanged; undecodable reply text raises a JSON decode error; a well-formed reply gives exactly the post-processing of the decoded value, and only such a reply can succeed |
| LlmForChunking.AgreesWithQwen | llm/llm_for_chunking.py:53-60 | Given the same reply, the two variants agree on every reply except undecodable text, where Gemini raises a decode error and Ollama a validation error |
| LlmEnrichment.EnricherContent | agent/chunk_enrichment/llm_enrichment.py:10-11 | The content is the html attribute for a table and the text otherwise; it is missing exactly for a table without html. RecordContentIsUntruncated shows that the aggregator stores this same content, untruncated |
| LlmEnrichment.ChunkPrompt | agent/chunk_enrichment/llm_enrichment.py:10-17 | A prompt exists exactly when the chosen content exists: the html for a table, the text otherwise |
| LlmEnrichment.ChunkPromptCarriesFlagAndPrefix | agent/chunk_enrichment/llm_enrichment.py:10-17 | The prompt is built for "financial analyst". It carries the `text_as_html` flag unchanged and the content truncated to its first `min(3000, len)` characters |
| LlmEnrichment.ProcessSingleChunk | agent/chunk_enrichment/llm_enrichment.py:7-24 | A table chunk without html raises (the truncation is outside the `try`). Otherwise a successful call gives the dump of the generated metadata, and any failed call (unreachable server, undecodable reply, type or validation error) gives `{}`. A non-empty result has exactly the four schema keys and validates |
| LlmEnrichment.ProcessSingleChunkOfReply | agent/chunk_enrichment/llm_enrichment.py:17-24 | A chunk whose prompt is answered with a metadata object's dump is enriched with exactly that dump; an undecodable answer gives `{}` |
| LlmEnrichment.ExecutorMap | agent/chunk_enrichment/llm_enrichment.py:32-34 | The collected map succeeds iff every call does; it then has one result per input, and result i is the call's result on input i |
| LlmEnrichment.EnrichChunk | agent/chunk_enrichment/llm_enrichment.py:27-36 | The batch succeeds iff every chunk does; it then has one result per chunk, and result i is chunk i's own result |
| ChunkAggregator.RelativeParts | ingestion/chunk_enrichment/chunk_aggregator.py:74-77 | Under the root, the root's parts followed by the result are the file's parts; outside it, the result is the file's own parts |
| ChunkAggregator.DeriveSourceLabel | ingestion/chunk_enrichment/chunk_aggregator.py:83-85 | A single relative segment is the label; no segment gives the file name |
| ChunkAggregator.SourceLabelIsJoin | ingestion/chunk_enrichment/chunk_aggregator.py:79-82 | Three or more relative segments give `"/".join` of segments 1 and 2; exactly two give `"/".join` of both |
| ChunkAggregator.SourceLabelOfFilingLayout | ingestion/chunk_enrichment/chunk_aggregator.py:73-80 | For a file three or more segments below the root, the label is the second and third relative segments joined by `/` |
| ChunkAggregator.SourceLabelOfShallowPaths | ingestion/chunk_enrichment/chunk_aggregator.py:79-85 | Two relative segments are joined by `/`; one is the label itself; the root itself gives its file name |
| ChunkAggregator.SourceLabelOutsideRoot | ingestion/chunk_enrichment/chunk_aggregator.py:74-77 | A file not under the root is labelled from its own absolute segments, without raising |
| ChunkAggregator.SourceLabelExample | ingestion/chunk_enrichment/chunk_aggregator.py:73-85 | `<root>/MSFT/8-K/0001/full-submission.txt` is labelled `8-K/0001` |
| ChunkAggregator.RecordContent | ingestion/chunk_enrichment/chunk_aggregator.py:59-67 | The stored content is the enricher's html-or-text when it exists and `""` when a table has no html |
| ChunkAggregator.RecordContentIsUntruncated | ingestion/chunk_enrichment/chunk_aggregator.py:59-67 | The stored content is the same html-or-text that the enricher chose, untruncated; the enricher's prompt carries its first 3000 characters |
| ChunkAggregator.FinalizeChunkData | ingestion/chunk_enrichment/chunk_aggregator.py:53-57 | There is no record exactly when the enrichment is empty |
| ChunkAggregator.FinalizeChunkDataFields | ingestion/chunk_enrichment/chunk_aggregator.py:59-70 | A record's keys are source, content, is_table and every enrichment key, and enrichment values win on a collision. The other fields are the source label, the content (`None` becomes `""`) and whether `text_as_html` is in the metadata |
| ChunkAggregator.EnrichmentAt | ingestion/chunk_enrichment/chunk_aggregator.py:33-35 | Enrichment i when the list has one, an empty enrichment past its end. NewRecordsStep shows that a chunk past the end of the list therefore adds no record |
| ChunkAggregator.NewRecords | ingestion/chunk_enrichment/chunk_aggregator.py:31-38 | After n chunks there are at most n records; which ones NewRecordsAtKeptPositions says |
| ChunkAggregator.KeptPositions | ingestion/chunk_enrichment/chunk_aggregator.py:32-38 | Every kept position is below the chunk count and below the enrichment count, and has a non-empty enrichment |
| ChunkAggregator.KeptPositionsIncreasing | ingestion/chunk_enrichment/chunk_aggregator.py:32-38 | Kept positions are strictly increasing (chunk order) |
| ChunkAggregator.KeptPositionsComplete | ingestion/chunk_enrichment/chunk_aggregator.py:32-38 | Every position with a non-empty enrichment is kept |
| ChunkAggregator.NewRecordsStep | ingestion/chunk_enrichment/chunk_aggregator.py:33-38 | Visiting one more chunk appends its finalised record exactly when its enrichment (or `{}` past the end of the list) is non-empty |
| ChunkAggregator.NewRecordsAtKeptPositions | ingestion/chunk_enrichment/chunk_aggregator.py:31-38 | New record j is the finalised record of the j-th kept position, built from chunk and enrichment at that same index |
| ChunkAggregator.NewRecordsBound | ingestion/chunk_enrichment/chunk_aggregator.py:32-35 | There are no more new records than chunks or enrichments: a short enrichment list only drops records, never fails |
| ChunkAggregator.AllEmptyAddsNothing | ingestion/chunk_enrichment/chunk_aggregator.py:56-57 | Empty enrichments everywhere yield no new records |
| ChunkAggregator.NewRecordsShareSource | ingestion/chunk_enrichment/chunk_aggregator.py:63 | Every record from one call carries the same source label, unless an enrichment overrides `source` |
| ChunkAggregator.CollectNewRecords | ingestion/chunk_enrichment/chunk_aggregator.py:31-38 | The loop collects exactly the run's new records: chunk i paired with enrichment i, or with `{}` past the end of the list |
| ChunkAggregator.CollectEnrichedChunks | ingestion/chunk_enrichment/chunk_aggregator.py:10-50 | Without append, the new records. With append, old records followed by new ones, or only the new ones when there is no file. A non-list file raises TypeError and an undecodable one JSONDecodeError, leaving the file unchanged. Otherwise the file then holds exactly what is returned |
| ChunkAggregator.AppendTwice | ingestion/chunk_enrichment/chunk_aggregator.py:26-43 | Two appending runs over the same inputs add the new records twice, without deduplication |
| FastEmbedQdrant.SummaryOf | agent/embedder/fast_embed_qdrant.py:28 | The record's summary string, or `""` when it has none. SkippedShape and EnrichedShape show how it selects and fills the embedding template |
| FastEmbedQdrant.KeywordsOf | agent/embedder/fast_embed_qdrant.py:29 | The record's keyword list, whose JSON form is the stored value, or no keywords when it has none |
| FastEmbedQdrant.EmbeddingText | agent/embedder/fast_embed_qdrant.py:31-41 | The text neither starts nor ends with whitespace; EmbeddingTextShape gives its contents |
| FastEmbedQdrant.EmbeddingTexts | agent/embedder/fast_embed_qdrant.py:27-41 | One embedding text per record |
| FastEmbedQdrant.EmbeddingTextsAt | agent/embedder/fast_embed_qdrant.py:27-41 | Text i is the embedding text of record i |
| FastEmbedQdrant.EmbeddingTextShape | agent/embedder/fast_embed_qdrant.py:28-41 | The text is the fixed lead: the summary line, the keywords joined by `", "` and the content label, or only the content label for a skipped enrichment. It is followed by the content prefix of at most 1000 characters with its trailing whitespace stripped |
| FastEmbedQdrant.SkippedShape | agent/embedder/fast_embed_qdrant.py:32-41 | For the skipped-enrichment summary, stripping `"Content: " + content[:1000]` only removes trailing whitespace |
| FastEmbedQdrant.EnrichedShape | agent/embedder/fast_embed_qdrant.py:34-41 | For an enriched record, stripping removes the leading and trailing indentation of the template and the content's trailing whitespace, nothing else |
| FastEmbedQdrant.BarePointsAt | agent/embedder/fast_embed_qdrant.py:42-46 | Point i before embedding has id i, an empty vector and record i as payload |
| FastEmbedQdrant.PreparePoints | agent/embedder/fast_embed_qdrant.py:24-46 | The first loop yields the records' embedding texts in order, and one point per record with id = position, an empty vector and the record as payload |
| FastEmbedQdrant.AttachEmbeddings | agent/embedder/fast_embed_qdrant.py:54-55 | Embedding i becomes the vector of point i, and nothing else of the points changes. More embeddings than points raise IndexError |
| FastEmbedQdrant.CreateEmbeddingFromChunks | agent/embedder/fast_embed_qdrant.py:21-55 | The texts are the records' embedding texts in order. There is one point per record, with id = position and payload = the record. Embedding i is on point i. An empty embedding list, or one longer than the points, raises IndexError |
| FastEmbedQdrant.AggregatedRecordsEmbeddable | agent/embedder/fast_embed_qdrant.py:28-38 | A record the aggregator built from a validated enrichment is accepted by the builder, with the enrichment's summary and keywords |

## Left out

- Network clients: the Ollama `Client.chat` call, the Gemini configuration and
  `generate_content`, and the Qdrant client, collection creation and upsert. The chat and
  embedding models are function parameters, and the points are returned as they would be upserted.
- JSON text: decoding is abstract (a reply is well-formed text with a value, or malformed).
  The file is `Missing`, a decoded document, or undecodable. `json.dump`'s `indent=2`
  layout and dict key order are not modelled.
- Which exception a non-object reply raises: for a decoded list or string the
  `'table_summary' not in …` test succeeds and the item assignment raises TypeError,
  unless the list or string contains `table_summary`, in which case the assignment is
  skipped and validation raises. For a number, a boolean or null the `in` test itself
  raises TypeError. The enricher catches all of them, so only their kind is modelled, not
  the exact messages.
- Concurrency: `ThreadPoolExecutor.map` is a sequential, order-preserving map.
- Floating point: embedding vectors are `seq<real>` and only their positional assignment
  to points is modelled.
- In-place update: the in-place `response_data['table_summary'] = None` is a map update on
  the freshly decoded dict, which nothing else aliases.
- Logging, `mkdir` and printing are not modelled.
- Document parsing, title chunking, `main.py` and the sqlite loader are not part of this
  model. Chunks are given as input.
- ChunkAggregator.CollectEnrichedChunks: `filings_root` is a path, never `None`, because
  `Path(None)` raises before any work is done.
- ChunkAggregator.FilePath: a path is an anchor plus its segments, and `relative_to` is a
  segment-prefix test. Windows drive semantics and `..` normalisation are not modelled.
- ChunkAggregator.AppendTwice: requires the file to be absent or a JSON list, since
  otherwise both runs raise.
- FastEmbedQdrant.CreateEmbeddingFromChunks: requires a non-empty record list. An empty
  one raises a NameError at the progress print. It also requires records of the shape the
  aggregator writes: a string `content`, a string `summary` if present, and a list of
  strings as `keywords` if present. AggregatedRecordsEmbeddable proves that every record
  built from a validated enrichment has this shape. The builder itself accepts other
  records: a non-string `summary` such as null is formatted (as `None`), `keywords` given
  as a string joins its characters, and a list `content` is sliced and formatted. A
  `content` that cannot be sliced, or `keywords` that are not strings, raise. None of these
  other records is modelled.
- FastEmbedQdrant.PreparePoints: requires the same record shape as
  CreateEmbeddingFromChunks, for the same reason.
- FastEmbedQdrant.CreateEmbeddingFromChunks: the return value of the source function (it
  returns nothing) and the collection info printout are not modelled.
