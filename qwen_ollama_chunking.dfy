/**
 * The prompt builder, the response schema and the response post-processing of the
 * Qwen/Ollama client. The Gemini client (module LlmForChunking) has a textually identical
 * schema, prompt builder and post-processing, and reuses the definitions here.
 */
module QwenOllamaChunking {
  import opened Wrappers
  import opened Json
  import opened Text

  // ---------------------------------------------------------------------------
  // The ChunkMetadata schema
  // ---------------------------------------------------------------------------

  /** A validated LLM response: the `ChunkMetadata` pydantic model. */
  datatype ChunkMetadata = ChunkMetadata(
    summary: string,
    keywords: seq<string>,
    hypotheticalQuestions: seq<string>,
    tableSummary: Option<string>)

  const SummaryKey := "summary"
  const KeywordsKey := "keywords"
  const QuestionsKey := "hypothetical_questions"
  const TableSummaryKey := "table_summary"
  const FieldNames: set<string> := {SummaryKey, KeywordsKey, QuestionsKey, TableSummaryKey}

  /** `model_dump()`: the model as a plain dict holding exactly the four schema fields. */
  function ModelDump(m: ChunkMetadata): (r: Record)
    ensures r.Keys == FieldNames
  {
    map[SummaryKey := Str(m.summary),
        KeywordsKey := StrArray(m.keywords),
        QuestionsKey := StrArray(m.hypotheticalQuestions),
        TableSummaryKey := if m.tableSummary.Some? then Str(m.tableSummary.value) else Null]
  }

  /**
   * `ChunkMetadata.model_validate(data)`: a string `summary`, two lists of strings and a
   * string-or-null `table_summary`, all four required; other keys are ignored.
   * A success is a model whose dump agrees with `data` on the four fields.
   */
  function ModelValidate(data: Record): (r: Result<ChunkMetadata, Exception>)
    ensures r.Err? ==> r.error == ValidationError
    ensures r.Ok? ==> forall k :: k in FieldNames ==> k in data && data[k] == ModelDump(r.value)[k]
  {
    if && SummaryKey in data && data[SummaryKey].Str?
       && KeywordsKey in data && AsStrings(data[KeywordsKey]).Some?
       && QuestionsKey in data && AsStrings(data[QuestionsKey]).Some?
       && TableSummaryKey in data && (data[TableSummaryKey].Null? || data[TableSummaryKey].Str?)
    then
      var m := ChunkMetadata(
        data[SummaryKey].s,
        AsStrings(data[KeywordsKey]).value,
        AsStrings(data[QuestionsKey]).value,
        if data[TableSummaryKey].Str? then Some(data[TableSummaryKey].s) else None);
      StrArrayRoundTrip(m.keywords, data[KeywordsKey]);
      StrArrayRoundTrip(m.hypotheticalQuestions, data[QuestionsKey]);
      Ok(m)
    else
      Err(ValidationError)
  }

  /** Validation accepts every mapping that agrees with some model's dump on the four fields. */
  lemma ValidateAcceptsDump(data: Record, m: ChunkMetadata)
    requires forall k :: k in FieldNames ==> k in data && data[k] == ModelDump(m)[k]
    ensures ModelValidate(data) == Ok(m)
  {
    assert SummaryKey in FieldNames && KeywordsKey in FieldNames;
    assert QuestionsKey in FieldNames && TableSummaryKey in FieldNames;
    StrArrayRoundTrip(m.keywords, data[KeywordsKey]);
    StrArrayRoundTrip(m.hypotheticalQuestions, data[QuestionsKey]);
  }

  /** Dumping a model and validating the dump gives the model back. */
  lemma DumpValidateRoundTrip(m: ChunkMetadata)
    ensures ModelValidate(ModelDump(m)) == Ok(m)
  {
    ValidateAcceptsDump(ModelDump(m), m);
  }

  // ---------------------------------------------------------------------------
  // chunk_enricher: the per-chunk prompt
  // ---------------------------------------------------------------------------

  const PromptOpening := "\n    You are an expert "
  const PromptRequest := ". Please analyze the following document chunk and generate the specified metadata.\n    "
  // The two instructions are written in pieces so that the verifier sees the first
  // character where they differ (it does not unfold long string literals).
  const InstructionLead := "This chunk is "
  const TableInstruction := InstructionLead + "a TABLE. " + "Your summary should describe the main data points and trends."
  const TextInstruction := InstructionLead + "NOT a table. " + "You MUST set the 'table_summary' field to null."
  const ContentLabel := "\n    Chunk Content:\n    "
  const OpeningDelimiter := "---\n    "
  const ClosingDelimiter := "\n    ---"
  const ContentOpening := ContentLabel + OpeningDelimiter
  const ContentClosing := ClosingDelimiter + "\n    "

  function Instruction(isTable: bool): string {
    if isTable then TableInstruction else TextInstruction
  }

  /**
   * `chunk_enricher(chunk_text, is_table, expert_role)`: the f-string prompt. The chunk text
   * sits between a head that names the role, the request, the instruction and the opening
   * delimiter, and the closing delimiter.
   */
  function ChunkEnricher(chunkText: string, isTable: bool, expertRole: string): (r: string)
    ensures Between(r, PromptOpening + expertRole + PromptRequest + Instruction(isTable) + ContentOpening, ContentClosing)
         == Some(chunkText)
  {
    var pre := PromptOpening + expertRole + PromptRequest + Instruction(isTable) + ContentOpening;
    BetweenConcat(pre, chunkText, ContentClosing);
    pre + chunkText + ContentClosing
  }

  /** The text strictly between a leading `pre` and a trailing `post`, if `s` has both. */
  function Between(s: string, pre: string, post: string): Option<string> {
    if |pre| + |post| <= |s| && IsPrefix(pre, s) && s[|s| - |post|..] == post
    then Some(s[|pre|..|s| - |post|])
    else None
  }

  /** Between recovers what was put between its two delimiters. */
  lemma BetweenConcat(pre: string, t: string, post: string)
    ensures Between(pre + t + post, pre, post) == Some(t)
  {
    var s := pre + t + post;
    assert s[..|pre|] == pre;
    assert s[|s| - |post|..] == post;
    assert s[|pre|..|s| - |post|] == t;
  }

  /** Reading past a prefix gives back the rest. */
  lemma PrefixThenRest(head: string, rest: string)
    ensures IsPrefix(head, head + rest) && (head + rest)[|head|..] == rest
  {
    assert (head + rest)[..|head|] == head;
  }

  /** The prompt as the role-naming head and the instruction-led rest. */
  lemma PromptSplits(chunkText: string, isTable: bool, expertRole: string)
    ensures ChunkEnricher(chunkText, isTable, expertRole)
         == (PromptOpening + expertRole + PromptRequest)
          + ((Instruction(isTable) + ContentOpening) + chunkText + ContentClosing)
  {
    var head := PromptOpening + expertRole + PromptRequest;
    var instruction := Instruction(isTable);
    ConcatAssoc(head, instruction, ContentOpening);
    ConcatAssoc(head, instruction + ContentOpening, chunkText);
    ConcatAssoc(head, (instruction + ContentOpening) + chunkText, ContentClosing);
  }

  /**
   * Reads a prompt written for `expertRole` back into its table flag and its chunk text;
   * an independent inverse of ChunkEnricher.
   */
  function ParsePrompt(expertRole: string, prompt: string): Option<(bool, string)> {
    var head := PromptOpening + expertRole + PromptRequest;
    if !IsPrefix(head, prompt) then None
    else
      var rest := prompt[|head|..];
      match Between(rest, TableInstruction + ContentOpening, ContentClosing)
      case Some(t) => Some((true, t))
      case None =>
        match Between(rest, TextInstruction + ContentOpening, ContentClosing)
        case Some(t) => Some((false, t))
        case None => None
  }

  /** The prompt determines the table flag and the chunk text: ParsePrompt recovers both. */
  lemma PromptRoundTrip(chunkText: string, isTable: bool, expertRole: string)
    ensures ParsePrompt(expertRole, ChunkEnricher(chunkText, isTable, expertRole)) == Some((isTable, chunkText))
  {
    var head := PromptOpening + expertRole + PromptRequest;
    var pre := Instruction(isTable) + ContentOpening;
    var rest := pre + chunkText + ContentClosing;
    PromptSplits(chunkText, isTable, expertRole);
    PrefixThenRest(head, rest);
    BetweenConcat(pre, chunkText, ContentClosing);
    if !isTable {
      var tablePre := TableInstruction + ContentOpening;
      assert tablePre[|InstructionLead|] == 'a';
      assert rest[|InstructionLead|] == 'N';
      assert !IsPrefix(tablePre, rest);
    }
  }

  /** The prompt names the expert role. */
  lemma PromptMentionsRole(chunkText: string, isTable: bool, expertRole: string)
    ensures IsInfix(expertRole, ChunkEnricher(chunkText, isTable, expertRole))
  {
    var rest := (Instruction(isTable) + ContentOpening) + chunkText + ContentClosing;
    PromptSplits(chunkText, isTable, expertRole);
    InfixOfConcat(PromptOpening, expertRole, PromptRequest);
    InfixExtend(expertRole, PromptOpening + expertRole + PromptRequest, rest);
  }

  /** The prompt carries the instruction chosen by the table flag. */
  lemma PromptMentionsInstruction(chunkText: string, isTable: bool, expertRole: string)
    ensures IsInfix(Instruction(isTable), ChunkEnricher(chunkText, isTable, expertRole))
  {
    var head := PromptOpening + expertRole + PromptRequest;
    var tail := ContentOpening + chunkText + ContentClosing;
    var instruction := Instruction(isTable);
    ConcatAssoc(instruction, ContentOpening, chunkText);
    ConcatAssoc(instruction, ContentOpening + chunkText, ContentClosing);
    ConcatAssoc(head, instruction, tail);
    PromptSplits(chunkText, isTable, expertRole);
    InfixOfConcat(head, instruction, tail);
  }

  /** The prompt holds the chunk text verbatim between two `---` delimiter lines. */
  lemma PromptDelimitsChunkText(chunkText: string, isTable: bool, expertRole: string)
    ensures IsInfix(OpeningDelimiter + chunkText + ClosingDelimiter, ChunkEnricher(chunkText, isTable, expertRole))
  {
    var lead := PromptOpening + expertRole + PromptRequest + Instruction(isTable) + ContentLabel;
    var h := PromptOpening + expertRole + PromptRequest + Instruction(isTable);
    ConcatAssoc(h, ContentLabel, OpeningDelimiter);
    ConcatAssoc(lead, OpeningDelimiter, chunkText);
    ConcatAssoc(lead, OpeningDelimiter + chunkText, ClosingDelimiter);
    ConcatAssoc(lead + OpeningDelimiter + chunkText, ClosingDelimiter, "\n    ");
    InfixOfConcat(lead, OpeningDelimiter + chunkText + ClosingDelimiter, "\n    ");
  }

  // ---------------------------------------------------------------------------
  // generate_enriched_chunk: the full prompt and the response post-processing
  // ---------------------------------------------------------------------------

  /** `json.dumps(example_structure, indent=2)`. */
  const ExampleStructure :=
    "{\n  \"summary\": \"A concise 1-2 sentence summary of the chunk.\",\n  \"keywords\": [\n    \"keyword1\",\n    \"keyword2\",\n    \"keyword3\"\n  ],\n  \"hypothetical_questions\": [\n    \"Question 1?\",\n    \"Question 2?\",\n    \"Question 3?\"\n  ],\n  \"table_summary\": \"Summary of table data or null if not a table\"\n}"

  const JsonInstruction :=
    "\n\nRespond strictly in JSON format. The output must be a single JSON object matching this structure:\n"
      + ExampleStructure

  /** The text sent to the model: the metadata prompt, then the JSON-format instruction. */
  function FullPrompt(metadataPrompt: string): (r: string)
    ensures IsPrefix(metadataPrompt, r) && r[|metadataPrompt|..] == JsonInstruction
  {
    metadataPrompt + JsonInstruction
  }

  /** The content of a chat reply, with JSON decoding left abstract. */
  datatype JsonText = Malformed | WellFormed(value: Value)

  /** What the chat or generation request gives back. */
  datatype Reply = Unreachable | Content(text: JsonText)

  /** Adding `table_summary: None` when the key is missing; every present key is kept. */
  function DefaultTableSummary(data: Record): (r: Record)
    ensures r.Keys == data.Keys + {TableSummaryKey}
    ensures forall k :: k in data ==> r[k] == data[k]
    ensures TableSummaryKey !in data ==> r[TableSummaryKey] == Null
  {
    if TableSummaryKey !in data then data[TableSummaryKey := Null] else data
  }

  /**
   * The post-processing of a decoded reply: default `table_summary`, then validate.
   * A decoded value that is not an object fails: `in` or the item assignment raises a
   * TypeError, or, when the key test happens to succeed, validation rejects it.
   */
  function NormaliseResponse(data: Value): (r: Result<ChunkMetadata, Exception>)
    ensures r.Ok? ==> data.Obj?
    ensures r.Ok? ==> forall k :: k in FieldNames && k != TableSummaryKey ==> k in data.fields
    ensures r.Ok? ==> forall k :: k in data.fields && k in FieldNames ==> data.fields[k] == ModelDump(r.value)[k]
    ensures r.Ok? && TableSummaryKey !in data.fields ==> r.value.tableSummary == None
  {
    match data
    case Obj(fields) => ModelValidate(DefaultTableSummary(fields))
    case Arr(items) => if Str(TableSummaryKey) in items then Err(ValidationError) else Err(TypeError)
    case Str(s) => if IsInfix(TableSummaryKey, s) then Err(ValidationError) else Err(TypeError)
    case _ => Err(TypeError)
  }

  /**
   * An object reply is accepted when its three required fields agree with a model and its
   * `table_summary` agrees too or is missing while the model has none.
   */
  lemma NormaliseAcceptsConforming(fields: Record, m: ChunkMetadata)
    requires forall k :: k in FieldNames && k != TableSummaryKey ==> k in fields && fields[k] == ModelDump(m)[k]
    requires TableSummaryKey in fields ==> fields[TableSummaryKey] == ModelDump(m)[TableSummaryKey]
    requires TableSummaryKey !in fields ==> m.tableSummary.None?
    ensures NormaliseResponse(Obj(fields)) == Ok(m)
  {
    ValidateAcceptsDump(DefaultTableSummary(fields), m);
  }

  /** An empty mapping is rejected even after `table_summary` has been defaulted. */
  lemma EmptyResponseRejected()
    ensures NormaliseResponse(Obj(map[])) == Err(ValidationError)
  {
    assert SummaryKey !in DefaultTableSummary(map[]);
  }

  /**
   * `generate_enriched_chunk` of the Qwen client: send the full prompt, decode the reply
   * (undecodable content becomes the empty mapping), then post-process it.
   */
  function GenerateEnrichedChunk(metadataPrompt: string, chat: string -> Reply): (r: Result<ChunkMetadata, Exception>)
    ensures chat(FullPrompt(metadataPrompt)).Unreachable? ==> r == Err(ClientError)
    ensures chat(FullPrompt(metadataPrompt)) == Content(Malformed) ==> r == Err(ValidationError)
    ensures r.Ok? ==> chat(FullPrompt(metadataPrompt)).Content? && chat(FullPrompt(metadataPrompt)).text.WellFormed?
    ensures chat(FullPrompt(metadataPrompt)).Content? && chat(FullPrompt(metadataPrompt)).text.WellFormed? ==>
      r == NormaliseResponse(chat(FullPrompt(metadataPrompt)).text.value)
  {
    match chat(FullPrompt(metadataPrompt))
    case Unreachable => Err(ClientError)
    case Content(Malformed) => EmptyResponseRejected(); NormaliseResponse(Obj(map[]))
    case Content(WellFormed(v)) => NormaliseResponse(v)
  }

  /** A reply holding exactly a model's dump is turned back into that model. */
  lemma GenerateOfDumpReply(metadataPrompt: string, chat: string -> Reply, m: ChunkMetadata)
    requires chat(FullPrompt(metadataPrompt)) == Content(WellFormed(Obj(ModelDump(m))))
    ensures GenerateEnrichedChunk(metadataPrompt, chat) == Ok(m)
  {
    NormaliseAcceptsConforming(ModelDump(m), m);
  }
}
