/**
 * The document chat endpoint: find the document, embed the question,
 * retrieve the five best-matching chunks of that document, build the system
 * prompt around them, and answer with the first completion. The embedding
 * service, the vector index and the completion service are oracle results
 * given as parameters; the handler's requests to them are returned as a trace.
 */
module ChatRoute {
  import opened Wrappers
  import opened Js
  import Strings
  import Store

  /** A retrieved chunk; `metadata` is absent when the index stores none. */
  datatype Match = Match(metadata: Option<map<string, Json>>)

  /** The assistant message of a completion choice; `content` is absent when not sent. */
  datatype AssistantMessage = AssistantMessage(content: Option<Json>)

  datatype Choice = Choice(message: Option<AssistantMessage>)

  /**
   * What the outside world answers. `None` for a service means its call
   * throws; the lists are the `data`, `matches` and `choices` arrays.
   */
  datatype Services = Services(
    documents: seq<Store.Row>,
    lookup: Store.Fault,
    embeddings: Option<seq<seq<real>>>,
    matches: Option<seq<Match>>,
    choices: Option<seq<Choice>>)

  datatype ChatMessage = ChatMessage(role: string, content: Option<Json>)

  /** A request the handler makes of another service. */
  datatype Call =
    | Lookup(table: string, column: string, value: string)
    | Embed(model: string, input: Option<Json>)
    | Query(namespace: string, vector: seq<real>, topK: nat, filename: Option<Json>, includeMetadata: bool)
    | Complete(model: string, messages: seq<ChatMessage>, temperature: real)

  const NotFound := Response(404, JObj(map["error" := JStr("Document not found")]))
  const Failure := Response(500, JObj(map["error" := JStr("Failed to process chat request")]))

  const Namespace := "federal-documents"
  const TopK := 5
  const EmbeddingModel := "text-embedding-3-small"
  const CompletionModel := "gpt-4"

  // ---------------------------------------------------------------------------
  // The system prompt
  // ---------------------------------------------------------------------------

  /** `match.metadata?.text || ""`: the chunk's text, or "" when it has none. */
  function SectionText(m: Match): (t: string)
    ensures m.metadata.None? ==> t == ""
    ensures m.metadata.Some? && !Truthy(if "text" in m.metadata.value then Some(m.metadata.value["text"]) else None) ==> t == ""
    ensures m.metadata.Some? && "text" in m.metadata.value && m.metadata.value["text"].JStr? ==>
      t == m.metadata.value["text"].s
  {
    match m.metadata
    case None => ""
    case Some(fields) =>
      var text := if "text" in fields then Some(fields["text"]) else None;
      if Truthy(text) then ToText(text.value) else ""
  }

  /** One text per match, in the order the index ranked them. */
  function SectionTexts(matches: seq<Match>): (r: seq<string>)
    ensures |r| == |matches|
    ensures forall i :: 0 <= i < |matches| ==> r[i] == SectionText(matches[i])
  {
    seq(|matches|, i requires 0 <= i < |matches| => SectionText(matches[i]))
  }

  /** The RELEVANT SECTIONS block: the texts separated by blank lines. */
  function RelevantSections(matches: seq<Match>): string {
    Strings.Join(SectionTexts(matches), "\n\n")
  }

  /** The block of an earlier-ranked group of matches comes first, before a blank line and the rest. */
  lemma SectionsInRankOrder(matches: seq<Match>, i: nat)
    requires 0 < i < |matches|
    ensures RelevantSections(matches) == RelevantSections(matches[..i]) + "\n\n" + RelevantSections(matches[i..])
  {
    var texts := SectionTexts(matches);
    Strings.JoinSplit(texts, "\n\n", i);
    assert texts[..i] == SectionTexts(matches[..i]);
    assert texts[i..] == SectionTexts(matches[i..]);
  }

  /** The best-ranked match's text opens the block. */
  lemma TopMatchFirst(matches: seq<Match>)
    requires |matches| > 0
    ensures Strings.IsPrefix(SectionText(matches[0]), RelevantSections(matches))
  {
    Strings.JoinHead(SectionTexts(matches), "\n\n");
  }

  /** A single match contributes exactly its text, so a match without text leaves the block empty. */
  lemma SingleSection(m: Match)
    ensures RelevantSections([m]) == SectionText(m)
  {
    assert SectionTexts([m]) == [SectionText(m)];
  }

  const Opening := "You are an AI assistant helping with questions about a specific federal document.\n    \n    DOCUMENT CONTEXT:\n"
  const Instructions :=
    "\n\n    Instructions:\n" +
    "    1. Base your responses on the provided document sections above\n" +
    "    2. If specific information is found in the text, cite or quote it\n" +
    "    3. If you cannot find relevant information in the provided sections, say so\n" +
    "    4. Be precise and factual when discussing the document's content\n" +
    "    5. Only make statements that are directly supported by the document content"

  /** `${document.field}`: the row's value as text, "undefined" for a missing column. */
  function Field(document: Store.Row, column: string): string {
    Interpolate(if column in document then Some(document[column]) else None)
  }

  /** One labelled line of the document context, e.g. `    Title: ${document.title}`. */
  function ContextLine(name: string, document: Store.Row, column: string): string {
    "    " + name + ": " + Field(document, column) + "\n"
  }

  /** The context part: title, agency, type and date of the document, one labelled line each. */
  function DocumentContext(document: Store.Row): string {
    ContextLine("Title", document, "title") + ContextLine("Agency", document, "agencyId") +
    ContextLine("Type", document, "documentType") + ContextLine("Date", document, "postedDate")
  }

  /** The retrieved sections under their heading, then the fixed instructions. */
  function SectionsBlock(matches: seq<Match>): string {
    "RELEVANT SECTIONS:\n    " + RelevantSections(matches) + Instructions
  }

  /** The system prompt: the fixed opening, the document context, then the sections block. */
  function SystemPrompt(document: Store.Row, matches: seq<Match>): string {
    Opening + DocumentContext(document) + ("    \n    " + SectionsBlock(matches))
  }

  /**
   * The prompt opens with the fixed text and the document context, and
   * carries the title, agency, type and date lines of the document.
   */
  lemma SystemPromptContext(document: Store.Row, matches: seq<Match>)
    ensures Strings.IsPrefix(Opening + DocumentContext(document), SystemPrompt(document, matches))
    ensures Strings.OccursIn(ContextLine("Title", document, "title"), SystemPrompt(document, matches))
    ensures Strings.OccursIn(ContextLine("Agency", document, "agencyId"), SystemPrompt(document, matches))
    ensures Strings.OccursIn(ContextLine("Type", document, "documentType"), SystemPrompt(document, matches))
    ensures Strings.OccursIn(ContextLine("Date", document, "postedDate"), SystemPrompt(document, matches))
  {
    var title := ContextLine("Title", document, "title");
    var agency := ContextLine("Agency", document, "agencyId");
    var kind := ContextLine("Type", document, "documentType");
    var date := ContextLine("Date", document, "postedDate");
    var context := DocumentContext(document);
    var tail := "    \n    " + SectionsBlock(matches);
    Strings.FourParts(title, agency, kind, date);
    Strings.PrefixOfConcat(Opening, context, tail);
    Strings.OccursWithin(title, Opening, context, tail);
    Strings.OccursWithin(agency, Opening, context, tail);
    Strings.OccursWithin(kind, Opening, context, tail);
    Strings.OccursWithin(date, Opening, context, tail);
  }

  /** The prompt holds the retrieved sections under their heading, followed by the instructions. */
  lemma SystemPromptSections(document: Store.Row, matches: seq<Match>)
    ensures Strings.OccursIn(SectionsBlock(matches), SystemPrompt(document, matches))
  {
    Strings.OccursAtEnd("    \n    ", SectionsBlock(matches));
    Strings.OccursInSuffix(SectionsBlock(matches), Opening + DocumentContext(document), "    \n    " + SectionsBlock(matches));
  }

  // ---------------------------------------------------------------------------
  // The handler
  // ---------------------------------------------------------------------------

  /** The body parses and can be destructured (it is not `null`). */
  predicate Readable(body: Option<Json>) {
    body.Some? && !body.value.JNull?
  }

  /** `${documentId}` as the store filter sends it. */
  function DocumentKey(body: Json): string {
    Interpolate(Prop(body, "documentId"))
  }

  /** The lookup finds exactly one row, which `.single()` requires. */
  predicate DocumentFound(body: Json, services: Services) {
    services.lookup.Healthy? && Store.CountWhere(services.documents, "doc_id", DocumentKey(body)) == 1
  }

  function FoundDocument(body: Json, services: Services): Store.Row
    requires DocumentFound(body, services)
  {
    Store.Where(services.documents, "doc_id", DocumentKey(body))[0]
  }

  /** Every later service answers with something the handler can use. */
  predicate ServicesAnswer(services: Services) {
    services.embeddings.Some? && |services.embeddings.value| > 0 &&
    services.matches.Some? &&
    services.choices.Some? && |services.choices.value| > 0
  }

  /** `{ response: choices[0].message?.content }`; an undefined content leaves the key out. */
  function AnswerBody(choice: Choice): (body: Json)
    ensures body.JObj? && body.fields.Keys <= {"response"}
    ensures choice.message.Some? && choice.message.value.content.Some? ==>
      body.fields == map["response" := choice.message.value.content.value]
    ensures (choice.message.None? || choice.message.value.content.None?) ==> body.fields == map[]
  {
    if choice.message.Some? && choice.message.value.content.Some? then
      JObj(map["response" := choice.message.value.content.value])
    else
      JObj(map[])
  }

  /**
   * The part of the handler after the document is found: embed the question,
   * retrieve five chunks of the document, ask for the completion. Any
   * service failure throws, which the handler answers with 500.
   */
  method Answer(request: Json, document: Store.Row, services: Services) returns (response: Response, calls: seq<Call>)
    ensures |calls| >= 1 && calls[0] == Embed(EmbeddingModel, Prop(request, "message"))
    ensures response.status == 200 <==> ServicesAnswer(services)
    ensures !ServicesAnswer(services) ==> response == Failure
    ensures (services.embeddings.Some? && |services.embeddings.value| > 0) ==>
      |calls| >= 2 && calls[1] == Query(Namespace, services.embeddings.value[0], TopK, Prop(request, "documentId"), true)
    ensures ServicesAnswer(services) ==>
      |calls| == 3 &&
      calls[2] == Complete(CompletionModel,
        [ChatMessage("system", Some(JStr(SystemPrompt(document, services.matches.value)))),
         ChatMessage("user", Prop(request, "message"))], 0.7) &&
      response.body == AnswerBody(services.choices.value[0])
  {
    var message := Prop(request, "message");
    var embed := Embed(EmbeddingModel, message);
    if services.embeddings.None? || |services.embeddings.value| == 0 {
      return Failure, [embed];
    }
    var embedding := services.embeddings.value[0];

    var query := Query(Namespace, embedding, TopK, Prop(request, "documentId"), true);
    if services.matches.None? {
      return Failure, [embed, query];
    }
    var systemPrompt := SystemPrompt(document, services.matches.value);

    var complete := Complete(CompletionModel, [ChatMessage("system", Some(JStr(systemPrompt))), ChatMessage("user", message)], 0.7);
    calls := [embed, query, complete];
    if services.choices.None? || |services.choices.value| == 0 {
      return Failure, calls;
    }
    response := Response(200, AnswerBody(services.choices.value[0]));
  }

  /**
   * `POST /api/chat`. A body that does not parse, or `null`, throws and
   * answers 500 before any call. The document is looked up first; unless
   * exactly one row is found the answer is 404 (500 if the lookup throws)
   * and nothing else is asked. Then `Answer` does the rest.
   */
  method Post(body: Option<Json>, services: Services) returns (response: Response, calls: seq<Call>)
    ensures !Readable(body) ==> response == Failure && calls == []
    ensures Readable(body) ==> |calls| >= 1 && calls[0] == Lookup("federal_documents", "doc_id", DocumentKey(body.value))
    ensures Readable(body) && services.lookup.Throws? ==> response == Failure && |calls| == 1
    ensures Readable(body) && !services.lookup.Throws? && !DocumentFound(body.value, services) ==>
      response == NotFound && |calls| == 1
    ensures response.status == 404 <==> Readable(body) && !services.lookup.Throws? && !DocumentFound(body.value, services)
    ensures response.status == 200 <==> Readable(body) && DocumentFound(body.value, services) && ServicesAnswer(services)
    ensures response.status != 200 && response.status != 404 ==> response == Failure
    ensures Readable(body) && DocumentFound(body.value, services) ==>
      |calls| >= 2 && calls[1] == Embed(EmbeddingModel, Prop(body.value, "message"))
    ensures (Readable(body) && DocumentFound(body.value, services) &&
             services.embeddings.Some? && |services.embeddings.value| > 0) ==>
      |calls| >= 3 &&
      calls[2] == Query(Namespace, services.embeddings.value[0], TopK, Prop(body.value, "documentId"), true)
    ensures (Readable(body) && DocumentFound(body.value, services) && ServicesAnswer(services)) ==>
      |calls| == 4 &&
      calls[3] == Complete(CompletionModel,
        [ChatMessage("system", Some(JStr(SystemPrompt(FoundDocument(body.value, services), services.matches.value)))),
         ChatMessage("user", Prop(body.value, "message"))], 0.7) &&
      response.body == AnswerBody(services.choices.value[0])
  {
    calls := [];
    if !Readable(body) {
      return Failure, calls;
    }
    var request := body.value;
    var key := Interpolate(Prop(request, "documentId"));
    calls := [Lookup("federal_documents", "doc_id", key)];
    match services.lookup {
      case Throws(_) =>
        return Failure, calls;
      case Fails(_) =>
        return NotFound, calls;
      case Healthy =>
        match Store.Single(Store.Where(services.documents, "doc_id", key)) {
          case NotSingle(_) =>
            return NotFound, calls;
          case Found(document) =>
            var later;
            response, later := Answer(request, document, services);
            calls := calls + later;
        }
    }
  }
}
