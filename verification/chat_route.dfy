/** The chat endpoint's POST handler: validate the request, embed the
    latest question, search the vector store, compose the prompt and relay the
    model's streamed answer. The embedder, the vector store, the generator and
    the JSON serialiser are oracle values in a `Backend`. Every call the handler
    makes to the embedder, the vector store and the generator is recorded in a
    trace, in order; the serialiser is a plain function and is not traced. */
module ChatRoute {
  import opened Common
  import opened JsString

  /** A field of a parsed JSON value as `x?.field?.trim()` sees it: missing
      (`undefined` or `null`), a string, or some other value, on which `.trim`
      is not a function and calling it throws a TypeError with the given message. */
  datatype Field = Absent | Text(s: string) | NotString(typeError: string)

  /** One element of the request's `messages` array. */
  datatype WireMessage = Entry(role: Field, content: Field) | NonObject

  /** The `messages` property of the parsed body. */
  datatype MessagesField = NotArray | Array(items: seq<WireMessage>)

  /** The request body: reading it threw (malformed JSON, or a `null` body that
      cannot be destructured), or it parsed. */
  datatype Body = Unreadable(error: Thrown) | Parsed(messages: MessagesField)

  /** A stored document returned by the vector search. */
  datatype Doc = Doc(text: Field)

  /** One streamed chunk from the model; `text` is the first candidate's first
      part's text, when the chunk has one. */
  datatype Chunk = Chunk(text: Option<string>)

  /** How the model's stream ended: normally, or by throwing mid-stream. */
  datatype StreamEnd = Completed | Broke(error: Thrown)

  datatype ModelStream = ModelStream(chunks: seq<Chunk>, end: StreamEnd)

  /** What the external services answer for this request: the embedding call
      (the length of `embeddings[0].values`, when present), the vector search
      (documents in ranked order), the streaming generation call, and
      `JSON.stringify` applied to the history. */
  datatype Backend = Backend(
    embedding: Attempt<Option<nat>>,
    search: Attempt<seq<Doc>>,
    generation: Attempt<ModelStream>,
    serialize: seq<WireMessage> -> string)

  /** The parts the prompt is laid out from: the fixed persona, the context
      string, the serialised history and the question. The text the model
      receives is `Render` of it. */
  datatype Prompt = Prompt(persona: string, context: string, history: string, question: string)

  /** The calls the handler makes to the external services. */
  datatype Call =
    | Embed(model: string, text: string)
    | Search(vectorLength: nat, limit: nat)
    | Generate(model: string, prompt: Prompt)

  /** How the relayed response body ends. */
  datatype RelayEnd = Closed | Errored(error: Thrown)

  datatype Response =
    | JsonError(status: nat, error: string, details: Option<string>)
    | TextStream(status: nat, fragments: seq<string>, end: RelayEnd)

  /** The response, the calls made on the way, and whether the
      "no context texts" warning was logged. */
  datatype Handled = Handled(response: Response, calls: seq<Call>, emptyContextWarning: bool)

  const EmbeddingModel: string := "text-embedding-004"
  const GenerationModel: string := "gemini-2.5-flash-preview-04-17"
  /** The dimension of the stored vectors; a query embedding of any other length is refused. */
  const Dimension: nat := 768
  /** How many documents the vector search returns at most. */
  const TopK: nat := 10

  const InvalidFormat: string := "Invalid messages format"
  const NoContent: string := "No valid message content found"
  const BadEmbedding: string := "Failed to generate valid embedding"
  const InternalError: string := "Internal server error"

  function BadRequest(error: string): Response {
    JsonError(400, error, None)
  }

  /** The catch-all answer for anything thrown before the response is returned. */
  function ServerError(e: Thrown): Response {
    JsonError(500, InternalError, Some(Details(e)))
  }

  /** `f?.trim()`: missing stays missing, a string is trimmed, anything else throws. */
  function TrimField(f: Field): Attempt<Option<string>> {
    match f
    case Absent => Done(None)
    case Text(s) => Done(Some(Trim(s)))
    case NotString(m) => Threw(ErrorObj("TypeError", m))
  }

  /** The last element of `messages`, if any, has no usable content: it is
      missing, not an object, has no content, or its content is blank. */
  predicate NoValidContent(items: seq<WireMessage>) {
    || items == []
    || items[|items| - 1].NonObject?
    || items[|items| - 1].content.Absent?
    || (items[|items| - 1].content.Text? && Blank(items[|items| - 1].content.s))
  }

  /** The last element's content is present but not a string. */
  predicate ContentNotString(items: seq<WireMessage>) {
    items != [] && items[|items| - 1].Entry? && items[|items| - 1].content.NotString?
  }

  /** `messages[messages.length - 1]?.content?.trim() || ""`: the trimmed latest
      content, empty when there is none; it throws when the content is not a
      string. */
  function LatestContent(items: seq<WireMessage>): (r: Attempt<string>)
    ensures r.Threw? <==> ContentNotString(items)
    ensures r.Done? ==> (r.value == "" <==> NoValidContent(items))
    ensures r.Done? && r.value != "" ==> r.value == Trim(items[|items| - 1].content.s)
  {
    if items == [] then Done("")
    else
      match items[|items| - 1]
      case NonObject => Done("")
      case Entry(_, content) =>
        match TrimField(content)
        case Threw(e) => Threw(e)
        case Done(t) => Done(t.GetOr(""))
  }

  /** The request carries a question: `messages` is an array whose last
      element has string content that is not blank. */
  predicate Asks(body: Body) {
    && body.Parsed?
    && body.messages.Array?
    && !NoValidContent(body.messages.items)
    && !ContentNotString(body.messages.items)
  }

  /** The question of a request that asks one: its latest content, trimmed. */
  function Question(body: Body): string
    requires Asks(body)
  {
    var items := body.messages.items;
    Trim(items[|items| - 1].content.s)
  }

  /** Every message but the last (`messages.slice(0, -1)`). */
  function History(items: seq<WireMessage>): seq<WireMessage> {
    if items == [] then [] else items[..|items| - 1]
  }

  /** The document carries text that is not blank. */
  predicate HasText(d: Doc) {
    d.text.Text? && !Blank(d.text.s)
  }

  /** Some document's text is present but not a string. */
  predicate AnyNotString(docs: seq<Doc>) {
    exists i :: 0 <= i < |docs| && docs[i].text.NotString?
  }

  /** No document carries text that is not blank. */
  predicate NoneHasText(docs: seq<Doc>) {
    forall i :: 0 <= i < |docs| ==> !HasText(docs[i])
  }

  /** `docs.map(doc => doc.text?.trim()).filter(Boolean)`: the trimmed texts
      that are not empty, in ranked order; it throws at the first text that is
      not a string. */
  function KeptTexts(docs: seq<Doc>): (r: Attempt<seq<string>>)
    ensures r.Done? ==> AllClean(r.value)
  {
    if docs == [] then Done([])
    else
      match TrimField(docs[0].text)
      case Threw(e) => Threw(e)
      case Done(t) =>
        match KeptTexts(docs[1..])
        case Threw(e) => Threw(e)
        case Done(rest) =>
          KeepClean(t, rest);
          Done(Keep(t, rest))
  }

  /** Every text is non-empty and has no whitespace at either end. */
  predicate AllClean(ts: seq<string>) {
    forall k :: 0 <= k < |ts| ==> ts[k] != [] && Trimmed(ts[k])
  }

  /** `filter(Boolean)` on one trimmed text: it is kept in front of `rest`
      unless it is missing or empty. */
  function Keep(t: Option<string>, rest: seq<string>): seq<string> {
    if t.None? || t.value == "" then rest else [t.value] + rest
  }

  lemma KeepClean(t: Option<string>, rest: seq<string>)
    requires t.Some? ==> Trimmed(t.value)
    requires AllClean(rest)
    ensures AllClean(Keep(t, rest))
  {
  }

  /** Keeping texts throws exactly when some text is not a string. */
  lemma {:induction false} KeptTextsThrows(docs: seq<Doc>)
    ensures KeptTexts(docs).Threw? <==> AnyNotString(docs)
    decreases |docs|
  {
    if docs != [] {
      KeptTextsThrows(docs[1..]);
      assert AnyNotString(docs[1..]) ==> AnyNotString(docs) by {
        if AnyNotString(docs[1..]) {
          var i :| 0 <= i < |docs[1..]| && docs[1..][i].text.NotString?;
          assert docs[i + 1] == docs[1..][i];
        }
      }
      assert AnyNotString(docs) && !docs[0].text.NotString? ==> AnyNotString(docs[1..]) by {
        if AnyNotString(docs) && !docs[0].text.NotString? {
          var i :| 0 <= i < |docs| && docs[i].text.NotString?;
          assert docs[1..][i - 1] == docs[i];
        }
      }
    }
  }

  /** When keeping texts succeeds, nothing is kept exactly when no document
      has text that is not blank. */
  lemma {:induction false} KeptTextsEmpty(docs: seq<Doc>)
    requires KeptTexts(docs).Done?
    ensures KeptTexts(docs).value == [] <==> NoneHasText(docs)
    decreases |docs|
  {
    if docs != [] {
      KeptTextsEmpty(docs[1..]);
      assert NoneHasText(docs) ==> NoneHasText(docs[1..]) by {
        if NoneHasText(docs) {
          forall i | 0 <= i < |docs[1..]| ensures !HasText(docs[1..][i]) {
            assert docs[1..][i] == docs[i + 1];
          }
        }
      }
      var t := TrimField(docs[0].text).value;
      if t.None? || t.value == "" {
        assert !HasText(docs[0]);
        assert NoneHasText(docs[1..]) ==> NoneHasText(docs) by {
          if NoneHasText(docs[1..]) {
            forall i | 0 <= i < |docs| ensures !HasText(docs[i]) {
              if i > 0 {
                assert docs[i] == docs[1..][i - 1];
              }
            }
          }
        }
      } else {
        assert HasText(docs[0]);
      }
    }
  }

  /** The context string: the kept texts joined by newlines. It throws exactly
      when some text is not a string, and is empty exactly when no document has
      text that is not blank. */
  function ContextString(docs: seq<Doc>): (r: Attempt<string>)
    ensures r.Threw? <==> AnyNotString(docs)
    ensures r.Done? ==> (r.value == "" <==> NoneHasText(docs))
  {
    KeptTextsThrows(docs);
    match KeptTexts(docs)
    case Threw(e) => Threw(e)
    case Done(texts) =>
      KeptTextsEmpty(docs);
      Done(Join(texts, "\n"))
  }

  /** The error reported is the first one in ranked order: when the document
      at `i` is the first whose text is not a string, the context fails with
      the TypeError of that document, whatever the documents after it hold. */
  lemma {:induction false} FirstNotStringReported(docs: seq<Doc>, i: nat)
    requires i < |docs| && docs[i].text.NotString?
    requires forall j :: 0 <= j < i ==> !docs[j].text.NotString?
    ensures KeptTexts(docs) == Threw(ErrorObj("TypeError", docs[i].text.typeError))
    ensures ContextString(docs) == Threw(ErrorObj("TypeError", docs[i].text.typeError))
    decreases i
  {
    if i > 0 {
      assert !docs[0].text.NotString?;
      forall j | 0 <= j < i - 1 ensures !docs[1..][j].text.NotString? {
        assert docs[1..][j] == docs[j + 1];
      }
      assert docs[1..][i - 1] == docs[i];
      FirstNotStringReported(docs[1..], i - 1);
    }
  }

  /** Keeping texts distributes over splitting the ranked documents. */
  lemma {:induction false} KeptTextsAppend(xs: seq<Doc>, ys: seq<Doc>)
    requires KeptTexts(xs).Done? && KeptTexts(ys).Done?
    ensures KeptTexts(xs + ys) == Done(KeptTexts(xs).value + KeptTexts(ys).value)
    decreases |xs|
  {
    if xs == [] {
      assert xs + ys == ys;
      assert KeptTexts(xs).value + KeptTexts(ys).value == KeptTexts(ys).value;
    } else {
      var zs := xs + ys;
      assert zs[0] == xs[0];
      assert zs[1..] == xs[1..] + ys;
      var head := TrimField(xs[0].text);
      assert head.Done? && KeptTexts(xs[1..]).Done?;
      KeptTextsAppend(xs[1..], ys);
      var a := KeptTexts(xs[1..]).value;
      var b := KeptTexts(ys).value;
      assert KeptTexts(xs) == Done(Keep(head.value, a));
      assert KeptTexts(zs) == Done(Keep(head.value, a + b));
      KeepAppend(head.value, a, b);
    }
  }

  lemma KeepAppend(t: Option<string>, a: seq<string>, b: seq<string>)
    ensures Keep(t, a + b) == Keep(t, a) + b
  {
  }

  /** The context keeps ranked order: the context of two runs of documents that
      both carry text is the first run's context, a newline, then the second's. */
  lemma ContextAppend(xs: seq<Doc>, ys: seq<Doc>)
    requires ContextString(xs).Done? && ContextString(xs).value != ""
    requires ContextString(ys).Done? && ContextString(ys).value != ""
    ensures ContextString(xs + ys) == Done(ContextString(xs).value + "\n" + ContextString(ys).value)
  {
    KeptTextsAppend(xs, ys);
    JoinAppend(KeptTexts(xs).value, KeptTexts(ys).value, "\n");
  }

  lemma TrimmedIsFixed(t: string)
    requires Trimmed(t)
    ensures TrimField(Text(t)) == Done(Some(t))
  {
  }

  /** One document on its own: a missing text contributes nothing, a string
      contributes its trimmed text unless that is empty, and any other value
      throws the TypeError of calling `trim` on it. With KeptTextsAppend this
      determines the kept texts of every list of documents. */
  lemma KeptTextsOfOne(d: Doc)
    ensures KeptTexts([d]) ==
              match d.text
              case Absent => Done([])
              case Text(s) => Done(if Blank(s) then [] else [Trim(s)])
              case NotString(m) => Threw(ErrorObj("TypeError", m))
  {
    var docs := [d];
    assert docs[0] == d;
    assert docs[1..] == [];
    assert KeptTexts(docs[1..]) == Done([]);
    match d.text
    case Text(s) =>
      if Blank(s) {
        assert Trim(s) == "";
        assert Keep(Some(Trim(s)), []) == [];
      } else {
        assert Trim(s) != "";
        assert Keep(Some(Trim(s)), []) == [Trim(s)];
      }
    case Absent =>
    case NotString(m) =>
  }

  /** A document's text reaches the context trimmed: one document with string
      text gives that text trimmed, the empty string when it is blank. */
  lemma ContextOfText(s: string)
    ensures ContextString([Doc(Text(s))]) == Done(Trim(s))
  {
    KeptTextsOfOne(Doc(Text(s)));
    if !Blank(s) {
      assert Join([Trim(s)], "\n") == Trim(s);
    }
  }

  /** Two documents with trimmed, non-empty texts give those texts on two lines. */
  lemma ContextOfTwo(a: string, b: string)
    requires a != [] && Trimmed(a) && b != [] && Trimmed(b)
    ensures ContextString([Doc(Text(a)), Doc(Text(b))]) == Done(a + "\n" + b)
    ensures !AnyNotString([Doc(Text(a)), Doc(Text(b))])
  {
    TrimmedIsFixed(a);
    ContextOfText(a);
    TrimmedIsFixed(b);
    ContextOfText(b);
    assert [Doc(Text(a)), Doc(Text(b))] == [Doc(Text(a))] + [Doc(Text(b))];
    ContextAppend([Doc(Text(a))], [Doc(Text(b))]);
  }

  /** Documents with texts "A" and "B", in that order, give the context "A\nB". */
  lemma ContextExample()
    ensures ContextString([Doc(Text("A")), Doc(Text("B"))]) == Done("A\nB")
  {
    ContextOfTwo("A", "B");
    assert "A" + "\n" + "B" == "A\nB";
  }

  /** The fixed instruction that opens every prompt, line by line. */
  const PersonaLines: seq<string> := [
    "You are a helpful AI assistant. Use this context to answer questions and provide General question and answers.",
    "",
    "You are an AI-powered news chatbot. Your job is to provide **daily news updates** in a clean, organized way. News like sports, politics, technology, and entertainment.",
    "You will receive a prompt asking for news updates. Your task is to summarize the latest news articles and present them in a clear format.",
    "",
    "➡️ Format:",
    "- Respond in **bullet points** only.",
    "- Group news by sections: 🌍 World News, 🇮🇳 India News, 🏙️ Local News (if applicable), ⚽ Sports News, 🎥 Movies and Film News, 🔬 Science and Technology News, 📊 Stock News.",
    "- Each bullet should be a **short headline or summary** (1–10 sentences max)",
    "Also Give General information about all questions.",
    "",
    "❌ Do not:",
    "- Include images or image links",
    "- Mention or promote apps or advertisements",
    "- Add share buttons, links, or anything irrelevant"
  ]

  /** The fixed instruction that opens every prompt. */
  const Persona: string := Join(PersonaLines, "\n")

  /** The line that fences the context on both sides. */
  const Delimiter: string := "------------------------"
  const HistoryLabel: string := "Current conversation history: "
  const QuestionLabel: string := "Question: "

  /** The delimiter on a line of its own, as it fences the context. */
  const Fence: string := "\n" + Delimiter + "\n"

  /** Everything between the context and the serialised history. */
  const Middle: string := Fence + HistoryLabel

  /** The prompt text sent to the model: the persona opens it and the
      question line ends it; `RenderFencesContext` and `RenderHistory` place
      the parts in between. */
  function Render(r: Prompt): (p: string)
    ensures |p| == |r.persona| + |Fence| + |r.context| + |Middle| + |r.history| + 1 + |QuestionLabel| + |r.question|
    ensures r.persona <= p
    ensures p[|p| - |r.question| - |QuestionLabel| - 1..] == "\n" + QuestionLabel + r.question
  {
    var tail := "\n" + QuestionLabel + r.question;
    var p := r.persona + (Fence + (r.context + (Middle + (r.history + tail))));
    assert p[|p| - |tail|..] == tail;
    p
  }

  /** The persona is followed by the delimiter on a line of its own; the
      context follows unchanged, then the delimiter line again and the
      history label. */
  lemma RenderFencesContext(r: Prompt)
    ensures var p := Render(r);
            var i := |r.persona| + |Fence|;
            && p[|r.persona|..i] == Fence
            && p[i..i + |r.context|] == r.context
            && p[i + |r.context|..i + |r.context| + |Middle|] == Middle
  {
    var p := Render(r);
    var rest := r.context + (Middle + (r.history + ("\n" + QuestionLabel + r.question)));
    var i := |r.persona| + |Fence|;
    assert p[|r.persona|..] == Fence + rest;
    assert p[i..] == rest;
    assert rest[|r.context|..] == Middle + (r.history + ("\n" + QuestionLabel + r.question));
  }

  /** After the history label comes the serialised history, unchanged. */
  lemma RenderHistory(r: Prompt)
    ensures var p := Render(r);
            var j := |r.persona| + |Fence| + |r.context| + |Middle|;
            p[j..j + |r.history|] == r.history
  {
    var p := Render(r);
    var rest := r.history + ("\n" + QuestionLabel + r.question);
    var j := |r.persona| + |Fence| + |r.context| + |Middle|;
    assert p[|r.persona|..] == Fence + (r.context + (Middle + rest));
    assert p[j..] == rest;
  }

  /** Two prompts that differ only in their serialised history render to
      different texts; `JSON.stringify` being injective, the prompt tells
      different histories apart. */
  lemma PromptSeparatesHistories(r1: Prompt, r2: Prompt)
    requires r1.persona == r2.persona && r1.context == r2.context && r1.question == r2.question
    requires r1.history != r2.history
    ensures Render(r1) != Render(r2)
  {
    if |r1.history| == |r2.history| {
      RenderHistory(r1);
      RenderHistory(r2);
    }
  }

  /** The text of one streamed chunk as enqueued (`text || ""`). */
  function ChunkText(c: Chunk): string {
    c.text.GetOr("")
  }

  /** The enqueued fragments, one per chunk, in arrival order. */
  function Fragments(chunks: seq<Chunk>): (fs: seq<string>)
    ensures |fs| == |chunks|
    ensures forall i :: 0 <= i < |chunks| ==> fs[i] == ChunkText(chunks[i])
  {
    if chunks == [] then [] else [ChunkText(chunks[0])] + Fragments(chunks[1..])
  }

  /** The texts the model actually produced, skipping chunks without one. */
  function ProducedTexts(chunks: seq<Chunk>): seq<string> {
    if chunks == [] then []
    else if chunks[0].text.Some? then [chunks[0].text.value] + ProducedTexts(chunks[1..])
    else ProducedTexts(chunks[1..])
  }

  /** The relay neither drops nor adds text: the enqueued fragments concatenate
      to the concatenation of the texts the model produced. */
  lemma {:induction false} RelayKeepsText(chunks: seq<Chunk>)
    ensures Concat(Fragments(chunks)) == Concat(ProducedTexts(chunks))
    decreases |chunks|
  {
    if chunks != [] {
      RelayKeepsText(chunks[1..]);
      assert Fragments(chunks)[1..] == Fragments(chunks[1..]);
      if chunks[0].text.Some? {
        assert ProducedTexts(chunks)[1..] == ProducedTexts(chunks[1..]);
      }
    }
  }

  /** The fragments ["Hel", "lo, ", "world"] reach the client as "Hello, world". */
  lemma RelayExample()
    ensures Concat(Fragments([Chunk(Some("Hel")), Chunk(Some("lo, ")), Chunk(Some("world"))])) == "Hello, world"
  {
  }

  /** The streamed 200 response: one fragment per chunk in order; a stream
      that broke mid-way ends the body with its error after the fragments
      already sent. */
  function Relay(stream: ModelStream): (r: Response)
    ensures r.TextStream? && r.status == 200
    ensures r.fragments == Fragments(stream.chunks)
    ensures r.end.Closed? <==> stream.end.Completed?
    ensures stream.end.Broke? ==> r.end == Errored(stream.end.error)
  {
    TextStream(200, Fragments(stream.chunks),
      match stream.end
      case Completed => Closed
      case Broke(e) => Errored(e))
  }

  /** The outcome of checking the request body: refused with a response, or
      accepted with the messages and the trimmed question. */
  datatype Validation = Refused(response: Response) | Accepted(items: seq<WireMessage>, question: string)

  /** The checks made before any call: an unreadable body or a `trim` that
      throws reaches the catch-all, a `messages` that is not an array and a
      latest message without content are refused with 400; otherwise the
      request asks its trimmed latest content. */
  function Validate(body: Body): (v: Validation)
    ensures body.Unreadable? ==> v == Refused(ServerError(body.error))
    ensures body == Parsed(NotArray) ==> v == Refused(BadRequest(InvalidFormat))
    ensures body.Parsed? && body.messages.Array? && NoValidContent(body.messages.items) ==>
              v == Refused(BadRequest(NoContent))
    ensures body.Parsed? && body.messages.Array? && ContentNotString(body.messages.items) ==>
              var items := body.messages.items;
              v == Refused(ServerError(ErrorObj("TypeError", items[|items| - 1].content.typeError)))
    ensures v.Accepted? <==> Asks(body)
    ensures v.Accepted? ==> v.items == body.messages.items && v.question == Question(body) && v.question != ""
  {
    match body
    case Unreadable(e) => Refused(ServerError(e))
    case Parsed(NotArray) => Refused(BadRequest(InvalidFormat))
    case Parsed(Array(items)) =>
      match LatestContent(items)
      case Threw(e) => Refused(ServerError(e))
      case Done(question) =>
        if question == "" then Refused(BadRequest(NoContent)) else Accepted(items, question)
  }

  /** Everything after validation: embed the question, refuse a missing or
      wrongly sized vector before searching, search, build the context and
      the prompt around `persona`, and relay the generated stream. Anything
      thrown on the way reaches the catch-all, after the calls already made.
      The handler passes the fixed `Persona`. */
  function Answer(persona: string, items: seq<WireMessage>, question: string, backend: Backend): (h: Handled)
    ensures 1 <= |h.calls| <= 3
    ensures h.calls[0] == Embed(EmbeddingModel, question)
    ensures backend.embedding.Threw? ==>
              h == Handled(ServerError(backend.embedding.error), [Embed(EmbeddingModel, question)], false)
    ensures backend.embedding.Done? && backend.embedding.value != Some(Dimension) ==>
              h == Handled(JsonError(500, BadEmbedding, None), [Embed(EmbeddingModel, question)], false)
    ensures |h.calls| >= 2 ==> backend.embedding == Done(Some(Dimension)) && h.calls[1] == Search(Dimension, TopK)
    ensures backend.embedding == Done(Some(Dimension)) && backend.search.Done? && !AnyNotString(backend.search.value) ==>
              |h.calls| == 3
    ensures backend.embedding == Done(Some(Dimension)) && (backend.search.Threw? || AnyNotString(backend.search.value)) ==>
              |h.calls| == 2
    ensures backend.embedding == Done(Some(Dimension)) && backend.search.Threw? ==>
              h.response == ServerError(backend.search.error)
    ensures backend.embedding == Done(Some(Dimension)) && backend.search.Done? && AnyNotString(backend.search.value) ==>
              h.response == ServerError(ContextString(backend.search.value).error)
    ensures |h.calls| == 3 ==>
              && backend.search.Done? && ContextString(backend.search.value).Done?
              && var context := ContextString(backend.search.value).value;
              && h.calls[2] == Generate(GenerationModel, Prompt(persona, context, backend.serialize(History(items)), question))
              && h.emptyContextWarning == (context == "")
    ensures |h.calls| < 3 ==> !h.emptyContextWarning
    ensures h.response.TextStream? <==> |h.calls| == 3 && backend.generation.Done?
    ensures h.response.TextStream? ==> h.response == Relay(backend.generation.value)
    ensures |h.calls| == 3 && backend.generation.Threw? ==> h.response == ServerError(backend.generation.error)
  {
    var embedded := [Embed(EmbeddingModel, question)];
    match backend.embedding
    case Threw(e) => Handled(ServerError(e), embedded, false)
    case Done(vector) =>
      if vector.None? || vector.value != Dimension then
        Handled(JsonError(500, BadEmbedding, None), embedded, false)
      else
        var searched := embedded + [Search(Dimension, TopK)];
        match backend.search
        case Threw(e) => Handled(ServerError(e), searched, false)
        case Done(docs) =>
          match ContextString(docs)
          case Threw(e) => Handled(ServerError(e), searched, false)
          case Done(context) =>
            var prompt := Prompt(persona, context, backend.serialize(History(items)), question);
            var generated := searched + [Generate(GenerationModel, prompt)];
            match backend.generation
            case Threw(e) => Handled(ServerError(e), generated, context == "")
            case Done(stream) => Handled(Relay(stream), generated, context == "")
  }

  /** The POST handler: a refused request makes no call at all and is
      answered by validation; an accepted one starts by embedding its trimmed
      question, and only an accepted one can stream. */
  function Handle(body: Body, backend: Backend): (h: Handled)
    ensures h.calls == [] <==> !Asks(body)
    ensures !Asks(body) ==> h.response == Validate(body).response && !h.emptyContextWarning
    ensures Asks(body) ==> h.calls[0] == Embed(EmbeddingModel, Question(body))
    ensures h.response.TextStream? ==> Asks(body) && |h.calls| == 3
    ensures |h.calls| == 3 ==> h.calls[2].Generate? && h.calls[2].prompt.persona == Persona
  {
    match Validate(body)
    case Refused(response) => Handled(response, [], false)
    case Accepted(items, question) => Answer(Persona, items, question, backend)
  }

  /** A request that asks a question is answered from its whole message list
      and its trimmed latest content, with the fixed persona. */
  lemma HandleAnswers(body: Body, backend: Backend)
    requires Asks(body)
    ensures Handle(body, backend) == Answer(Persona, body.messages.items, Question(body), backend)
  {
  }

  /** An empty context only warns: when no document has text, the handler
      still builds the prompt with an empty context and streams the answer. */
  lemma EmptyContextStillGenerates(body: Body, backend: Backend)
    requires Asks(body)
    requires backend.embedding == Done(Some(Dimension))
    requires backend.search.Done?
    requires NoneHasText(backend.search.value) && !AnyNotString(backend.search.value)
    requires backend.generation.Done?
    ensures Handle(body, backend).emptyContextWarning
    ensures Handle(body, backend).response == Relay(backend.generation.value)
    ensures Handle(body, backend).calls[2] ==
              Generate(GenerationModel, Prompt(Persona, "", backend.serialize(History(body.messages.items)), Question(body)))
  {
  }

  /** A request whose latest content is already trimmed asks exactly it,
      whatever the role of that message; a request of one message has an
      empty history. */
  lemma AcceptsTrimmed(items: seq<WireMessage>, q: string)
    requires q != [] && Trimmed(q)
    requires items != [] && items[|items| - 1].Entry? && items[|items| - 1].content == Text(q)
    ensures Validate(Parsed(Array(items))) == Accepted(items, q)
    ensures |items| == 1 ==> History(items) == []
  {
  }

  /** The happy path: a vector of the right length, a search whose
      documents all have string or absent text, and a model that answers lead
      to exactly the three calls, the last one carrying the persona, the
      context built from the documents, the serialised history and the
      question, and to the relayed stream. */
  lemma AnswerStreams(persona: string, items: seq<WireMessage>, question: string, backend: Backend)
    requires backend.embedding == Done(Some(Dimension))
    requires backend.search.Done? && !AnyNotString(backend.search.value)
    requires backend.generation.Done?
    ensures ContextString(backend.search.value).Done?
    ensures Answer(persona, items, question, backend) == Handled(
              Relay(backend.generation.value),
              [ Embed(EmbeddingModel, question), Search(Dimension, TopK),
                Generate(GenerationModel, Prompt(persona, ContextString(backend.search.value).value, backend.serialize(History(items)), question)) ],
              ContextString(backend.search.value).value == "")
  {
    var h := Answer(persona, items, question, backend);
    assert |h.calls| == 3;
  }

  /** The end-to-end flow for one question and two retrieved documents: a
      valid vector leads to one search and one generation request whose
      context is the two texts on two lines, whose history is empty and whose
      question is the message; the answer is the relayed stream. The question
      "latest tech news" with documents "A" and "B" is one instance, with the
      context "A\nB". */
  lemma OneQuestionTwoDocs(q: string, a: string, b: string, serialize: seq<WireMessage> -> string, stream: ModelStream)
    requires q != [] && Trimmed(q) && a != [] && Trimmed(a) && b != [] && Trimmed(b)
    ensures
      var body := Parsed(Array([Entry(Text("user"), Text(q))]));
      var backend := Backend(Done(Some(768)), Done([Doc(Text(a)), Doc(Text(b))]), Done(stream), serialize);
      Handle(body, backend) == Handled(
        Relay(stream),
        [Embed(EmbeddingModel, q), Search(768, 10), Generate(GenerationModel, Prompt(Persona, a + "\n" + b, serialize([]), q))],
        false)
  {
    var items := [Entry(Text("user"), Text(q))];
    var body := Parsed(Array(items));
    var docs := [Doc(Text(a)), Doc(Text(b))];
    var backend := Backend(Done(Some(768)), Done(docs), Done(stream), serialize);
    assert History(items) == [];
    AcceptsTrimmed(items, q);
    assert Handle(body, backend) == Answer(Persona, items, q, backend);
    ContextOfTwo(a, b);
    AnswerStreams(Persona, items, q, backend);
  }
}
