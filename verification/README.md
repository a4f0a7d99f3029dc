# AI news chat-bot: a Dafny model of its retrieval pipeline

The system answers chat questions about the news. It works in three parts:

- **Ingestion.** An offline script scrapes a fixed list of news sites, splits each page into chunks, embeds every chunk and stores the vectors in a collection.
- **Answering.** The chat endpoint embeds the user's latest question and retrieves the ten nearest chunks. It builds a prompt from a fixed persona, the retrieved context, the conversation history and the question, then streams the model's answer back.
- **The chat page.** It keeps the conversation, posts it and fills an assistant placeholder as the answer streams in.

This project models the plain sequential logic around the external services. The scraper, splitter, embedder, vector store, generator and JSON serialiser are oracle values. Most calls into them are recorded in a trace, so statements such as "no embedding call is made" are statements about the trace:

- the handler traces its calls to embed, search and generate;
- ingestion traces its calls to create the collection, scrape, split, embed and insert;
- the JSON serialiser is a plain function of the history and is not traced.

Modules:

- `Common` (`common.dfy`): optional values, the values a JavaScript `throw` can carry (an `Error` with its name and message, or anything else), and the outcome of a call that may throw.
- `JsString` (`js_string.dfy`): JavaScript's `trim`, `join`, `includes` and string concatenation, with their defining properties.
- `ChatRoute` (`chat_route.dfy`): the endpoint's POST handler, as four stages.
  - Validation: the 400 answers "Invalid messages format" and "No valid message content found".
  - The answer stage: the embedding check (500 "Failed to generate valid embedding"), the vector search, the context string, the prompt and the generation call.
  - The relay of the streamed chunks.
  - The catch-all 500 "Internal server error" with `details`.
- `ChatPage` (`chat_page.dfy`): the page's `submitMessage`, suggestion click and `handleClearChat`, as a state machine. An event is typing in the input box, a submit, a suggestion click, a response without a body, a decoded chunk, the end of the body, a failure, or Clear. The module also defines the invariant the page keeps between events.
- `LoadDb` (`load_db.dfy`): `createCollection`, and the nested loops of `loadSampledata` as methods. The methods are proved equal to a functional definition of the calls made and the records stored.

Behaviours of the code worth knowing:

- A query embedding that is missing or not 768 long is answered with a 500 whose body has only `error`, without `details`.
- Ingestion embeds every chunk the splitter returns, including empty ones. It inserts the record whatever vector came back, even an absent one.
- Ingestion embeds chunks with the model `embedding-001`, while the endpoint embeds questions with `text-embedding-004`. Both constants are kept as written. Nothing in the code reconciles them, and this model makes no claim about the vectors being comparable.

## Model

| member | source | states |
|---|---|---|
| JsString.Trim | app/api/chat/route.ts:46 | `trim` leaves no whitespace at either end. Its result is empty exactly when the input is all whitespace. |
| JsString.TrimIsSlice | app/api/chat/route.ts:46 | What `trim` keeps is a slice of the input with only whitespace before and after it. |
| JsString.TrimUnique | app/api/chat/route.ts:83 | Any whitespace around a string with non-blank ends is exactly what `trim` removes. |
| JsString.TrimIdempotent | app/api/chat/route.ts:83 | Trimming twice is trimming once. |
| JsString.Join | app/api/chat/route.ts:85 | Joining one part gives that part. Joining non-empty parts gives the empty string only when there are no parts. |
| JsString.JoinAppend | app/api/chat/route.ts:85 | Joining two non-empty lists puts exactly one separator between their joins. |
| JsString.ConcatAppend | app/api/chat/route.ts:130-134 | Concatenating strings distributes over appending the lists. |
| JsString.Includes | scripts/loadDb.ts:73 | `includes` holds exactly when the substring occurs at some offset. |
| ChatRoute.LatestContent | app/api/chat/route.ts:45-47 | The trimmed latest content throws exactly when that content is present but not a string. Otherwise it is empty exactly when there is no last message or its content is missing or blank, and when non-empty it is the trimmed content. |
| ChatRoute.Validate | app/api/chat/route.ts:36-52 | An unreadable body gives the catch-all 500. A non-array `messages` gives 400 "Invalid messages format". A missing or blank latest content gives 400 "No valid message content found". A request is accepted exactly when it asks a question, and then it carries the messages and a non-empty question. |
| ChatRoute.AcceptsTrimmed | app/api/chat/route.ts:45-52 | A request whose last message, of any role, has content that is already trimmed and non-empty is accepted, with that content as the question. A request of a single message has an empty history. |
| ChatRoute.KeptTexts | app/api/chat/route.ts:82-84 | Every kept text is non-empty and trimmed. |
| ChatRoute.KeptTextsOfOne | app/api/chat/route.ts:82-84 | One document keeps nothing when its text is missing or blank, and keeps its trimmed text otherwise. A text that is not a string throws the `TypeError` of calling `trim` on it. With KeptTextsAppend this fixes the kept texts of any list. |
| ChatRoute.KeptTextsThrows | app/api/chat/route.ts:82-84 | Keeping the texts throws exactly when some document's text is present but not a string. |
| ChatRoute.KeptTextsEmpty | app/api/chat/route.ts:82-84 | Nothing is kept exactly when no document carries non-blank text. |
| ChatRoute.KeptTextsAppend | app/api/chat/route.ts:82-84 | The kept texts of two runs of documents are those of the first run, then those of the second, in ranked order. |
| ChatRoute.FirstNotStringReported | app/api/chat/route.ts:82-84 | When several texts are not strings, the error reported is the `TypeError` of the first of them in ranked order, whatever follows it. |
| ChatRoute.ContextString | app/api/chat/route.ts:82-89 | The context throws exactly when some text is not a string. It is empty exactly when no document has non-blank text, the case that only logs a warning. |
| ChatRoute.ContextOfText | app/api/chat/route.ts:82-85 | A single document with string text gives the trimmed text as the whole context. |
| ChatRoute.ContextAppend | app/api/chat/route.ts:82-85 | The context of two runs with non-empty contexts is the first context, a newline, then the second. |
| ChatRoute.ContextOfTwo | app/api/chat/route.ts:82-85 | Two documents with trimmed, non-empty texts a and b give "a\nb". |
| ChatRoute.ContextExample | app/api/chat/route.ts:82-85 | Documents with texts "A" and "B" give the context "A\nB". |
| ChatRoute.Render | app/api/chat/route.ts:92-111 | The prompt opens with the persona, and its last line is the question label followed by the question. Its length is the sum of the persona, the two delimiter lines, the context, the history label, the history and the question line. |
| ChatRoute.RenderFencesContext | app/api/chat/route.ts:106-109 | After the persona comes the delimiter on its own line, then the context unchanged, then the delimiter line again and the history label. |
| ChatRoute.RenderHistory | app/api/chat/route.ts:110 | The serialised history follows the history label unchanged. |
| ChatRoute.PromptSeparatesHistories | app/api/chat/route.ts:107-111 | Two prompts with the same persona, context and question but different histories render to different texts, so the history reaches the model intact. |
| ChatRoute.Fragments | app/api/chat/route.ts:130-134 | Exactly one fragment is enqueued per model chunk, in arrival order. A chunk without text is enqueued as "". |
| ChatRoute.RelayKeepsText | app/api/chat/route.ts:130-134 | The enqueued fragments concatenate to the concatenation of the texts the model produced. |
| ChatRoute.RelayExample | app/api/chat/route.ts:130-134 | Chunks "Hel", "lo, " and "world" reach the client as "Hello, world". |
| ChatRoute.Relay | app/api/chat/route.ts:127-146 | The streamed answer is a 200 carrying those fragments. It closes normally exactly when the model's stream completed, and errors with the model's error when the stream broke. |
| ChatRoute.Answer | app/api/chat/route.ts:55-156 | The first call embeds the question with `text-embedding-004`. An embedding that threw gives the catch-all 500 with its details. A missing embedding, or one not 768 long, gives 500 "Failed to generate valid embedding" after that one call. A search, for 10 results, is made only after a 768-long embedding. A search that throws, or a text that is not a string, gives the catch-all 500 after two calls, with the search's error or the `TypeError` as its details. Otherwise the generation call carries the given persona (the handler passes the fixed one), the context, the serialised history (every message but the last) and the question, and the empty-context warning is set exactly when the context is empty. The response streams exactly when generation returned; a generation that threw gives the catch-all 500. |
| ChatRoute.AnswerStreams | app/api/chat/route.ts:55-146 | With a 768-long embedding, a search whose texts are all strings or missing, and a model that answers, there are exactly three calls: embed, search for 10, and generate with the given persona, the context of the documents, the serialised history and the question. The response is the relayed stream, and the warning is set exactly when the context is empty. |
| ChatRoute.Handle | app/api/chat/route.ts:33-157 | No call is made exactly when the request does not ask a question, and then the response is validation's refusal. An accepted request's first call embeds its trimmed question. Only an accepted request that reached generation can stream. The generation call carries the fixed persona. |
| ChatRoute.HandleAnswers | app/api/chat/route.ts:33-157 | A request that asks a question is answered from its whole message list and its trimmed latest content, with the fixed persona. |
| ChatRoute.EmptyContextStillGenerates | app/api/chat/route.ts:87-124 | When no retrieved document has text, the handler only sets the warning. It still generates with the persona, an empty context, the serialised history and the question, and streams the answer. |
| ChatRoute.OneQuestionTwoDocs | app/api/chat/route.ts:33-146 | One user message with a trimmed question, a 768-long embedding and two documents with trimmed texts a and b give exactly three calls: embed the question, search for 10, then generate with the persona, the context "a\nb", the serialised empty history and the question. The response is the relayed stream, with no warning. |
| ChatPage.SubmitMessage | app/page.tsx:30-54 | A blank message, or any message while loading, changes nothing and posts nothing. Otherwise exactly two messages are appended: the untrimmed user message, then an empty assistant placeholder. The input is cleared and the page loads. The POST carries the earlier conversation plus the user's message, never the placeholder. |
| ChatPage.ReceiveChunk | app/page.tsx:61-77 | The streamed text grows by the chunk. The last message is overwritten with all text streamed so far, and only when its role is assistant. Every earlier message and the conversation's length are unchanged. |
| ChatPage.Settle | app/page.tsx:81-96 | A failure other than an abort appends one extra assistant message with the fixed apology and leaves the placeholder alone. An abort or a normal end appends nothing. Every way out stops loading and drops the controller. |
| ChatPage.ClearChat | app/page.tsx:99-104 | Clear empties the conversation. It aborts the request exactly when one is pending. |
| ChatPage.Next | app/page.tsx:25-109 | Typing changes only the input. A response without a body, while a request is pending, stops loading and appends the apology, as any failure other than an abort does. A normal end and an abort stop loading and append nothing. A chunk while pending grows the streamed text. A chunk, an end or a failure while nothing is pending changes nothing. |
| ChatPage.QuietEvents | app/page.tsx:25-109 | Only a submission, a suggestion click and Clear issue a POST or an abort; no other event has an effect. |
| ChatPage.NextConsistent | app/page.tsx:30-109 | Every event keeps the page consistent. Consistent means: loading exactly while a controller is held, nothing streamed when idle, and while pending the last message is the assistant's, holding the text streamed so far, unless Clear emptied the conversation. |
| ChatPage.RunConsistent | app/page.tsx:30-109 | Any sequence of events keeps the page consistent. |
| ChatPage.LoadedPageConsistent | app/page.tsx:15-19 | The page as it loads (no messages, not loading, empty input, no controller) is consistent after any sequence of events. |
| ChatPage.RunAppend | app/page.tsx:30-109 | Running two event sequences one after the other is running their concatenation, with the effects in order. |
| ChatPage.StreamFillsPlaceholder | app/page.tsx:61-80 | Streaming chunks overwrites the placeholder with their concatenation in order, and changes nothing else. |
| ChatPage.SubmitAndStream | app/page.tsx:30-80 | Submitting from an idle page and streaming shows the user's message, then everything streamed. There is exactly one POST. |
| ChatPage.Exchange | app/page.tsx:30-96 | A submit, its chunks and its end leave the earlier conversation, the user's message and the full answer, followed by the apology only when the end was a failure other than an abort. The page is idle, the input is empty, and there was exactly one POST. |
| ChatPage.EndExchange | app/page.tsx:63-96 | The end of a streaming exchange leaves the user's message and the answer in place. The apology follows only a failure other than an abort. The page is idle with an empty input, and no effect is issued. |
| ChatPage.SuggestIsTypeThenSubmit | app/page.tsx:106-109 | A suggestion click is typing the suggestion, then submitting it. An ignored submission leaves the suggestion in the input box. |
| ChatPage.ClearThenAbort | app/page.tsx:81-104 | Clear while pending, then the abort's rejection, leaves an empty conversation, an idle page and one Abort effect. |
| ChatPage.ClearDuringExchange | app/page.tsx:30-104 | Clear in the middle of an exchange ends with an empty conversation and no apology message. The effects are the POST, then the Abort. |
| LoadDb.CreateCollection | scripts/loadDb.ts:61-79 | The request is for a 768-dimensional collection under the given metric, dot product by default. The outcome is success exactly when the store succeeded or threw an `Error` whose message includes "already exists". Any other thrown value is rethrown unchanged. |
| LoadDb.AlreadyExistsAnywhere | scripts/loadDb.ts:72-77 | An error whose message contains "already exists" anywhere among other text is success. |
| LoadDb.ChunksAppend | scripts/loadDb.ts:92-111 | The chunks of a page are processed in order: the effects of a longer chunk list are those of its first part, then the rest. |
| LoadDb.LoadAppend | scripts/loadDb.ts:86-115 | Pages are processed in list order: the effects of a longer page list are those of its first part, then the rest. |
| LoadDb.LoadChunk | scripts/loadDb.ts:92-111 | One chunk is always embedded. It is inserted exactly when the embedder answered, with the chunk as its text and the answered vector unchecked. It is stored exactly when both calls succeeded. |
| LoadDb.LoadPage | scripts/loadDb.ts:86-115 | The inner loop over one page's chunks has the calls and stored records of the functional definition. |
| LoadDb.LoadSampleData | scripts/loadDb.ts:84-116 | The outer loop over the pages has the calls and stored records of the functional definition. |
| LoadDb.EveryPageScraped | scripts/loadDb.ts:86-114 | Every page of the list is scraped, in list order, whatever failed before it. |
| LoadDb.EveryChunkEmbedded | scripts/loadDb.ts:92-110 | Every chunk of a page is embedded, in order, whatever failed before it. |
| LoadDb.PageChunksEmbedded | scripts/loadDb.ts:86-110 | A page that was scraped and split has exactly its chunks embedded, in order. |
| LoadDb.FailedPageContributesNothing | scripts/loadDb.ts:86-114 | A page whose scrape or split failed embeds nothing and stores nothing. |
| LoadDb.StoredAreKeptChunks | scripts/loadDb.ts:92-110 | The stored texts are exactly the chunks that were embedded and whose insert succeeded, in chunk order. Each stored vector is what the embedder answered for that text. |
| LoadDb.AbsentVectorStillInserted | scripts/loadDb.ts:101-106 | A chunk the embedder answered without a vector is still inserted, with an absent vector. |
| LoadDb.Script | scripts/loadDb.ts:138-141 | Collection creation is the first call and the only creation. A creation failure ends the script after that one call; otherwise the pages are loaded after it. |
| LoadDb.SampleRunScrapesNews | scripts/loadDb.ts:38-47 | Once the collection exists, the script scrapes exactly the listed news pages, in their listed order, whatever the services answer. |
| LoadDb.NoCreateWhileLoading | scripts/loadDb.ts:84-116 | Loading never creates a collection. |

## Left out

- Rendering and the presentation components: the JSX, scrolling, logos and links. They show the state and do not change it.
- Scraping, text splitting, embedding, vector search, generation and inserts are oracle values. The browser-driven scraper and the text splitter are not part of this model. The splitter's settings (chunk size and overlap) are not modelled, and nothing is claimed about chunk sizes or overlap.
- Vectors are modelled by their length only, because their components are floating point.
- ChatRoute.Answer: each request message is reduced to its role and content before the history reaches `JSON.stringify`. Extra fields on a message are dropped. Of a non-string field only its TypeError text is kept, and an element that is not an object keeps nothing but that fact. So two histories that differ only in such values (say `null` against a number) give the same Generate call.
- `JSON.stringify` of the history is an oracle function. The prompt lemma about distinct histories relies on nothing about it.
- Console logging, including the empty-context warning, is recorded only as a flag.
- The module-load checks of environment variables are left out. They run once at import time.
- `TextDecoder`: each decoded chunk is taken as a string, and byte boundaries are not modelled.
- React's batched state updates are not modelled. Neither is the stale `isLoading` seen by a closure, nor the timing of `AbortController` and stream backpressure. Each event is applied to the state left by the previous one.
- ChatPage.ReceiveChunk: a chunk arriving while the conversation is empty (possible only after Clear and before the abort lands) leaves it unchanged. In the page itself, reading the role of the missing last message throws inside the state updater.
- ChatPage.Settle: a thrown `null` or `undefined`, whose `name` cannot be read inside the catch block, is treated like any other non-abort failure.
- ChatRoute.Relay: after the model's stream breaks, the relay calls `error` and then `close`. The second call throws on an errored stream, so the modelled end is the error.
- ChatRoute.LatestContent: a non-string content is taken to have no `trim` method. An object that supplies its own `trim` is not modelled.
- JsString: strings are sequences of Unicode scalar values, not UTF-16 code units. `trim`'s whitespace set and `includes` give the same answers either way.
- Each ingestion service is a function of its input. Two identical chunks on one run therefore get the same embedding and insert outcome, and a transient failure that hits only one of them is not represented.
- Duplicate records from re-running the ingestion are not modelled, since each run is modelled on its own.
- Opening the collection handle before the loop (`db.collection`) is taken not to fail.
