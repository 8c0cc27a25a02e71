# Chat route of the professor-review assistant, modelled in Dafny

The repository's chat endpoint (`POST` in `app/api/chat/route.js`) answers a
student's question about professors with retrieval-augmented generation. It
validates the conversation sent by the client and embeds the text of the last
message. It queries a vector index for the five closest reviews and formats
each match as a text block. It then builds the prompt parts (system prompt,
earlier messages, last message plus context) and streams the generator's
non-empty chunks back to the client.

The embedding model, the vector index and the generator are foreign services.
Here they are the three function-valued fields of `Route.Services`: the
embedding outcome is a function of the text, the query outcome of the request,
the generation outcome of the prompt parts. `Route.Post` returns the response
(`BadRequest`, `ServerError` or `Stream(chunks, errored)`) together with the
ordered list of external calls it made. "No call was made" is then a statement
about that list.

Modules:

- `Text` (`text.dfy`): joining strings in order (`Concat`) and its append/split laws.
- `Prompt` (`prompt.dfy`): messages, body validation, the last message, prompt composition.
- `Retrieval` (`retrieval.dfy`): the query request, the per-match block, the context string and the formatting loop.
- `Streaming` (`streaming.dfy`): chunk filtering, the stream controller, the forwarding loop.
- `Route` (`route.dfy`): the handler, as a function (`Post`) and run step by step (`Handle`).

The code does not degrade gracefully, and the model keeps that behaviour:

- a match without metadata is not skipped: reading `match.metadata.review`
  throws, and the request ends with a 500;
- a missing metadata key is not an error: it renders as the text `undefined`;
- a failed retrieval is not absorbed: a query that throws ends the request with a 500;
- embedding values are not checked for finiteness; only "is a non-empty array" is checked.

## Model

| member | source | states |
|---|---|---|
| Prompt.Validate | app/api/chat/route.js:92-98 | the body is accepted exactly when it is an array with at least one element, and is then passed on unchanged |
| Prompt.LastContent | app/api/chat/route.js:100-102 | the selected text is the content of the last element, the same as the last of the messages' contents |
| Prompt.LastContentIgnoresHistory | app/api/chat/route.js:101-102 | whatever messages came before, the selected text is that of the message appended last |
| Prompt.Contents | app/api/chat/route.js:138 | the earlier messages become parts one for one, each exactly the message's `content`, in the same order |
| Prompt.Compose | app/api/chat/route.js:134-140 | the prompt has one part more than the conversation; the system prompt is first; parts 1..n-1 are the earlier contents in order; the last part starts with the user's text and continues with the context |
| Prompt.EmptyContextKeepsQuestion | app/api/chat/route.js:135 | with an empty context the final part is exactly the user's text |
| Prompt.HistoryIndependentOfQuery | app/api/chat/route.js:136-139 | the parts before the final one depend only on the earlier messages, not on the last message or the context |
| Retrieval.Request | app/api/chat/route.js:116-120 | the query asks for topK 5 with metadata included and carries the embedding unchanged as its vector |
| Retrieval.Field | app/api/chat/route.js:128-130 | a metadata key renders as its value, and a missing key as the text `undefined` |
| Retrieval.Block | app/api/chat/route.js:125-131 | a block opens with the "Returned Results:" header and "Professor: " followed by the match id, and closes with the fixed blank-line tail |
| Retrieval.ContextString | app/api/chat/route.js:123-132 | no matches give the empty string; otherwise the context opens with the first match's block |
| Retrieval.Blocks | app/api/chat/route.js:124-131 | one Professor/Review/Subject/Stars block per match, block i built from match i |
| Retrieval.MetadataAppend | app/api/chat/route.js:124 | two lists of matches whose fields can all be read join into one whose fields can all be read |
| Retrieval.BlocksAppend | app/api/chat/route.js:124-131 | the blocks of two joined match lists are the two block lists joined |
| Retrieval.ContextAppend | app/api/chat/route.js:123-132 | the context of two joined match lists is the two contexts joined |
| Retrieval.ContextSplit | app/api/chat/route.js:123-132 | in the context string, the block of match i sits exactly after the blocks of all earlier matches and before those of all later ones |
| Retrieval.ContextEmptyIff | app/api/chat/route.js:123 | the context is the empty string exactly when there are no matches |
| Retrieval.FormatResults | app/api/chat/route.js:123-132 | the `forEach` loop yields the context string when every match has metadata, and fails (the access throws) exactly when some match has none |
| Text.ConcatAppend | app/api/chat/route.js:125 | appending in turn to a string distributes over joined lists |
| Text.ConcatSplit | app/api/chat/route.js:125 | element i of a list sits between the earlier and the later elements in the joined text |
| Streaming.Forwarded | app/api/chat/route.js:151-157 | the forwarded chunks are never empty and are no more than the generated ones |
| Streaming.ForwardedAppend | app/api/chat/route.js:151-157 | filtering distributes over joined chunk lists, so emission order is kept |
| Streaming.ForwardedPrefix | app/api/chat/route.js:151-157 | what has been forwarded after the first n chunks is a prefix of the whole forwarded output |
| Streaming.ForwardedMembers | app/api/chat/route.js:153 | a chunk is forwarded exactly when it was generated and is not empty, so whitespace-only chunks are forwarded |
| Streaming.ForwardedKeepsText | app/api/chat/route.js:151-157 | joining the forwarded chunks gives the same text as joining all generated chunks |
| Streaming.ForwardedIdentity | app/api/chat/route.js:153 | a stream without empty chunks is forwarded unchanged |
| Streaming.Controller.constructor | app/api/chat/route.js:147-148 | a new stream is readable and holds no chunks |
| Streaming.Controller.Enqueue | app/api/chat/route.js:155 | enqueueing appends the chunk to the stream and keeps it readable |
| Streaming.Controller.Error | app/api/chat/route.js:159 | erroring keeps the enqueued chunks and makes the stream errored |
| Streaming.Controller.Close | app/api/chat/route.js:161 | closing keeps the enqueued chunks and makes the stream closed |
| Streaming.Start | app/api/chat/route.js:147-164 | the loop enqueues exactly the non-empty chunks in emission order, then errors the stream if the generator failed and closes it otherwise |
| Route.CheckEmbedding | app/api/chat/route.js:109-113 | an embedding is usable exactly when its values are present, an array and non-empty, and is then the values themselves |
| Route.Response.Status | app/api/chat/route.js:94-97 | the status is 400 exactly for a rejected body, 500 exactly for a failure, 200 exactly for a stream |
| Route.Response.ErrorText | app/api/chat/route.js:169-172 | the error text is "Invalid input data" for a rejected body and "Internal Server Error" for a failure; a stream has none |
| Route.Post | app/api/chat/route.js:88-174 | 400 exactly for a parsed body that is not a non-empty array, with no external call; an unparsable body is a 500 with no call; the first call embeds the last message's content and no later call embeds; an unusable embedding gives a 500 after that one call; a usable one is sent as the query vector with topK 5; matches that all carry metadata lead to one generation call on the composed prompt, and a generator that starts leads to a stream; a stream comes only after all three calls and carries the non-empty generator chunks and the generator's failure flag |
| Route.PostPrompt | app/api/chat/route.js:134-144 | when generation is reached, the parts sent are the composition of the conversation with the context of the matches returned |
| Route.PostNoMatches | app/api/chat/route.js:123-139 | with zero matches the generator still runs, its final part is exactly the user's text, and a generator that starts gives a stream |
| Route.PostRetrievalFailure | app/api/chat/route.js:116-132 | a query that throws, or a match without metadata, gives a 500 and no generation call |
| Route.PostStreamFidelity | app/api/chat/route.js:151-157 | the streamed chunks join to exactly the text the generator produced |
| Route.Handle | app/api/chat/route.js:88-174 | running the handler step by step, with the formatting and forwarding loops, gives the response of `Post`; on a stream the controller holds exactly the streamed chunks and ends errored if the generator failed, closed otherwise; on any other response it is untouched |

## Left out

- Construction of the clients and the environment keys (lines 5-10): configuration, not behaviour.
- The real embedding, index and generation calls: foreign services, modelled as the functions in `Route.Services`.
- The text of the system prompt (lines 12-86): `Prompt.SystemPrompt` is an uninterpreted constant, since no property depends on its text.
- The numeric values of the embedding: floating point; only presence, array-ness and non-emptiness are checked, as in the code.
- JSON parsing of the request: the parse result is the input `Prompt.Body`; a parse failure is `Unparsable` and, as in the code, a 500.
- Array elements that are not objects with a string `content`: the model's messages always have one. In the code, a non-null element without `content` yields the value `undefined`. A `null` element throws instead, which gives a 500: as the last element at line 102, before any external call; as an earlier element in the `map` at line 138, after the embedding and query calls.
- Metadata values that are not strings (`stars` is a number in the index): values are taken as already rendered into text.
- The `role` field is carried in `Prompt.Message` but the code never reads it, so nothing depends on it.
- The asynchronous stream mechanics: suspension in `for await`, and the `close()` in the `finally` block after `error()` (which throws on an errored stream). `Streaming.Start` ends the stream either errored or closed.
- The UTF-8 encoding of each chunk by `TextEncoder` (line 154): chunks are strings.
- HTTP framing by `NextResponse` and the `console.error` logging (lines 166-171): the response is the datatype `Route.Response`, whose `Status` and `ErrorText` give the status code and the error message.
