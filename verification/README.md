# Chat route of the RateMyProfessor assistant, modelled in Dafny

The service has one endpoint, `POST /api/chat`. It takes a conversation and reads the
content of its last turn as the search query. It asks a vector index for the nearest
professor records and formats them into a context block. It then sends the language
model the system instructions, the earlier turns, and the last turn with the block
appended. Finally it relays the model's streamed answer to the caller as a
`ReadableStream`.

This project models the four deterministic steps of that handler as pure functions. The
external services are passed in as parameters:

- `QueryExtractor`: the query is the content of the last message. An empty conversation
  throws a TypeError at the read `data[data.length - 1].content`.
- `ContextFormatter`: the `forEach` loop that builds `resultString`. It starts from a
  fixed header and appends one fixed-format segment per match, in retrieval order. The
  segment's `Review:` line prints `metadata.stars`, and `metadata.review` is never read.
  The model keeps both exactly as the code writes them.
- `ContextParser`: a reader for the context block that inverts the formatter. It is
  used to prove that every match appears exactly once and in order.
- `PromptAssembler`: the outgoing message list. It is the system message, then the
  earlier turns unchanged, then one `user` message holding the last content followed by
  the block.
- `StreamingRelay`: the `start` callback. A controller record with phases Streaming,
  Errored and Closed follows the WHATWG Streams Standard rules for `enqueue`, `error` and
  `close`, and logs the `error` and `close` calls in order. A closed stream whose queue
  the consumer has not drained still counts as readable, as the standard says. It keeps the texts the consumer has
  already read apart from those still queued, because `error` on a readable stream
  empties the queue. The callback is a fold over the completion's chunks, followed by the
  `catch` and `finally` steps. How many texts the consumer has read when the loop stops
  is an input, `pulled`.
- `ChatRoute`: the whole handler, `Post`. The retriever (embedding plus index query)
  and the generator (streamed chat completion) are function parameters.

Dafny values are immutable. So the route's promise never to modify the posted
conversation (it only slices it and concatenates strings) holds by construction.

Three behaviours of the code that a reader might not expect are modelled as written:

- An empty conversation fails with the TypeError raised by the property read. There is
  no dedicated error for it.
- When there are no matches, the block is the bare header, with no further text.
- The block shows the rating twice, labelled `Review:` and `Stars`, and no review text.

## Model

| member | source | states |
|---|---|---|
| `QueryExtractor.ExtractQuery` | app/api/chat/route.js:67 | an empty conversation, and only that, throws the TypeError of reading `.content` of `undefined`; otherwise the query is the content of a message of the conversation |
| `QueryExtractor.QueryIsLatestTurn` | app/api/chat/route.js:67 | for any history, appending a turn makes that turn's content the query |
| `QueryExtractor.QueryDependsOnlyOnLatest` | app/api/chat/route.js:67 | two conversations give the same query exactly when their last turns have the same content, whatever the earlier turns are |
| `ContextFormatter.Field` | app/api/chat/route.js:84-86 | a metadata key renders as its value when present and as `undefined` when absent, as a template literal does |
| `ContextFormatter.Segment` | app/api/chat/route.js:82-88 | a match's segment opens with the blank line and the `Professor:` label, and its length is that of the fixed labels plus the identifier, the subject and twice the `stars` value, which it prints under both `Review:` and `Stars` (`ContextParser.SegmentRoundTrip` reads each value back) |
| `ContextFormatter.Accumulate` | app/api/chat/route.js:81-89 | the `forEach` accumulation succeeds exactly when every match has metadata; the text it starts from stays a prefix; the first match without metadata throws at its `stars` read |
| `ContextFormatter.FormatContext` | app/api/chat/route.js:80-89 | the block always begins with the fixed header; with zero matches it is exactly the header; it throws exactly when some match lacks metadata |
| `ContextFormatter.SegmentsAppend` | app/api/chat/route.js:81-89 | the segments of two runs of matches, one after the other, are the segments of the joined run |
| `ContextFormatter.AccumulateAppendsSegments` | app/api/chat/route.js:81-89 | appending one segment per match in turn gives the start text followed by the in-order concatenation of the matches' segments |
| `ContextFormatter.FormatContextIsHeaderThenSegments` | app/api/chat/route.js:80-89 | the block is the header followed by exactly one segment per match, in retrieval order, or the metadata TypeError |
| `ContextFormatter.SegmentsInOrder` | app/api/chat/route.js:81-89 | the segment of match `i` comes after the segments of all earlier matches and before those of all later ones |
| `ContextFormatter.AccumulateReadsOnlyRows` | app/api/chat/route.js:83-86 | matches that agree on metadata presence, identifier, `stars` and `subject` give the same block |
| `ContextFormatter.OtherMetadataIsNeverRead` | app/api/chat/route.js:83-86 | changing any metadata key other than `stars` and `subject`, such as `review`, leaves the block unchanged |
| `ContextParser.SegmentRoundTrip` | app/api/chat/route.js:82-88 | when the identifier, `stars` and `subject` are single lines, reading back a segment recovers the identifier, the `stars` value shown under both `Review:` and `Stars`, and the subject, and leaves the following text untouched |
| `ContextParser.SegmentsRoundTrip` | app/api/chat/route.js:81-89 | when every row's identifier, `stars` and `subject` are single lines, reading back the concatenated segments recovers the whole row sequence |
| `ContextParser.ContextRoundTrip` | app/api/chat/route.js:80-89 | formatting and then reading back yields every match's identifier, stars and subject, once each, in retrieval order, when those values are single lines |
| `ContextParser.SegmentSound` | app/api/chat/route.js:82-88 | any text the segment reader accepts is exactly a rendered segment followed by the rest |
| `ContextParser.SegmentsSound` | app/api/chat/route.js:81-89 | any text the segment-sequence reader accepts is exactly the concatenated segments of what it read |
| `ContextParser.ContextSound` | app/api/chat/route.js:80-89 | any text the block reader accepts is exactly the header followed by the segments of what it read |
| `PromptAssembler.Assemble` | app/api/chat/route.js:91-99 | the outgoing list has one more message than the conversation; the system message is first; the positions after it hold the earlier turns unchanged and in order; the last message has role `user` and content equal to the query followed by the block |
| `PromptAssembler.OneSystemMessageAdded` | app/api/chat/route.js:95-97 | the outgoing list holds exactly one more system-role message than the earlier turns, so system turns already in the history pass through |
| `PromptAssembler.SystemMessageOnlyFirst` | app/api/chat/route.js:95-97 | when the history has no system turn, position 0 is the only system message of the outgoing list |
| `PromptAssembler.AssembleRoundTrip` | app/api/chat/route.js:91-98 | taking the outgoing list apart gives back the earlier turns and the query followed by the block |
| `PromptAssembler.AssembledQueryCarriesContext` | app/api/chat/route.js:91-98 | the last message the model receives is the user's query with the block appended |
| `StreamingRelay.ContentOf` | app/api/chat/route.js:109 | the content read throws a TypeError exactly when the chunk has no `choices` array; a missing first choice or delta reads as absent; otherwise it is the first choice's delta content |
| `StreamingRelay.Truthy` | app/api/chat/route.js:110 | the `if (content)` test passes exactly for present, non-empty text |
| `StreamingRelay.Enqueue` | app/api/chat/route.js:112 | `enqueue` before any `close` or `error` adds the text at the end of the unread queue and changes nothing else; after either it throws a TypeError and changes nothing |
| `StreamingRelay.SignalError` | app/api/chat/route.js:117 | `error` never throws and is logged; on a readable stream, including one closed with texts still unread, it sets the errored state with the given reason and drops every unread text, keeping what was already read; on an errored or fully drained closed stream it has no effect |
| `StreamingRelay.Close` | app/api/chat/route.js:120 | `close` is logged; before any `close` or `error` it closes the stream and keeps its queue for the consumer; after either it throws a TypeError and leaves the phase and the texts as they were |
| `StreamingRelay.ErrorAfterCloseNeedsUndrainedQueue` | app/api/chat/route.js:117-120 | `error` after `close` errors a stream whose queue the consumer has not drained and drops the unread text; once the queue is drained the stream is closed for good and `error` changes nothing the consumer sees |
| `StreamingRelay.Texts` | app/api/chat/route.js:108-113 | the forwarded texts are never empty and are no more numerous than the chunks |
| `StreamingRelay.FaultIndex` | app/api/chat/route.js:108-109 | every chunk before the returned position has readable content, and the chunk at it, if any, has no `choices` array |
| `StreamingRelay.Consume` | app/api/chat/route.js:107-115 | the loop leaves the stream readable; it enqueues exactly the non-empty contents, in arrival order, of the chunks read before the first exception; it throws exactly the iteration's error |
| `StreamingRelay.Run` | app/api/chat/route.js:104-123 | the calls that release the stream are `close` alone on a clean path, and `error` then `close` on the error path; after a clean iteration the consumer receives every forwarded text and the stream ends closed; after a failed one it receives only the forwarded texts it had read before `error`, then the iteration's error, the unread ones being dropped, and the `close` that follows `error` is refused |
| `StreamingRelay.CloseAfterErrorIsRefused` | app/api/chat/route.js:116-121 | after a failed iteration, the route calls `error` and then `close`, once each, and the `close` on the errored stream throws a TypeError that rejects `start` |
| `StreamingRelay.CloseAfterErrorWitness` | app/api/chat/route.js:116-121 | a completion that throws before its first chunk makes `start` reject |
| `StreamingRelay.RunGuarded` | app/api/chat/route.js:107-121 | with `close` moved into the `try`, each path releases the stream with exactly one call, `error` on the error path and `close` otherwise, and no call is refused |
| `StreamingRelay.GuardedLooksTheSame` | app/api/chat/route.js:107-121 | the guarded callback and the callback as written give the consumer the same texts and the same end, whatever it had read when the loop stopped |
| `StreamingRelay.ForwardedTextIsWholeText` | app/api/chat/route.js:108-113 | the forwarded pieces concatenate to the concatenation of all chunk contents, so skipping empty contents loses no text |
| `StreamingRelay.CleanStreamExample` | app/api/chat/route.js:104-123 | the chunks "Prof", "essor: Dr. Smith" and "" deliver exactly those two texts, spelling "Professor: Dr. Smith", then a clean close, with `close` the only release call, however many the consumer had read before the close |
| `StreamingRelay.ErrorAfterTwoChunksExample` | app/api/chat/route.js:107-121 | a completion that fails after two text chunks ends errored, after `error` and then `close`; a consumer that had read both texts has received them, and one that had read none receives neither, because `error` drops the unread queue |
| `ChatRoute.Post` | app/api/chat/route.js:59-125 | an empty conversation fails with the query-read TypeError; a handler that produces a stream had a non-empty conversation, calls `close` on the stream once and last, after at most one `error`, and the caller receives only non-empty texts |
| `ChatRoute.EmptyConversationCallsNoService` | app/api/chat/route.js:67-78 | with an empty conversation the outcome does not depend on what the retriever or the generator would answer |
| `ChatRoute.RetrievalFailureCallsNoGenerator` | app/api/chat/route.js:67-102 | a failed embedding or index query ends the request with that failure, whatever the generator would answer |
| `ChatRoute.PostSendsAssembledPrompt` | app/api/chat/route.js:80-102 | after a successful retrieval in which every match has metadata, the generator receives the assembled list whose last content is the query, the header and the matches' segments in order, and the response relays its answer |
| `ChatRoute.MetadataFailureCallsNoGenerator` | app/api/chat/route.js:80-102 | a successful retrieval with a match lacking metadata ends the request with the TypeError of its `stars` read, whatever the generator would answer |
| `ChatRoute.ExampleContextLists` | app/api/chat/route.js:80-89 | for the two sample professors, the block reads back as Dr. Smith then Dr. Davis with their subjects and ratings |
| `ChatRoute.ExamplePromptCarriesContext` | app/api/chat/route.js:91-99 | the sample question, sent alone, reaches the model as the system message and then the question followed by the context block |
| `ChatRoute.EndToEndExample` | app/api/chat/route.js:59-125 | the sample request formats a block that lists both professors in retrieval order, and its response streams "Professor: Dr. Smith" followed by a clean close |

## Left out

- Client construction (`new Pinecone`, `pc.index('rag').namespace('nsl')`, `new OpenAI()`, lines 61-65) is left out. It is configuration; the model assumes it succeeds.
- The embedding request and the index query (lines 68-78) are folded into one `Retriever` parameter. The `topK: 3` limit is not imposed on its result, and no property depends on the number of matches.
- The streamed chat completion request (lines 94-102) is a `Generator` parameter. Its model name and `stream: true` flag are not modelled.
- `req.json()`, `process.env`, `NextResponse` and the `TextEncoder` UTF-8 encoding (lines 60, 106, 111, 125) are framework and byte-level plumbing. The stream's queue holds text, not bytes.
- Asynchronous iteration, back-pressure and cancellation of the stream are about concurrency, which the model does not cover. The relay is a fold over a finite, already-known run of chunks.
- The interleaving of the consumer's reads with the route's `enqueue` calls is reduced to one number, `pulled`: how many queued texts the consumer has read when the loop stops. Only that moment matters to what it receives, since `error` drops exactly the texts still unread then.
- The wording of the system prompt (lines 5-57) is not modelled. `SystemPrompt` holds a short placeholder text, not the route's prompt, and no property depends on its text.
- Metadata values are kept as the text a template literal renders them to. The conversion of numbers to text is not modelled. A missing key renders as `undefined`.
- A match's similarity score is not modelled, because the route never reads it.
- Messages carry only `role` and `content`. Extra fields that the spread passes through are not modelled, nor is a non-string `content`.
- A chunk's `content` is either absent or text. Non-string truthy values are not modelled.
- ContextParser.ContextRoundTrip: it requires identifiers, ratings and subjects without line breaks. A value that contains the label text after a line break makes the block ambiguous, so the formatter is not invertible in general.

## Findings

| source | as written | input that shows it | evidently intended | confidence | as-written member | corrected member |
|---|---|---|---|---|---|---|
| app/api/chat/route.js:116-121 | `finally` calls `controller.close()` after `catch` has called `controller.error(err)`. Under the WHATWG Streams Standard, closing an errored stream throws a TypeError, which rejects the `start` callback | a completion whose iteration throws, for example before its first chunk (`CloseAfterErrorWitness`) | release the stream exactly once, by `error` or by `close`, with no refused call | not executed; the consumer-visible stream is the same either way | `StreamingRelay.CloseAfterErrorIsRefused` | `StreamingRelay.RunGuarded` |

`ChatRoute.Post` keeps the relay as written (`StreamingRelay.Run`), so that the handler
matches the code. `StreamingRelay.GuardedLooksTheSame` proves that the consumer receives
the same texts and the same end from either version. Only the refused `close`, and the
rejection of `start` that it causes, differ.
