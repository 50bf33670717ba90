/** The chat route's POST handler as a whole: read the query, retrieve matches for it,
    format them into a context block, send the assembled messages to the language
    model, and relay its streamed answer. The two external services are parameters. */
module ChatRoute {
  import opened Wrappers
  import opened ChatTypes
  import opened QueryExtractor
  import opened ContextFormatter
  import opened ContextParser
  import opened PromptAssembler
  import opened StreamingRelay

  /** The external calls. `Retriever` stands for embedding the query text and asking the
      vector index for its nearest matches; `Generator` for requesting the streamed chat
      completion. A `Failure` is a rejected promise, which rejects the handler. */
  type Retriever = string -> Result<seq<Match>, JsError>
  type Generator = seq<Message> -> Result<Completion, JsError>

  /** The POST handler: every step in order, the first exception ending the request
      before any stream exists. `pulled` is how many streamed texts the caller has read
      by the time the relay's loop stops. Once the stream exists, `close` is called on it
      exactly once, and the caller receives only non-empty texts. */
  function Post(data: seq<Message>, retrieve: Retriever, generate: Generator, pulled: nat): (r: Result<Outcome, JsError>)
    ensures |data| == 0 ==> r == Failure(TypeError(LastContentRead))
    ensures r.Success? ==> |data| > 0 && (r.value.stream.releases == [CloseCall] || r.value.stream.releases == [ErrorCall, CloseCall])
    ensures r.Success? ==> forall i :: 0 <= i < |Received(r.value.stream)| ==> Received(r.value.stream)[i] != ""
  {
    var query :- ExtractQuery(data);
    var matches :- retrieve(query);
    var context :- FormatContext(matches);
    var completion :- generate(Assemble(data, context));
    Success(Run(completion, pulled))
  }

  /** An empty conversation fails at the query read, before either service is
      consulted: the outcome is the same whatever the services would have answered. */
  lemma EmptyConversationCallsNoService(data: seq<Message>, r1: Retriever, g1: Generator, r2: Retriever, g2: Generator, pulled: nat)
    requires |data| == 0
    ensures Post(data, r1, g1, pulled) == Post(data, r2, g2, pulled) == Failure(TypeError(LastContentRead))
  {
  }

  /** A failed retrieval (embedding or index query) ends the request with that failure,
      and the language model is never consulted. */
  lemma RetrievalFailureCallsNoGenerator(data: seq<Message>, retrieve: Retriever, g1: Generator, g2: Generator, pulled: nat)
    requires |data| > 0
    requires retrieve(data[|data| - 1].content).Failure?
    ensures Post(data, retrieve, g1, pulled) == Post(data, retrieve, g2, pulled) == Failure(retrieve(data[|data| - 1].content).error)
  {
  }

  /** A retrieved match without metadata ends the request at its `stars` read, before
      the language model is consulted. */
  lemma MetadataFailureCallsNoGenerator(data: seq<Message>, retrieve: Retriever, g1: Generator, g2: Generator, pulled: nat)
    requires |data| > 0
    requires retrieve(data[|data| - 1].content).Success?
    requires !HasMetadata(retrieve(data[|data| - 1].content).value)
    ensures Post(data, retrieve, g1, pulled) == Post(data, retrieve, g2, pulled) == Failure(TypeError(MetadataRead))
  {
  }

  /** After a successful retrieval whose matches all carry metadata, the language model
      receives the system message, the earlier turns, and the query followed by the
      header and one segment per match, in retrieval order; the request's stream is the
      relay of its answer. */
  lemma PostSendsAssembledPrompt(data: seq<Message>, retrieve: Retriever, generate: Generator, pulled: nat)
    requires |data| > 0
    requires retrieve(data[|data| - 1].content).Success?
    requires HasMetadata(retrieve(data[|data| - 1].content).value)
    ensures var ms := retrieve(data[|data| - 1].content).value;
            var prompt := Assemble(data, Header + Segments(Rows(ms)));
            && prompt[|data|].content == data[|data| - 1].content + Header + Segments(Rows(ms))
            && Post(data, retrieve, generate, pulled) ==
                 match generate(prompt)
                 case Success(completion) => Success(Run(completion, pulled))
                 case Failure(e) => Failure(e)
  {
    var ms := retrieve(data[|data| - 1].content).value;
    FormatContextIsHeaderThenSegments(ms);
  }

  const Question: string := "best approachable data structures professor"

  /** The two professors the index returns for `Question` in the sample request. */
  function ExampleMatches(): seq<Match>
  {
    [Match("Dr. Smith", Some(map["subject" := "Data Structures", "stars" := "5"])),
     Match("Dr. Davis", Some(map["subject" := "Data Structures", "stars" := "4.5"]))]
  }

  const ExampleRows: seq<Row> :=
    [Row("Dr. Smith", "5", "Data Structures"), Row("Dr. Davis", "4.5", "Data Structures")]

  function ExampleAnswer(): Completion
  {
    Completion([TextChunk("Prof"), TextChunk("essor: Dr. Smith"), TextChunk("")], Finished)
  }

  lemma ExampleContextLists()
    ensures FormatContext(ExampleMatches()).Success?
    ensures ParseContext(FormatContext(ExampleMatches()).value) == Some(ExampleRows)
  {
    var ms := ExampleMatches();
    assert HasMetadata(ms);
    assert Rows(ms)[0] == ExampleRows[0];
    assert Rows(ms)[1] == ExampleRows[1];
    assert Rows(ms) == ExampleRows;
    assert SingleLine(ExampleRows[0]) && SingleLine(ExampleRows[1]);
    ContextRoundTrip(ms);
  }

  /** The sample question, sent as a single user turn, reaches the model
      followed by the context block, after the system message. */
  lemma ExamplePromptCarriesContext(context: string)
    ensures Assemble([Message(UserRole, Question)], context)
         == [SystemMessage, Message(UserRole, Question + context)]
  {
    assert [Message(UserRole, Question)][..0] == [];
  }

  /** A sample request: one user turn asking for an approachable data
      structures professor, two retrieved professors, and a clean three-chunk answer. The
      model receives the question followed by a block that lists Dr. Smith and then
      Dr. Davis, and the consumer receives "Professor: Dr. Smith" and a clean close. */
  lemma EndToEndExample(pulled: nat)
    ensures
      var data := [Message(UserRole, Question)];
      && FormatContext(ExampleMatches()).Success?
      && ParseContext(FormatContext(ExampleMatches()).value) == Some(ExampleRows)
      && Post(data, q => Success(ExampleMatches()), p => Success(ExampleAnswer()), pulled)
         == Success(Run(ExampleAnswer(), pulled))
      && Concat(Received(Run(ExampleAnswer(), pulled).stream)) == "Professor: Dr. Smith"
      && Run(ExampleAnswer(), pulled).stream.phase == Closed
  {
    ExampleContextLists();
    CleanStreamExample(pulled);
    var data := [Message(UserRole, Question)];
    assert ExtractQuery(data) == Success(Question);
  }
}
