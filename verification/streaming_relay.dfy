/** The response stream of the chat route. Its `start` callback walks the language
    model's chunk stream, enqueues every chunk's non-empty `choices[0].delta.content`,
    hands any error to `controller.error`, and calls `controller.close` in `finally`.
    The controller follows the readable-stream rules of the WHATWG Streams Standard:
    `enqueue` and `close` work only before `close` or `error` has been called and
    otherwise throw a TypeError; `error` on a readable stream, which includes a closed
    one whose queue the consumer has not yet drained, discards the texts the consumer
    has not yet read; and `error` on an errored or fully drained closed stream has no
    effect. */
module StreamingRelay {
  import opened Wrappers
  import opened ChatTypes

  /** `delta` of a streamed choice; `content` is absent (`null`/`undefined`) or text. */
  datatype Delta = Delta(content: Option<string>)

  /** One streamed choice; `delta` may be absent. */
  datatype Choice = Choice(delta: Option<Delta>)

  /** One chunk of the streamed completion; `choices` is `None` when the chunk has no
      `choices` array at all. */
  datatype Chunk = Chunk(choices: Option<seq<Choice>>)

  /** How the completion's iteration ends once its chunks are used up. */
  datatype Ending = Finished | Throws(error: JsError)

  /** The language model's streamed answer: a finite run of chunks, then an end. */
  datatype Completion = Completion(chunks: seq<Chunk>, ending: Ending)

  const ChoicesRead: string := "chunk.choices[0]"
  const EnqueueRefused: string := "controller.enqueue"
  const CloseRefused: string := "controller.close"

  /** `chunk.choices[0]?.delta?.content`: a missing first choice, delta or content
      reads as absent, but a missing `choices` array throws. */
  function ContentOf(c: Chunk): (r: Result<Option<string>, JsError>)
    ensures r.Failure? <==> c.choices.None?
    ensures r.Failure? ==> r.error == TypeError(ChoicesRead)
    ensures r.Success? && r.value.Some? ==>
              |c.choices.value| > 0 && c.choices.value[0].delta == Some(Delta(r.value))
    ensures c.choices.Some? && |c.choices.value| > 0 && c.choices.value[0].delta.Some? ==>
              r == Success(c.choices.value[0].delta.value.content)
  {
    match c.choices
    case None => Failure(TypeError(ChoicesRead))
    case Some(choices) =>
      if |choices| == 0 then Success(None)
      else
        match choices[0].delta
        case None => Success(None)
        case Some(d) => Success(d.content)
  }

  /** The truthiness test `if (content)`: present and not the empty string. */
  function Truthy(content: Option<string>): (b: bool)
    ensures b ==> content.Some? && |content.value| > 0
    ensures content.Some? && |content.value| > 0 ==> b
  {
    content.Some? && content.value != ""
  }

  /** What one chunk contributes downstream: its content when that is non-empty,
      nothing otherwise. */
  function Forwarded(c: Chunk): seq<string>
  {
    match ContentOf(c)
    case Success(content) => if Truthy(content) then [content.value] else []
    case Failure(_) => []
  }

  /** Reference definition: the non-empty contents of `chunks`, in arrival order. */
  function Texts(chunks: seq<Chunk>): (ts: seq<string>)
    ensures |ts| <= |chunks|
    ensures forall i :: 0 <= i < |ts| ==> ts[i] != ""
  {
    if |chunks| == 0 then [] else Forwarded(chunks[0]) + Texts(chunks[1..])
  }

  /** The position of the first chunk whose content cannot be read, or the number of
      chunks when every chunk can be read. */
  function FaultIndex(chunks: seq<Chunk>): (k: nat)
    ensures k <= |chunks|
    ensures forall i :: 0 <= i < k ==> ContentOf(chunks[i]).Success?
    ensures k < |chunks| ==> ContentOf(chunks[k]).Failure?
  {
    if |chunks| == 0 || ContentOf(chunks[0]).Failure? then 0
    else 1 + FaultIndex(chunks[1..])
  }

  /** The error that ends the iteration, if any: a chunk without `choices`, or the
      completion's own error once all chunks were read. */
  function IterationError(g: Completion): Option<JsError>
  {
    if FaultIndex(g.chunks) < |g.chunks| then Some(TypeError(ChoicesRead))
    else
      match g.ending
      case Finished => None
      case Throws(e) => Some(e)
  }

  /** The stream controller's state. `Closed` means `close` has been called; the
      stream is fully closed only once the consumer has drained its queue. */
  datatype Phase = Streaming | Errored(reason: JsError) | Closed

  /** The two calls by which the route releases the stream. */
  datatype Release = ErrorCall | CloseCall

  /** The controller's state. Texts handed to `enqueue` wait in `queue` until the
      consumer reads them; those it has read are in `delivered`. `releases` logs the
      route's `error` and `close` calls, in the order they were made. */
  datatype Controller = Controller(phase: Phase, delivered: seq<string>, queue: seq<string>,
                                   releases: seq<Release>)

  const Fresh: Controller := Controller(Streaming, [], [], [])

  /** The standard's "readable" state: no `close` or `error` yet, or `close` called
      while texts still wait for the consumer. */
  predicate Readable(c: Controller)
  {
    c.phase.Streaming? || (c.phase.Closed? && |c.queue| > 0)
  }

  /** Everything the consumer receives before the stream ends: what it has read, and
      the rest of the queue unless the stream errored, since a closed stream still
      hands out its queued texts and an errored one hands out nothing more. */
  function Received(c: Controller): seq<string>
  {
    if c.phase.Errored? then c.delivered else c.delivered + c.queue
  }

  function Min(a: nat, b: nat): nat
  {
    if a < b then a else b
  }

  /** A controller call: the controller afterwards, and the exception it threw. */
  datatype Call = Call(after: Controller, thrown: Option<JsError>)

  /** `controller.enqueue(text)`: before any `close` or `error` the text is queued for
      the consumer; afterwards the call refuses with a TypeError and nothing changes. */
  function Enqueue(c: Controller, text: string): (r: Call)
    ensures r.thrown.None? <==> c.phase.Streaming?
    ensures r.thrown.None? ==>
              r.after.queue == c.queue + [text] && r.after.delivered == c.delivered && r.after.phase == c.phase
    ensures r.thrown.Some? ==> r.after == c && r.thrown == Some(TypeError(EnqueueRefused))
    ensures r.after.releases == c.releases
  {
    if c.phase.Streaming? then Call(c.(queue := c.queue + [text]), None)
    else Call(c, Some(TypeError(EnqueueRefused)))
  }

  /** The consumer reads up to `n` queued texts, oldest first. */
  function Read(c: Controller, n: nat): (r: Controller)
    ensures r.delivered + r.queue == c.delivered + c.queue
    ensures |r.delivered| == |c.delivered| + Min(n, |c.queue|)
    ensures r.phase == c.phase && r.releases == c.releases
  {
    var k := Min(n, |c.queue|);
    assert c.queue[..k] + c.queue[k..] == c.queue;
    c.(delivered := c.delivered + c.queue[..k], queue := c.queue[k..])
  }

  /** `controller.error(e)`: a readable stream, closed-but-undrained included, becomes
      errored and its unread queue is emptied (the standard's ResetQueue step); on an
      errored or fully drained closed stream the call has no effect. It never throws. */
  function SignalError(c: Controller, e: JsError): (r: Controller)
    ensures r.releases == c.releases + [ErrorCall]
    ensures r.delivered == c.delivered
    ensures Readable(c) ==> r.phase == Errored(e) && r.queue == []
    ensures !Readable(c) ==> r.phase == c.phase && r.queue == c.queue
  {
    var c' := c.(releases := c.releases + [ErrorCall]);
    if Readable(c) then c'.(phase := Errored(e), queue := []) else c'
  }

  /** `controller.close()`: before any `close` or `error` the stream becomes closed and
      keeps its queue for the consumer to drain; afterwards the call refuses with a
      TypeError. */
  function Close(c: Controller): (r: Call)
    ensures r.after.releases == c.releases + [CloseCall]
    ensures r.after.delivered == c.delivered && r.after.queue == c.queue
    ensures r.thrown.None? <==> c.phase.Streaming?
    ensures r.thrown.None? ==> r.after.phase == Closed
    ensures r.thrown.Some? ==> r.after.phase == c.phase && r.thrown == Some(TypeError(CloseRefused))
  {
    var c' := c.(releases := c.releases + [CloseCall]);
    if c.phase.Streaming? then Call(c'.(phase := Closed), None)
    else Call(c', Some(TypeError(CloseRefused)))
  }

  /** `error` after `close` still reaches a stream whose queue the consumer has not
      drained: the unread texts are dropped. Once the consumer has drained the queue,
      the stream is fully closed and `error` leaves it and its texts as they were. */
  lemma ErrorAfterCloseNeedsUndrainedQueue(text: string, e: JsError)
    ensures var closed := Close(Enqueue(Fresh, text).after).after;
            && SignalError(closed, e).phase == Errored(e)
            && Received(SignalError(closed, e)) == []
    ensures var drained := Read(Close(Enqueue(Fresh, text).after).after, 1);
            && SignalError(drained, e).phase == Closed
            && Received(SignalError(drained, e)) == [text]
  {
  }

  /** The `try` block: the `for await` loop over the chunks, stopping at the first
      exception. The stream stays readable, exactly the non-empty contents of the chunks
      read before the loop stopped are enqueued, in arrival order, and the loop throws
      exactly the iteration's error. */
  function Consume(c: Controller, chunks: seq<Chunk>, ending: Ending): (r: Call)
    requires c.phase.Streaming?
    ensures r.after.phase.Streaming?
    ensures r.after.delivered == c.delivered
    ensures r.after.queue == c.queue + Texts(chunks[..FaultIndex(chunks)])
    ensures r.after.releases == c.releases
    ensures r.thrown == IterationError(Completion(chunks, ending))
    decreases |chunks|
  {
    if |chunks| == 0 then
      match ending
      case Finished => Call(c, None)
      case Throws(e) => Call(c, Some(e))
    else
      match ContentOf(chunks[0])
      case Failure(e) => Call(c, Some(e))
      case Success(content) =>
        ForwardedBeforeFaultStep(chunks);
        if Truthy(content) then
          var step := Enqueue(c, content.value);
          var r := Consume(step.after, chunks[1..], ending);
          assert r.after.queue == c.queue + ([content.value] + Texts(chunks[1..][..FaultIndex(chunks[1..])]));
          r
        else
          Consume(c, chunks[1..], ending)
  }

  /** Reading one more chunk without a fault adds exactly that chunk's contribution in
      front of the texts forwarded from the rest. */
  lemma {:induction false} ForwardedBeforeFaultStep(chunks: seq<Chunk>)
    requires |chunks| > 0 && ContentOf(chunks[0]).Success?
    ensures Texts(chunks[..FaultIndex(chunks)])
         == Forwarded(chunks[0]) + Texts(chunks[1..][..FaultIndex(chunks[1..])])
    ensures forall ending :: IterationError(Completion(chunks, ending)) == IterationError(Completion(chunks[1..], ending))
  {
    var k := FaultIndex(chunks);
    assert k == 1 + FaultIndex(chunks[1..]);
    var read := chunks[..k];
    assert |read| > 0 && read[0] == chunks[0];
    assert read[1..] == chunks[1..][..k - 1];
    assert Texts(read) == Forwarded(read[0]) + Texts(read[1..]);
  }

  /** What the `start` callback leaves behind: the controller, and the exception that
      rejects `start`'s promise, if any. */
  datatype Outcome = Outcome(stream: Controller, startRejection: Option<JsError>)

  /** The texts the route enqueues for a completion: the non-empty contents of the
      chunks read before the iteration stopped. */
  function Sent(g: Completion): seq<string>
  {
    Texts(g.chunks[..FaultIndex(g.chunks)])
  }

  /** The `start` callback as written: `try` the loop, `catch` into `controller.error`,
      `finally` `controller.close`. `pulled` is how many texts the consumer has read by
      the time the loop stops, which depends on timing outside the route.
      Every path calls `close` exactly once, as the last release, after `error` on the
      error path. After a clean iteration the stream closes
      and the consumer receives every sent text. After a failed one the stream errors
      with the iteration's error, the consumer receives only the texts it had already
      read (the unread ones are dropped), and the `close` that follows is refused,
      rejecting `start`. */
  function Run(g: Completion, pulled: nat): (r: Outcome)
    ensures IterationError(g).None? ==>
              && r.stream.releases == [CloseCall]
              && r.stream.phase == Closed
              && Received(r.stream) == Sent(g)
              && r.startRejection.None?
    ensures IterationError(g).Some? ==>
              && r.stream.releases == [ErrorCall, CloseCall]
              && r.stream.phase == Errored(IterationError(g).value)
              && Received(r.stream) == Sent(g)[..Min(pulled, |Sent(g)|)]
              && r.startRejection == Some(TypeError(CloseRefused))
  {
    var tried := Consume(Fresh, g.chunks, g.ending);
    var read := Read(tried.after, pulled);
    assert read.delivered == Sent(g)[..Min(pulled, |Sent(g)|)];
    var caught := match tried.thrown
      case Some(e) => SignalError(read, e)
      case None => read;
    var closed := Close(caught);
    Outcome(closed.after, closed.thrown)
  }

  /** The `start` callback with `close` moved to the end of the `try` block, so that
      it runs only after a clean iteration: every path releases the stream exactly once,
      by `error` or by `close`, and no controller call is refused. */
  function RunGuarded(g: Completion, pulled: nat): (r: Outcome)
    ensures r.stream.releases == if IterationError(g).Some? then [ErrorCall] else [CloseCall]
    ensures r.startRejection.None?
    ensures r.stream.phase == if IterationError(g).Some? then Errored(IterationError(g).value) else Closed
  {
    var tried := Consume(Fresh, g.chunks, g.ending);
    var read := Read(tried.after, pulled);
    match tried.thrown
    case Some(e) => Outcome(SignalError(read, e), None)
    case None =>
      var closed := Close(read);
      Outcome(closed.after, closed.thrown)
  }

  /** As written, an iteration that fails makes `finally` close an errored stream; the
      stream refuses, and the TypeError rejects `start`. */
  lemma CloseAfterErrorIsRefused(g: Completion, pulled: nat)
    requires IterationError(g).Some?
    ensures Run(g, pulled).stream.releases == [ErrorCall, CloseCall]
    ensures Run(g, pulled).stream.phase.Errored?
    ensures Run(g, pulled).startRejection == Some(TypeError(CloseRefused))
  {
  }

  /** A concrete instance: a completion that fails before its first chunk. */
  lemma CloseAfterErrorWitness()
    ensures Run(Completion([], Throws(Rejected("connection reset"))), 0).startRejection.Some?
  {
  }

  /** The consumer cannot tell the guarded callback from the one as written: it
      receives the same texts and sees the same end; only the refused `close` and the
      rejection of `start` disappear. */
  lemma GuardedLooksTheSame(g: Completion, pulled: nat)
    ensures RunGuarded(g, pulled).stream.phase == Run(g, pulled).stream.phase
    ensures Received(RunGuarded(g, pulled).stream) == Received(Run(g, pulled).stream)
  {
  }

  /** The concatenation of a sequence of texts. */
  function Concat(ts: seq<string>): string
  {
    if |ts| == 0 then "" else ts[0] + Concat(ts[1..])
  }

  /** A chunk's content as text, empty when it is absent or cannot be read. */
  function ContentText(c: Chunk): string
  {
    match ContentOf(c)
    case Success(Some(t)) => t
    case _ => ""
  }

  /** The text of all chunks' contents, empty ones included. */
  function AllText(chunks: seq<Chunk>): string
  {
    if |chunks| == 0 then "" else ContentText(chunks[0]) + AllText(chunks[1..])
  }

  /** Skipping the empty contents loses no text: the forwarded pieces concatenate to
      the whole answer. */
  lemma {:induction false} ForwardedTextIsWholeText(chunks: seq<Chunk>)
    ensures Concat(Texts(chunks)) == AllText(chunks)
    decreases |chunks|
  {
    if |chunks| > 0 {
      ForwardedTextIsWholeText(chunks[1..]);
      var rest := Texts(chunks[1..]);
      if Forwarded(chunks[0]) == [] {
        assert ContentText(chunks[0]) == "";
        assert Texts(chunks) == rest;
        assert "" + AllText(chunks[1..]) == AllText(chunks[1..]);
      } else {
        var t := Forwarded(chunks[0])[0];
        assert Texts(chunks) == [t] + rest;
        assert ([t] + rest)[1..] == rest;
      }
    }
  }

  /** A completion that ends cleanly after chunks "Prof", "essor: Dr. Smith" and an
      empty one delivers exactly "Prof" and "essor: Dr. Smith", which spell
      "Professor: Dr. Smith", and closes without error, however the consumer's reads are
      timed. */
  lemma CleanStreamExample(pulled: nat)
    ensures var g := Completion([TextChunk("Prof"), TextChunk("essor: Dr. Smith"), TextChunk("")], Finished);
            && Received(Run(g, pulled).stream) == ["Prof", "essor: Dr. Smith"]
            && Concat(Received(Run(g, pulled).stream)) == "Professor: Dr. Smith"
            && Run(g, pulled).stream.phase == Closed
            && Run(g, pulled).stream.releases == [CloseCall]
  {
    var c0, c1, c2 := TextChunk("Prof"), TextChunk("essor: Dr. Smith"), TextChunk("");
    var chunks := [c0, c1, c2];
    var g := Completion(chunks, Finished);
    assert chunks[1..] == [c1, c2] && chunks[1..][1..] == [c2] && [c2][1..] == [];
    assert FaultIndex(chunks) == 3;
    assert chunks[..3] == chunks;
    assert Texts([c2]) == [];
    assert Texts([c1, c2]) == ["essor: Dr. Smith"];
    assert Texts(chunks) == ["Prof", "essor: Dr. Smith"];
    ConcatExample();
  }

  lemma ConcatExample()
    ensures Concat(["Prof", "essor: Dr. Smith"]) == "Professor: Dr. Smith"
  {
    var q := ["Prof", "essor: Dr. Smith"];
    assert q[1..][1..] == [];
    assert Concat(q) == "Prof" + ("essor: Dr. Smith" + "");
  }

  /** A completion that fails after two text chunks. If the consumer had read both
      before the error, it receives both and then the error; if it had read none, the
      error drops both and the consumer receives only the error. Either way `error` is
      called and then `close`. */
  lemma ErrorAfterTwoChunksExample(e: JsError, pulled: nat)
    ensures var g := Completion([TextChunk("Dr."), TextChunk(" Smith")], Throws(e));
            && (pulled >= 2 ==> Received(Run(g, pulled).stream) == ["Dr.", " Smith"])
            && (pulled == 0 ==> Received(Run(g, pulled).stream) == [])
            && Run(g, pulled).stream.phase == Errored(e)
            && Run(g, pulled).stream.releases == [ErrorCall, CloseCall]
  {
    var g := Completion([TextChunk("Dr."), TextChunk(" Smith")], Throws(e));
    assert FaultIndex(g.chunks) == 2;
    assert g.chunks[..2] == g.chunks;
    assert g.chunks[1..][1..] == [];
    assert Sent(g) == ["Dr.", " Smith"];
  }

  /** A chunk whose first choice carries `text`. */
  function TextChunk(text: string): Chunk
  {
    Chunk(Some([Choice(Some(Delta(Some(text))))]))
  }
}
