/**
 * The POST handler of the chat route (app/api/chat/route.js, lines 88-174).
 * The three external services are parameters; the handler's result is the
 * response together with the list of external calls it made, in order.
 */
module Route {
  import opened Wrappers
  import opened Prompt
  import opened Retrieval
  import opened Streaming
  import opened Text

  /** What the embedding call yields: it throws, or `embedding?.values` is absent, not an array, or an array. */
  datatype EmbedOutcome = EmbedThrew | Absent | NotAnArray | Values(values: seq<real>)

  /** What the index query yields. */
  datatype QueryOutcome = QueryThrew | Matches(matches: seq<Match>)

  /** What starting the streaming generation yields. */
  datatype GenerateOutcome = GenerateThrew | Started(generation: Generation)

  /** The external collaborators, as functions of what is sent to them. */
  datatype Services = Services(
    embed: string -> EmbedOutcome,
    query: QueryRequest -> QueryOutcome,
    generate: seq<string> -> GenerateOutcome)

  /** One outbound call, with exactly what it was sent. */
  datatype Call = Embed(text: string) | Query(request: QueryRequest) | Generate(parts: seq<string>)

  /** The handler's response. */
  datatype Response = BadRequest | ServerError | Stream(chunks: seq<string>, errored: bool)
  {
    /** The HTTP status: 400 for a rejected body, 500 for a failure, 200 for a stream. */
    function Status(): (r: nat)
      ensures r == 400 <==> BadRequest?
      ensures r == 500 <==> ServerError?
      ensures r == 200 <==> Stream?
    {
      match this
      case BadRequest => 400
      case ServerError => 500
      case Stream(_, _) => 200
    }

    /** The `error` field of the JSON body; a stream has none. */
    function ErrorText(): (r: string)
      ensures r == "" <==> Stream?
      ensures BadRequest? ==> r == "Invalid input data"
      ensures ServerError? ==> r == "Internal Server Error"
    {
      match this
      case BadRequest => "Invalid input data"
      case ServerError => "Internal Server Error"
      case Stream(_, _) => ""
    }
  }

  datatype Outcome = Outcome(response: Response, calls: seq<Call>)

  /** The embedding check: a usable vector is an array with at least one entry. */
  function CheckEmbedding(e: EmbedOutcome): (r: Option<seq<real>>)
    ensures r.Some? <==> e.Values? && |e.values| > 0
    ensures r.Some? ==> r.value == e.values
  {
    match e
    case Values(v) => if |v| == 0 then None else Some(v)
    case _ => None
  }

  /** The handler: validate, embed the last message, query, format, compose, stream. */
  function Post(body: Body, svc: Services): (o: Outcome)
    // Input validation: 400 exactly for a parsed body that is not a non-empty array, with no call made.
    ensures o.response.BadRequest? <==> body.NotArray? || (body.Array? && |body.items| == 0)
    ensures o.response.BadRequest? ==> o.calls == []
    ensures body.Unparsable? ==> o.response == ServerError && o.calls == []
    // Only the last message is embedded, and only once.
    ensures Validate(body).Some? ==> |o.calls| >= 1 && o.calls[0] == Embed(LastContent(body.items))
    ensures forall i :: 1 <= i < |o.calls| ==> !o.calls[i].Embed?
    // A missing, non-array or empty embedding ends the request with a 500 before any query.
    ensures Validate(body).Some? && CheckEmbedding(svc.embed(LastContent(body.items))).None? ==>
      o.response == ServerError && o.calls == [Embed(LastContent(body.items))]
    // A usable embedding is sent to the index as is, with topK 5 and metadata included.
    ensures Validate(body).Some? && CheckEmbedding(svc.embed(LastContent(body.items))).Some? ==>
      |o.calls| >= 2 && o.calls[1] == Query(Request(svc.embed(LastContent(body.items)).values))
    // A stream is returned only after all three calls, and carries the non-empty generator chunks.
    ensures o.response.Stream? ==>
      && body.Array? && |body.items| > 0
      && |o.calls| == 3 && o.calls[2].Generate?
      && svc.query(o.calls[1].request).Matches?
      && svc.generate(o.calls[2].parts).Started?
      && o.response.chunks == Forwarded(svc.generate(o.calls[2].parts).generation.chunks)
      && o.response.errored == svc.generate(o.calls[2].parts).generation.failsAfter
    // Matches that all carry metadata lead to exactly one generation call, on the composed prompt,
    // and a generator that starts leads to a stream.
    ensures Validate(body).Some? && CheckEmbedding(svc.embed(LastContent(body.items))).Some? ==>
      var q := svc.query(Request(svc.embed(LastContent(body.items)).values));
      q.Matches? && HasMetadata(q.matches) ==>
        var parts := Compose(body.items, ContextString(q.matches));
        && |o.calls| == 3 && o.calls[2] == Generate(parts)
        && (svc.generate(parts).Started? ==> o.response.Stream?)
    ensures |o.calls| <= 3
  {
    match body
    case Unparsable => Outcome(ServerError, [])
    case NotArray => Outcome(BadRequest, [])
    case Array(data) =>
      if |data| == 0 then Outcome(BadRequest, [])
      else
        var text := LastContent(data);
        var embedded := [Embed(text)];
        match CheckEmbedding(svc.embed(text))
        case None => Outcome(ServerError, embedded)
        case Some(vector) =>
          var request := Request(vector);
          var queried := embedded + [Query(request)];
          match svc.query(request)
          case QueryThrew => Outcome(ServerError, queried)
          case Matches(matches) =>
            if !HasMetadata(matches) then Outcome(ServerError, queried)
            else
              var parts := Compose(data, ContextString(matches));
              var generated := queried + [Generate(parts)];
              match svc.generate(parts)
              case GenerateThrew => Outcome(ServerError, generated)
              case Started(g) => Outcome(Stream(Forwarded(g.chunks), g.failsAfter), generated)
  }

  /**
   * The prompt handed to the generator: system prompt first, the earlier
   * messages unchanged, then the question followed by one block per match.
   */
  lemma {:induction false} PostPrompt(data: seq<Message>, svc: Services)
    requires |data| > 0
    requires |Post(Array(data), svc).calls| == 3
    ensures var o := Post(Array(data), svc);
      && svc.query(o.calls[1].request).Matches?
      && HasMetadata(svc.query(o.calls[1].request).matches)
      && o.calls[2] == Generate(Compose(data, ContextString(svc.query(o.calls[1].request).matches)))
  {
  }

  /** With zero matches the generator receives the user's text exactly. */
  lemma {:induction false} PostNoMatches(data: seq<Message>, svc: Services)
    requires |data| > 0
    requires CheckEmbedding(svc.embed(LastContent(data))).Some?
    requires svc.query(Request(svc.embed(LastContent(data)).values)) == Matches([])
    ensures var o := Post(Array(data), svc);
      |o.calls| == 3 && o.calls[2].Generate? && o.calls[2].parts[|data|] == LastContent(data)
    ensures var o := Post(Array(data), svc);
      svc.generate(o.calls[2].parts).Started? ==> o.response.Stream?
  {
    EmptyContextKeepsQuestion(data);
  }

  /**
   * A failed retrieval is fatal: a query that throws, or a match without
   * metadata, ends the request with a 500 and no generation call.
   */
  lemma {:induction false} PostRetrievalFailure(data: seq<Message>, svc: Services)
    requires |data| > 0
    requires CheckEmbedding(svc.embed(LastContent(data))).Some?
    requires var q := svc.query(Request(svc.embed(LastContent(data)).values));
      q.QueryThrew? || !HasMetadata(q.matches)
    ensures Post(Array(data), svc).response == ServerError
    ensures forall c :: c in Post(Array(data), svc).calls ==> !c.Generate?
  {
  }

  /** The streamed chunks join to exactly the text the generator produced. */
  lemma {:induction false} PostStreamFidelity(body: Body, svc: Services)
    requires Post(body, svc).response.Stream?
    ensures var o := Post(body, svc);
      Concat(o.response.chunks) == Concat(svc.generate(o.calls[2].parts).generation.chunks)
  {
    var o := Post(body, svc);
    ForwardedKeepsText(svc.generate(o.calls[2].parts).generation.chunks);
  }

  /**
   * The handler run step by step: the context is built by the formatting
   * loop and the stream is filled by the forwarding loop; the response and
   * the enqueued chunks agree with `Post`.
   */
  method Handle(body: Body, svc: Services, controller: Controller) returns (response: Response)
    requires controller.state == Readable && controller.queue == []
    modifies controller
    ensures response == Post(body, svc).response
    ensures response.Stream? ==> controller.queue == response.chunks
    ensures response.Stream? ==> controller.state == if response.errored then Errored else Closed
    ensures !response.Stream? ==> controller.queue == [] && controller.state == Readable
  {
    if body.Unparsable? {
      return ServerError;
    }
    var input := Validate(body);
    if input.None? {
      return BadRequest;
    }
    var data := input.value;
    var text := LastContent(data);
    var embedding := CheckEmbedding(svc.embed(text));
    if embedding.None? {
      return ServerError;
    }
    var results := svc.query(Request(embedding.value));
    if results.QueryThrew? {
      return ServerError;
    }
    var resultString := FormatResults(results.matches);
    if resultString.None? {
      return ServerError;
    }
    var completion := svc.generate(Compose(data, resultString.value));
    if completion.GenerateThrew? {
      return ServerError;
    }
    Start(controller, completion.generation);
    response := Stream(controller.queue, completion.generation.failsAfter);
  }
}
