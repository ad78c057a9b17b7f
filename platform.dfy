/**
 * The platform (API-key) side of the gateway: completion requests go to the
 * chat-completions or the completions endpoint, and a streamed answer is
 * passed through the event-stream line filter.
 */
module Platform {
  import opened Wrappers
  import opened Text
  import opened Gin
  import opened LineReader
  import opened EventStream
  import opened Common

  /**
   * The two upstream completion endpoints. Their URLs are constants of the
   * platform package that are not part of this model.
   */
  datatype Endpoint = ChatCompletions | Completions

  const ChatPathMarker := "/chat"
  const JsonMediaType := "application/json"
  const EventStreamMediaType := "text/event-stream"

  /** The endpoint a request path selects: chat completions for any path mentioning "/chat". */
  function EndpointFor(path: string): (e: Endpoint)
    ensures e == ChatCompletions <==> Contains(path, ChatPathMarker)
  {
    if Contains(path, ChatPathMarker) then ChatCompletions else Completions
  }

  /** The two routes registered for completions reach their own endpoints. */
  lemma RoutesSelectEndpoints()
    ensures EndpointFor("/platform/v1/chat/completions") == ChatCompletions
    ensures EndpointFor("/platform/v1/completions") == Completions
  {
    ChatRouteHasMarker();
    CompletionsRouteLacksMarker();
  }

  /** The chat route has "/chat" at index 12. */
  lemma ChatRouteHasMarker()
    ensures Contains("/platform/v1/chat/completions", ChatPathMarker)
  {
    var chat := "/platform/v1/chat/completions";
    assert chat[12..17] == ChatPathMarker;
    OccursAtContains(chat, ChatPathMarker, 12);
  }

  /** The completions route has no 'h', and so no "/chat". */
  lemma CompletionsRouteLacksMarker()
    ensures !Contains("/platform/v1/completions", ChatPathMarker)
  {
    assert ChatPathMarker[2] == 'h';
    ContainedChars("/platform/v1/completions", ChatPathMarker, 'h');
  }

  /** A request as `handlePost` sends it upstream. */
  datatype Post = Post(endpoint: Endpoint, headers: map<string, string>, body: string)

  /**
   * The headers of a platform POST: the normalised bearer token, "Accept:
   * text/event-stream" only for a streamed request, and a JSON content type.
   */
  method PostHeaders(authorization: string, stream: bool) returns (headers: map<string, string>)
    ensures headers.Keys == {"Authorization", "Content-Type"} + (if stream then {"Accept"} else {})
    ensures headers["Authorization"] == GetAccessToken(authorization) && HasPrefix(headers["Authorization"], Bearer)
    ensures headers["Content-Type"] == JsonMediaType
    ensures stream ==> headers["Accept"] == EventStreamMediaType
  {
    headers := map[];
    headers := headers["Authorization" := GetAccessToken(authorization)];
    if stream {
      headers := headers["Accept" := EventStreamMediaType];
    }
    headers := headers["Content-Type" := JsonMediaType];
  }

  /**
   * `handlePost`: sends the request; a transport error aborts with status
   * 500 and the error message, and any answer at all is handed back, whatever
   * its status.
   */
  method HandlePost(ctx: Context, respond: Post -> Upstream, endpoint: Endpoint, data: string, stream: bool)
    returns (sent: Post, resp: Option<Upstream>)
    modifies ctx, ctx.writer
    ensures sent.endpoint == endpoint && sent.body == data
    ensures sent.headers.Keys == {"Authorization", "Content-Type"} + (if stream then {"Accept"} else {})
    ensures sent.headers["Authorization"] == GetAccessToken(ctx.request.authorization)
    ensures respond(sent).TransportError? ==>
      && resp == None
      && ctx.writer.status == (if old(ctx.writer.committed) then old(ctx.writer.status) else StatusInternalServerError)
      && ctx.writer.body == old(ctx.writer.body) + [Encoded(Object(ReturnMessage(respond(sent).message)))]
      && ctx.isAborted
    ensures respond(sent).Response? ==> resp == Some(respond(sent)) && unchanged(ctx.writer) && ctx.isAborted == old(ctx.isAborted)
    ensures ctx.checks == old(ctx.checks)
  {
    var headers := PostHeaders(ctx.request.authorization, stream);
    sent := Post(endpoint, headers, data);
    var up := respond(sent);
    if up.TransportError? {
      assert BodyAllowed(StatusInternalServerError);
      ctx.AbortWithStatusJSON(StatusInternalServerError, Object(ReturnMessage(up.message)));
      resp := None;
    } else {
      resp := Some(up);
    }
  }

  /**
   * `handleCompletionsResponse`: labels the response as an event stream and
   * relays the body line by line through the filter, checking for
   * cancellation before every read. It writes exactly the filtered frames of
   * the lines read before the context was cancelled, and asks whether it is
   * cancelled once per line read plus once more.
   */
  method HandleCompletionsResponse(ctx: Context, reader: Reader)
    requires reader != ctx.writer as object
    modifies ctx, ctx.writer, reader
    ensures var lines := CompleteLines(old(reader.unread));
      var n := Budget(|lines|, old(ctx.checks), ctx.cancelAfter);
      && ctx.writer.body == old(ctx.writer.body) + Texts(Filter(lines[..n]))
      && ctx.checks == old(ctx.checks) + n + 1
    ensures ctx.writer.status == old(ctx.writer.status)
    ensures ctx.writer.headers == if old(ctx.writer.committed) then old(ctx.writer.headers)
                                  else old(ctx.writer.headers)["Content-Type" := EventStreamContentType]
    ensures ctx.isAborted == old(ctx.isAborted)
  {
    ctx.writer.SetHeader("Content-Type", EventStreamContentType);
    ghost var lines := CompleteLines(reader.unread);
    ghost var c0 := ctx.checks;
    ghost var b0 := ctx.writer.body;
    ghost var headers := ctx.writer.headers;
    ghost var budget := Budget(|lines|, c0, ctx.cancelAfter);
    ghost var k := 0;
    while true
      invariant 0 <= k <= budget
      invariant CompleteLines(reader.unread) == lines[k..]
      invariant ctx.checks == c0 + k
      invariant ctx.writer.body == b0 + Texts(Filter(lines[..k]))
      invariant ctx.writer.status == old(ctx.writer.status) && ctx.writer.headers == headers
      invariant ctx.isAborted == old(ctx.isAborted)
      decreases |reader.unread|
    {
      var cancelled := ctx.Err();
      if cancelled {
        CancelledEndsBudget(|lines|, c0, ctx.cancelAfter, k);
        break;
      }
      var line, ok := reader.ReadString();
      if !ok {
        break;
      }
      NextOfSuffix(lines, k);
      UncancelledWithinBudget(|lines|, c0, ctx.cancelAfter, k);
      TextsOfNextLine(lines, k);
      assert line == lines[k];

      line := TrimSpace(line);
      if IsNoise(line) {
        k := k + 1;
        continue;
      }
      AppendAssoc(b0, Texts(Filter(lines[..k])), [Text(Frame(line))]);
      ctx.writer.Write(Text(line + "\n\n"));
      ctx.writer.Flush();
      k := k + 1;
    }
  }

  /**
   * `CreateChatCompletions` (and `CreateCompletions`, which calls it): posts
   * the client's body unchanged to the endpoint its path selects, then
   * relays the answer, filtered when the body asked for a stream and copied
   * otherwise. The upstream status is not looked at: the client gets the
   * status already set, whatever the upstream answered.
   */
  method CreateChatCompletions(ctx: Context, respond: Post -> Upstream, streamField: string -> Option<bool>)
    returns (sent: Post)
    modifies ctx, ctx.writer
    ensures sent.endpoint == EndpointFor(ctx.request.path) && sent.body == ctx.request.body
    ensures var stream := streamField(ctx.request.body) == Some(true);
      ("Accept" in sent.headers) == stream
    ensures match respond(sent)
      case TransportError(e) =>
        && ctx.writer.status == (if old(ctx.writer.committed) then old(ctx.writer.status) else StatusInternalServerError)
        && ctx.writer.body == old(ctx.writer.body) + [Encoded(Object(ReturnMessage(e)))]
        && ctx.isAborted
      case Response(_, body) =>
        && ctx.writer.status == old(ctx.writer.status)
        && ctx.isAborted == old(ctx.isAborted)
        && ctx.writer.body == old(ctx.writer.body) +
             if streamField(ctx.request.body) == Some(true) then
               Texts(Filter(CompleteLines(body)[..Budget(|CompleteLines(body)|, old(ctx.checks), ctx.cancelAfter)]))
             else if body == "" then [] else [Text(body)]
  {
    var body := ctx.request.body;
    var stream := match streamField(body) case Some(b) => b case None => false;
    var endpoint := if Contains(ctx.request.path, ChatPathMarker) then ChatCompletions else Completions;
    var resp;
    sent, resp := HandlePost(ctx, respond, endpoint, body, stream);
    if resp.None? {
      return;
    }
    RelayAnswer(ctx, resp.value.body, stream);
  }

  /**
   * The answer's way to the client in `CreateChatCompletions`: a streamed
   * answer goes through `handleCompletionsResponse`, any other is copied as
   * it is. The status already set stays.
   */
  method RelayAnswer(ctx: Context, body: string, stream: bool)
    modifies ctx, ctx.writer
    ensures ctx.writer.status == old(ctx.writer.status) && ctx.isAborted == old(ctx.isAborted)
    ensures ctx.writer.body == old(ctx.writer.body) +
      if stream then Texts(Filter(CompleteLines(body)[..Budget(|CompleteLines(body)|, old(ctx.checks), ctx.cancelAfter)]))
      else if body == "" then [] else [Text(body)]
  {
    if stream {
      var reader := new Reader(body);
      HandleCompletionsResponse(ctx, reader);
    } else if body != "" {
      ctx.writer.Write(Text(body));
    }
  }
}
