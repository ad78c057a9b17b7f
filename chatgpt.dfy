/**
 * The ChatGPT backend handlers as they run: each one talks to the backend
 * through the shared client and writes to the gin response, and each is
 * proved to do exactly what the matching exchange of module Conversation
 * describes.
 */
module ChatGpt {
  import opened Wrappers
  import opened Text
  import opened Gin
  import opened LineReader
  import opened EventStream
  import opened Relay
  import opened Common
  import opened Conversation

  /** `api.Client` as the ChatGPT handlers use it: it answers each request, and the requests sent are kept. */
  class Client {
    const respond: Responder
    var sent: seq<Outbound<Payload>>

    constructor (respond: Responder)
      ensures this.respond == respond && sent == []
    {
      this.respond := respond;
      sent := [];
    }

    /** `Client.Do`. */
    method Do(request: Outbound<Payload>) returns (up: Upstream)
      modifies this
      ensures up == respond(request) && sent == old(sent) + [request]
    {
      sent := sent + [request];
      up := respond(request);
    }
  }

  /** What a handler call depends on, read off the context and the client. */
  function EnvOf(ctx: Context, client: Client, decode: Decoder): Env {
    Env(ctx.request.authorization, client.respond, ctx.cancelAfter, decode)
  }

  /** `handleGet`: the upstream answer copied through, or an abort. */
  method HandleGet(ctx: Context, client: Client, url: string)
    modifies ctx, ctx.writer, client
    ensures var out := GetRequest(url, ctx.request.authorization);
      var x := Answer(out, client.respond(out), None, old(ctx.checks));
      && client.sent == old(client.sent) + x.sent
      && ctx.checks == x.checks
      && ctx.isAborted == (old(ctx.isAborted) || Aborts(x.ending))
      && ctx.writer.body == old(ctx.writer.body) + Written(x)
      && ctx.writer.committed == (old(ctx.writer.committed) || Commits(x))
      && ctx.writer.status == StatusAfter(old(ctx.writer.committed), old(ctx.writer.status), x)
      && ctx.writer.headers == HeadersAfter(old(ctx.writer.committed), old(ctx.writer.headers), x)
  {
    var headers := map[];
    headers := headers["User-Agent" := UserAgent];
    headers := headers["Authorization" := GetAccessToken(ctx.request.authorization)];
    headers := headers["Accept" := "text/event-stream"];
    var request := Outbound("GET", url, headers, NoBody);
    assert request == GetRequest(url, ctx.request.authorization);
    var up := client.Do(request);
    match up
    case TransportError(message) =>
      assert BodyAllowed(StatusInternalServerError);
      ctx.AbortWithStatusJSON(StatusInternalServerError, Object(ReturnMessage(message)));
    case Response(status, body) =>
      if status != StatusOK {
        ctx.AbortWithStatusJSON(status, Relayed(body));
      } else if body != "" {
        ctx.writer.Write(Text(body));
      }
  }

  /** `handlePatch` and `handlePostOrPatch`: the upstream answer copied through, or an abort with `errorMessage`. */
  method HandlePatch(ctx: Context, client: Client, url: string, patch: PatchRequest, errorMessage: string)
    modifies ctx, ctx.writer, client
    ensures var out := PatchRequestTo(url, patch, ctx.request.authorization);
      var x := Answer(out, client.respond(out), Some(errorMessage), old(ctx.checks));
      && client.sent == old(client.sent) + x.sent
      && ctx.checks == x.checks
      && ctx.isAborted == (old(ctx.isAborted) || Aborts(x.ending))
      && ctx.writer.body == old(ctx.writer.body) + Written(x)
      && ctx.writer.committed == (old(ctx.writer.committed) || Commits(x))
      && ctx.writer.status == StatusAfter(old(ctx.writer.committed), old(ctx.writer.status), x)
      && ctx.writer.headers == HeadersAfter(old(ctx.writer.committed), old(ctx.writer.headers), x)
  {
    var headers := map[];
    headers := headers["User-Agent" := UserAgent];
    headers := headers["Authorization" := GetAccessToken(ctx.request.authorization)];
    var request := Outbound("PATCH", url, headers, Patch(patch));
    assert request == PatchRequestTo(url, patch, ctx.request.authorization);
    var up := client.Do(request);
    match up
    case TransportError(message) =>
      assert BodyAllowed(StatusInternalServerError);
      ctx.AbortWithStatusJSON(StatusInternalServerError, Object(ReturnMessage(message)));
    case Response(status, body) =>
      if status != StatusOK {
        ctx.AbortWithStatusJSON(status, Object(ReturnMessage(errorMessage)));
      } else if body != "" {
        ctx.writer.Write(Text(body));
      }
  }

  /** `GetConversations`: one page of the conversation list. */
  method GetConversations(ctx: Context, client: Client)
    modifies ctx, ctx.writer, client
    ensures var x := List(ctx.request.queryParams, EnvOf(ctx, client, _ => None), old(ctx.checks));
      && client.sent == old(client.sent) + x.sent
      && ctx.checks == x.checks
      && ctx.isAborted == (old(ctx.isAborted) || Aborts(x.ending))
      && ctx.writer.body == old(ctx.writer.body) + Written(x)
      && ctx.writer.committed == (old(ctx.writer.committed) || Commits(x))
      && ctx.writer.status == StatusAfter(old(ctx.writer.committed), old(ctx.writer.status), x)
      && ctx.writer.headers == HeadersAfter(old(ctx.writer.committed), old(ctx.writer.headers), x)
  {
    var offset := "0";
    if "offset" in ctx.request.queryParams {
      offset := ctx.request.queryParams["offset"];
    }
    var limit := "20";
    if "limit" in ctx.request.queryParams {
      limit := ctx.request.queryParams["limit"];
    }
    HandleGet(ctx, client, ApiPrefix + "/conversations?offset=" + offset + "&limit=" + limit);
  }

  /** `UpdateConversation` of conversation `id`; `bind` parses the client's JSON body. */
  method UpdateConversation(ctx: Context, client: Client, id: string, bind: string -> Option<PatchRequest>)
    modifies ctx, ctx.writer, client
    ensures var x := Update(id, ctx.request.body, bind, EnvOf(ctx, client, _ => None), old(ctx.checks));
      && client.sent == old(client.sent) + x.sent
      && ctx.checks == x.checks
      && ctx.isAborted == (old(ctx.isAborted) || Aborts(x.ending))
      && ctx.writer.body == old(ctx.writer.body) + Written(x)
      && ctx.writer.committed == (old(ctx.writer.committed) || Commits(x))
      && ctx.writer.status == StatusAfter(old(ctx.writer.committed), old(ctx.writer.status), x)
      && ctx.writer.headers == HeadersAfter(old(ctx.writer.committed), old(ctx.writer.headers), x)
  {
    var parsed := ctx.BindJSON(bind);
    if parsed.None? {
      ctx.AbortWithStatusJSON(StatusBadRequest, Object(ReturnMessage(ParseJsonErrorMessage)));
      return;
    }
    var request := parsed.value;
    if request.title.Some? {
      request := request.(isVisible := true);
    }
    HandlePatch(ctx, client, ApiPrefix + "/conversation/" + id, request, UpdateConversationErrorMessage);
  }

  /** `ClearConversations`: hides every conversation. */
  method ClearConversations(ctx: Context, client: Client)
    modifies ctx, ctx.writer, client
    ensures var x := Clear(EnvOf(ctx, client, _ => None), old(ctx.checks));
      && client.sent == old(client.sent) + x.sent
      && ctx.checks == x.checks
      && ctx.isAborted == (old(ctx.isAborted) || Aborts(x.ending))
      && ctx.writer.body == old(ctx.writer.body) + Written(x)
      && ctx.writer.committed == (old(ctx.writer.committed) || Commits(x))
      && ctx.writer.status == StatusAfter(old(ctx.writer.committed), old(ctx.writer.status), x)
      && ctx.writer.headers == HeadersAfter(old(ctx.writer.committed), old(ctx.writer.headers), x)
  {
    HandlePatch(ctx, client, ApiPrefix + "/conversations", PatchRequest(None, false), ClearConversationsErrorMessage);
  }

  /**
   * `sendConversationRequest`: posts the request; a 200 answer's body is
   * handed back, and anything else ends the call as `Send` says.
   */
  method SendConversationRequest(ctx: Context, client: Client, request: ConversationRequest, ghost decode: Decoder)
    returns (body: string, done: bool)
    modifies ctx, ctx.writer, client
    ensures var out := Outgoing(request, ctx.request.authorization);
      var up := client.respond(out);
      && done == !IsOk(up)
      && (!done ==> body == up.body && client.sent == old(client.sent) + [out] && unchanged(ctx, ctx.writer))
    ensures done ==>
      var x := Send(request, EnvOf(ctx, client, decode), old(ctx.checks));
      && client.sent == old(client.sent) + x.sent
      && ctx.checks == x.checks
      && ctx.isAborted == (old(ctx.isAborted) || Aborts(x.ending))
      && ctx.writer.body == old(ctx.writer.body) + Written(x)
      && ctx.writer.committed == (old(ctx.writer.committed) || Commits(x))
      && ctx.writer.status == StatusAfter(old(ctx.writer.committed), old(ctx.writer.status), x)
      && ctx.writer.headers == HeadersAfter(old(ctx.writer.committed), old(ctx.writer.headers), x)
  {
    var headers := map[];
    headers := headers["User-Agent" := UserAgent];
    headers := headers["Authorization" := GetAccessToken(ctx.request.authorization)];
    headers := headers["Accept" := "text/event-stream"];
    var out := Outbound("POST", ChatGPTApiUrlPrefix + "/backend-api/conversation", headers, Chat(request));
    assert out == Outgoing(request, ctx.request.authorization);
    var up := client.Do(out);
    match up
    case TransportError(message) =>
      assert BodyAllowed(StatusInternalServerError);
      ctx.AbortWithStatusJSON(StatusInternalServerError, Object(ReturnMessage(message)));
      body, done := "", true;
    case Response(status, answer) =>
      if status != StatusOK {
        ctx.AbortWithStatusJSON(status, Relayed(answer));
        body, done := "", true;
      } else {
        body, done := answer, false;
      }
  }

  /**
   * The response after pass `q` of the read loop over a response that was
   * `before`: the frames of `q` follow the body, the first frame commits the
   * response, and a panic commits it too, with status 500 when nothing had
   * been sent yet.
   */
  function AfterPass(before: Reply, q: Pass): Reply {
    Reply(if q.panicked && !before.committed && q.frames == [] then StatusInternalServerError else before.status,
          before.committed || q.frames != [] || q.panicked,
          before.headers,
          before.body + Texts(q.frames))
  }

  /**
   * What the read loop keeps: the unread text holds the lines after the
   * first `k` of the `lines` of the answer, `p` is the pass over those `k`
   * lines and the locals hold its state, the context has been asked
   * `checks` times, the whole run is the rest of the run from `p`, and the
   * response is the one `before` the loop with the frames of `p` added.
   */
  ghost predicate Reading(ctx: Context, reader: Reader, autoContinue: bool, decode: Decoder,
                          lines: seq<string>, c0: nat, before: Reply, aborted: bool,
                          k: nat, checks: nat, p: Pass,
                          isMaxTokens: bool, continueParentMessageId: string, continueConversationId: string)
    reads ctx, ctx.writer, reader
  {
    && k <= |lines| && CompleteLines(reader.unread) == lines[k..]
    && !p.panicked && p.state == RelayState(isMaxTokens, continueParentMessageId, continueConversationId)
    && Drive(lines, c0, ctx.cancelAfter, autoContinue, decode, Fresh) ==
       Drive(lines[k..], checks, ctx.cancelAfter, autoContinue, decode, p)
    && ctx.checks == checks && ctx.isAborted == aborted
    && ctx.writer.State() == AfterPass(before, p)
  }

  /**
   * The read loop is over: the locals, the checks made, the abort flag and
   * the response are those of the run over all `lines`, from `c0` checks,
   * of a response that was `before` and a context whose abort flag was
   * `aborted`.
   */
  ghost predicate ReadDone(ctx: Context, autoContinue: bool, decode: Decoder,
                          lines: seq<string>, c0: nat, before: Reply, aborted: bool,
                          isMaxTokens: bool, continueParentMessageId: string, continueConversationId: string,
                          panicked: bool)
    reads ctx, ctx.writer
  {
    var run := Drive(lines, c0, ctx.cancelAfter, autoContinue, decode, Fresh);
    && panicked == run.pass.panicked
    && RelayState(isMaxTokens, continueParentMessageId, continueConversationId) == run.pass.state
    && ctx.checks == run.checks
    && ctx.isAborted == (aborted || panicked)
    && ctx.writer.State() == AfterPass(before, run.pass)
  }

  /**
   * The read loop of `handleConversationResponse`: reads the answer line by
   * line until the context is cancelled or no line is left, forwarding the
   * lines `Drive` forwards and keeping the continuation state in the three
   * locals, returned here. A line too short for `line[6:]` panics; the panic
   * unwinds to gin's Recovery, with nothing else run on the way.
   */
  method RelayLines(ctx: Context, reader: Reader, autoContinue: bool, decode: Decoder)
    returns (isMaxTokens: bool, continueParentMessageId: string, continueConversationId: string, panicked: bool)
    modifies ctx, ctx.writer, reader
    ensures ReadDone(ctx, autoContinue, decode, CompleteLines(old(reader.unread)), old(ctx.checks),
                    old(ctx.writer.State()), old(ctx.isAborted),
                    isMaxTokens, continueParentMessageId, continueConversationId, panicked)
  {
    isMaxTokens, continueParentMessageId, continueConversationId, panicked := false, "", "", false;

    ghost var lines := CompleteLines(reader.unread);
    ghost var c0 := ctx.checks;
    ghost var before := ctx.writer.State();
    ghost var aborted := ctx.isAborted;
    ghost var p := Fresh;
    ghost var k, checks := 0, c0;
    assert lines[k..] == lines;
    while true
      invariant Reading(ctx, reader, autoContinue, decode, lines, c0, before, aborted, k, checks, p,
                        isMaxTokens, continueParentMessageId, continueConversationId)
      decreases |lines| - k
    {
      var stop;
      ghost var q;
      stop, isMaxTokens, continueParentMessageId, continueConversationId, panicked, q :=
        NextLine(ctx, reader, autoContinue, decode, lines, c0, before, aborted, k, checks, p,
                 isMaxTokens, continueParentMessageId, continueConversationId);
      if stop {
        return;
      }
      p, k, checks := q, k + 1, checks + 1;
    }
  }

  /**
   * One turn of the read loop: asks whether the context is cancelled, reads
   * the next line and handles it. The loop stops (`stop`) at a cancelled
   * context, at the end of the answer or at a panic, and is then over;
   * otherwise it goes on with `q`, the pass after this turn.
   */
  method NextLine(ctx: Context, reader: Reader, autoContinue: bool, decode: Decoder,
                  ghost lines: seq<string>, ghost c0: nat, ghost before: Reply, ghost aborted: bool,
                  ghost k: nat, ghost checks: nat, ghost p: Pass,
                  isMaxTokens: bool, continueParentMessageId: string, continueConversationId: string)
    returns (stop: bool, nextMaxTokens: bool, nextParentMessageId: string, nextConversationId: string,
             panicked: bool, ghost q: Pass)
    requires Reading(ctx, reader, autoContinue, decode, lines, c0, before, aborted, k, checks, p,
                     isMaxTokens, continueParentMessageId, continueConversationId)
    modifies ctx, ctx.writer, reader
    ensures stop ==> ReadDone(ctx, autoContinue, decode, lines, c0, before, aborted,
                             nextMaxTokens, nextParentMessageId, nextConversationId, panicked)
    ensures !stop ==> k < |lines| && Reading(ctx, reader, autoContinue, decode, lines, c0, before, aborted, k + 1, checks + 1, q,
                                             nextMaxTokens, nextParentMessageId, nextConversationId)
  {
    nextMaxTokens, nextParentMessageId, nextConversationId, panicked, q :=
      isMaxTokens, continueParentMessageId, continueConversationId, false, p;
    var cancelled := ctx.Err();
    if cancelled {
      DriveStops(lines, k, checks, ctx.cancelAfter, autoContinue, decode, p);
      return true, nextMaxTokens, nextParentMessageId, nextConversationId, panicked, q;
    }
    var line, ok := reader.ReadString();
    if !ok {
      assert lines[k..] == [];
      DriveStops(lines, k, checks, ctx.cancelAfter, autoContinue, decode, p);
      return true, nextMaxTokens, nextParentMessageId, nextConversationId, panicked, q;
    }
    NextOfSuffix(lines, k);
    DriveTurn(lines, k, checks, ctx.cancelAfter, autoContinue, decode, p);
    q := Step(p, line, autoContinue, decode);
    nextMaxTokens, nextParentMessageId, nextConversationId, panicked :=
      HandleLine(ctx, line, autoContinue, decode, p, before,
                 isMaxTokens, continueParentMessageId, continueConversationId);
    stop := panicked;
  }

  /**
   * The body of the read loop for one line read: noise and a hidden
   * terminator are skipped, a line too short for `line[6:]` panics (and the
   * panic unwinds to gin's Recovery), and any other line is forwarded as an
   * event-stream frame and flushed, its payload updating the continuation
   * state. `p` is the pass so far, and the response is what it was
   * `before` the loop with the frames of `p` added.
   */
  method HandleLine(ctx: Context, raw: string, autoContinue: bool, decode: Decoder,
                    ghost p: Pass, ghost before: Reply,
                    isMaxTokens: bool, continueParentMessageId: string, continueConversationId: string)
    returns (nextMaxTokens: bool, nextParentMessageId: string, nextConversationId: string, panicked: bool)
    requires !p.panicked && p.state == RelayState(isMaxTokens, continueParentMessageId, continueConversationId)
    requires ctx.writer.State() == AfterPass(before, p)
    modifies ctx, ctx.writer
    ensures var q := Step(p, raw, autoContinue, decode);
      && panicked == q.panicked
      && q.state == RelayState(nextMaxTokens, nextParentMessageId, nextConversationId)
      && ctx.checks == old(ctx.checks)
      && ctx.isAborted == (old(ctx.isAborted) || panicked)
      && ctx.writer.State() == AfterPass(before, q)
  {
    nextMaxTokens, nextParentMessageId, nextConversationId, panicked :=
      isMaxTokens, continueParentMessageId, continueConversationId, false;
    var line := TrimSpace(raw);
    if HasPrefix(line, "event") || HasPrefix(line, "data: 20") || line == "" {
      StepNoise(p, raw, autoContinue, decode);
      return;
    }
    if |line| < 6 {
      // `line[6:]` panics; the panic unwinds to gin's Recovery
      StepShort(p, raw, autoContinue, decode);
      ctx.Recover();
      panicked := true;
      return;
    }
    var responseJson := line[6..];
    if HasPrefix(responseJson, DonePrefix) && isMaxTokens && autoContinue {
      StepSuppressed(p, raw, autoContinue, decode);
      return;
    }
    StepForward(p, raw, autoContinue, decode);
    nextMaxTokens, nextParentMessageId, nextConversationId :=
      ObserveResponse(responseJson, decode, isMaxTokens, continueParentMessageId, continueConversationId);
    WriteFrame(ctx.writer, line, before.body, p.frames);
  }

  /**
   * The check on a forwarded payload: an answer cut short at the token limit
   * records its message and conversation for the continuation.
   */
  method ObserveResponse(responseJson: string, decode: Decoder,
                         isMaxTokens: bool, continueParentMessageId: string, continueConversationId: string)
    returns (nextMaxTokens: bool, nextParentMessageId: string, nextConversationId: string)
    ensures RelayState(nextMaxTokens, nextParentMessageId, nextConversationId) ==
            Observe(RelayState(isMaxTokens, continueParentMessageId, continueConversationId), responseJson, decode)
  {
    nextMaxTokens, nextParentMessageId, nextConversationId := isMaxTokens, continueParentMessageId, continueConversationId;
    if TrimSpace(responseJson) != "" && Contains(responseJson, ResponseTypeMaxTokens) {
      var response := Decoded(decode, responseJson);
      if response.finishType == ResponseTypeMaxTokens && response.status == ResponseStatusFinishedSuccessfully {
        nextMaxTokens := true;
        nextParentMessageId := response.id;
        nextConversationId := response.conversationId;
      }
    }
  }

  /** `c.Writer.Write` of the line as a frame, then `c.Writer.Flush`. */
  method WriteFrame(writer: ResponseWriter, line: string, ghost body0: seq<Chunk>, ghost frames: seq<string>)
    requires writer.body == body0 + Texts(frames)
    modifies writer
    ensures writer.body == body0 + Texts(frames + [Frame(line)])
    ensures writer.committed && writer.status == old(writer.status) && writer.headers == old(writer.headers)
  {
    assert Texts(frames + [Frame(line)]) == Texts(frames) + [Text(Frame(line))] by {
      TextsAppend(frames, [Frame(line)]);
    }
    AppendAssoc(body0, Texts(frames), [Text(Frame(line))]);
    writer.Write(Text(Frame(line)));
    writer.Flush();
  }

  /**
   * `handleConversationResponse`: labels the response as an event stream,
   * relays the answer as `RelayLines` does, and sends the continuation
   * request when an answer was cut short and the client asked for it.
   */
  method HandleConversationResponse(ctx: Context, client: Client, reader: Reader, request: ConversationRequest, decode: Decoder)
    modifies ctx, ctx.writer, client, reader
    decreases Depth(request), 0
    ensures var x := Handle(request, old(reader.unread), EnvOf(ctx, client, decode), old(ctx.checks));
      && client.sent == old(client.sent) + x.sent
      && ctx.checks == x.checks
      && ctx.isAborted == (old(ctx.isAborted) || Aborts(x.ending))
      && ctx.writer.body == old(ctx.writer.body) + Written(x)
      && ctx.writer.committed == (old(ctx.writer.committed) || Commits(x))
      && ctx.writer.status == StatusAfter(old(ctx.writer.committed), old(ctx.writer.status), x)
      && ctx.writer.headers == HeadersAfter(old(ctx.writer.committed), old(ctx.writer.headers), x)
  {
    ctx.writer.SetHeader("Content-Type", EventStreamContentType);
    ghost var c0 := ctx.checks;
    ghost var env := EnvOf(ctx, client, decode);
    ghost var run := Drive(CompleteLines(reader.unread), c0, ctx.cancelAfter, request.autoContinue, decode, Fresh);
    ghost var x := Handle(request, old(reader.unread), env, c0);
    var isMaxTokens, continueParentMessageId, continueConversationId, panicked :=
      RelayLines(ctx, reader, request.autoContinue, decode);
    if panicked {
      assert x == Exchange([], true, run.pass.frames, Panicked, run.checks);
      assert Written(x) == Texts(run.pass.frames);
      return;
    }

    if !(isMaxTokens && request.autoContinue) {
      assert x == Exchange([], true, run.pass.frames, Completed, run.checks);
      assert Written(x) == Texts(run.pass.frames);
    } else {
      var continueRequest := ConversationRequest(
        ActionContinue, [], request.model, continueParentMessageId, Some(continueConversationId), false,
        request.arkoseToken, request.historyAndTrainingDisabled, request.timezoneOffsetMin);
      assert continueRequest == ContinueRequest(request, run.pass.state);
      ghost var y := Send(continueRequest, env, run.checks);
      assert x == Exchange(y.sent, true, run.pass.frames + y.frames, y.ending, y.checks);
      ContinuationEffects(old(ctx.writer.committed), old(ctx.writer.status), old(ctx.writer.headers), run.pass.frames, y);
      AppendAssoc(old(ctx.writer.body), Texts(run.pass.frames), Written(y));
      Converse(ctx, client, continueRequest, decode);
    }
  }

  /**
   * The first half of `CreateConversation`: binds and normalises the
   * client's request and fetches an Arkose token for the gpt-4 family
   * (`arkose` is what that fetch gives). A request that is not ready ends
   * the call as `Create` says, whatever the upstream (`env`) would answer.
   */
  method PrepareConversation(ctx: Context, bind: string -> Option<ConversationRequest>,
                             others: set<string>, arkose: TokenFetch, ghost env: Env)
    returns (ready: Option<ConversationRequest>)
    modifies ctx, ctx.writer
    ensures var prepared := Prepare(ctx.request.body, bind, others, arkose);
      && ready.Some? == prepared.Ready?
      && (ready.Some? ==> ready.value == prepared.request && unchanged(ctx, ctx.writer))
    ensures ready.None? ==>
      var x := Create(ctx.request.body, bind, others, arkose, env, old(ctx.checks));
      && x.sent == []
      && ctx.checks == x.checks
      && ctx.isAborted == (old(ctx.isAborted) || Aborts(x.ending))
      && ctx.writer.body == old(ctx.writer.body) + Written(x)
      && ctx.writer.committed == (old(ctx.writer.committed) || Commits(x))
      && ctx.writer.status == StatusAfter(old(ctx.writer.committed), old(ctx.writer.status), x)
      && ctx.writer.headers == HeadersAfter(old(ctx.writer.committed), old(ctx.writer.headers), x)
  {
    ghost var x := Create(ctx.request.body, bind, others, arkose, env, ctx.checks);
    var parsed := ctx.BindJSON(bind);
    if parsed.None? {
      assert x == Exchange([], false, [], BindAborted(Object(ReturnMessage(ParseJsonErrorMessage))), ctx.checks);
      ctx.AbortWithStatusJSON(StatusBadRequest, Object(ReturnMessage(ParseJsonErrorMessage)));
      return None;
    }
    var request := parsed.value;

    if request.conversationId.None? || request.conversationId.value == "" {
      request := request.(conversationId := None);
    }

    if request.messages == [] {
      // `Messages[0]` panics; the panic unwinds to gin's Recovery
      assert x == Exchange([], false, [], Panicked, ctx.checks);
      ctx.Recover();
      return None;
    }
    if request.messages[0].role == "" {
      request := request.(messages := request.messages[0 := request.messages[0].(role := DefaultRole)]);
    }
    assert Normalised(parsed.value) == Some(request);

    if request.model == Gpt4Model || request.model in others {
      match arkose
      case FetchFailed(message) =>
        assert BodyAllowed(StatusInternalServerError);
        assert x == Exchange([], false, [], Aborted(StatusInternalServerError, Object(ReturnMessage(message))), ctx.checks);
        ctx.AbortWithStatusJSON(StatusInternalServerError, Object(ReturnMessage(message)));
        return None;
      case Fetched(fields) =>
        request := request.(arkoseToken := ArkoseToken(fields));
    }
    ready := Some(request);
  }

  /**
   * `CreateConversation`: prepares the client's request, then sends it and
   * relays its answer.
   */
  method CreateConversation(ctx: Context, client: Client, bind: string -> Option<ConversationRequest>,
                            others: set<string>, arkose: TokenFetch, decode: Decoder)
    modifies ctx, ctx.writer, client
    ensures var x := Create(ctx.request.body, bind, others, arkose, EnvOf(ctx, client, decode), old(ctx.checks));
      && client.sent == old(client.sent) + x.sent
      && ctx.checks == x.checks
      && ctx.isAborted == (old(ctx.isAborted) || Aborts(x.ending))
      && ctx.writer.body == old(ctx.writer.body) + Written(x)
      && ctx.writer.committed == (old(ctx.writer.committed) || Commits(x))
      && ctx.writer.status == StatusAfter(old(ctx.writer.committed), old(ctx.writer.status), x)
      && ctx.writer.headers == HeadersAfter(old(ctx.writer.committed), old(ctx.writer.headers), x)
  {
    ghost var env := EnvOf(ctx, client, decode);
    var ready := PrepareConversation(ctx, bind, others, arkose, env);
    if ready.None? {
      return;
    }
    var request := ready.value;
    assert Create(ctx.request.body, bind, others, arkose, env, old(ctx.checks)) == Send(request, env, old(ctx.checks));
    Converse(ctx, client, request, decode);
  }

  /**
   * `sendConversationRequest` followed, on a 200, by
   * `handleConversationResponse` on the answer's body: the call both
   * `CreateConversation` and a continuation make, with the effects `Send`
   * gives.
   */
  method Converse(ctx: Context, client: Client, request: ConversationRequest, decode: Decoder)
    modifies ctx, ctx.writer, client
    decreases Depth(request), 1
    ensures var x := Send(request, EnvOf(ctx, client, decode), old(ctx.checks));
      && client.sent == old(client.sent) + x.sent
      && ctx.checks == x.checks
      && ctx.isAborted == (old(ctx.isAborted) || Aborts(x.ending))
      && ctx.writer.body == old(ctx.writer.body) + Written(x)
      && ctx.writer.committed == (old(ctx.writer.committed) || Commits(x))
      && ctx.writer.status == StatusAfter(old(ctx.writer.committed), old(ctx.writer.status), x)
      && ctx.writer.headers == HeadersAfter(old(ctx.writer.committed), old(ctx.writer.headers), x)
  {
    var body, done := SendConversationRequest(ctx, client, request, decode);
    if done {
      return;
    }
    ghost var env := EnvOf(ctx, client, decode);
    ghost var out := Outgoing(request, ctx.request.authorization);
    ghost var h := Handle(request, body, env, old(ctx.checks));
    assert Send(request, env, old(ctx.checks)) == Exchange([out] + h.sent, true, h.frames, h.ending, h.checks);
    var reader := new Reader(body);
    HandleConversationResponse(ctx, client, reader, request, decode);
    AppendAssoc(old(client.sent), [out], h.sent);
  }
}
