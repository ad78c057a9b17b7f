/**
 * The ChatGPT backend handlers (package `chatgpt`) as values: the requests
 * they send upstream, the rules that normalise a client's request, and what
 * one call of a handler amounts to, from the first upstream request to the
 * last frame written, including the single automatic "continue" request that
 * follows an answer cut short at the token limit.
 */
module Conversation {
  import opened Wrappers
  import opened Text
  import opened Gin
  import opened LineReader
  import opened EventStream
  import opened Relay
  import opened Common

  const ApiPrefix := "https://chat.openai.com/backend-api"
  const DefaultRole := "user"
  const Gpt4Model := "gpt-4"
  const ActionContinue := "continue"
  const GetConversationsErrorMessage := "Failed to get conversations."
  const UpdateConversationErrorMessage := "Failed to update conversation."
  const ClearConversationsErrorMessage := "Failed to clear conversations."
  const ParseJsonErrorMessage := "Failed to parse json request body."
  const ConversationUrl := ChatGPTApiUrlPrefix + "/backend-api/conversation"

  /** One message of a conversation request: its author's role and the rest of it. */
  datatype Message = Message(role: string, content: string)

  /** `CreateConversationRequest`; `conversationId` is None where Go has nil. */
  datatype ConversationRequest = ConversationRequest(
    action: string,
    messages: seq<Message>,
    model: string,
    parentMessageId: string,
    conversationId: Option<string>,
    autoContinue: bool,
    arkoseToken: string,
    historyAndTrainingDisabled: bool,
    timezoneOffsetMin: int)

  /** `PatchConversationRequest`; `title` is None where Go has nil. */
  datatype PatchRequest = PatchRequest(title: Option<string>, isVisible: bool)

  /** What a request to the ChatGPT backend carries: nothing, a conversation request, or a patch. */
  datatype Payload = NoBody | Chat(request: ConversationRequest) | Patch(patch: PatchRequest)

  /** The ChatGPT backend as `Client.Do` reaches it: an answer for each request. */
  type Responder = Outbound<Payload> -> Upstream

  /**
   * What a handler call depends on besides its input: the caller's
   * Authorization header, the backend, when the request context is cancelled,
   * and how stream payloads decode.
   */
  datatype Env = Env(authorization: string, respond: Responder, cancelAfter: Option<nat>, decode: Decoder)

  // Normalising a new conversation request

  /**
   * `CreateConversation`'s changes to the client's request: an absent or
   * empty conversation id is sent as null, and an empty role on the first
   * message becomes "user". None when there is no first message: indexing
   * it panics.
   */
  function Normalised(r: ConversationRequest): (n: Option<ConversationRequest>)
    ensures n.None? <==> r.messages == []
    ensures n.Some? ==> |n.value.messages| == |r.messages| && n.value.conversationId != Some("") && n.value.messages[0].role != ""
    ensures n.Some? && (r.conversationId.None? || r.conversationId == Some("")) ==> n.value.conversationId.None?
    ensures n.Some? && r.messages[0].role == "" ==> n.value.messages[0].role == DefaultRole
  {
    if r.messages == [] then None
    else
      var id := if r.conversationId.Some? && r.conversationId.value != "" then r.conversationId else None;
      var messages := if r.messages[0].role == "" then r.messages[0 := r.messages[0].(role := DefaultRole)] else r.messages;
      Some(r.(conversationId := id, messages := messages))
  }

  /**
   * Normalising changes nothing else: the same messages with the same
   * contents, later roles untouched, a non-empty id or role kept as it was,
   * and every other field as the client sent it.
   */
  lemma NormalisedKeeps(r: ConversationRequest)
    requires r.messages != []
    ensures var n := Normalised(r).value;
      && |n.messages| == |r.messages|
      && (forall k :: 0 <= k < |r.messages| ==> n.messages[k].content == r.messages[k].content)
      && n.messages[1..] == r.messages[1..]
      && (r.messages[0].role != "" ==> n.messages[0].role == r.messages[0].role)
      && (r.conversationId.Some? && r.conversationId.value != "" ==> n.conversationId == r.conversationId)
      && n.(conversationId := r.conversationId, messages := r.messages) == r
  {
    var n := Normalised(r).value;
    assert n.messages[1..] == r.messages[1..];
  }

  /** A normalised request is left alone by a second normalisation. */
  lemma NormalisedIdempotent(r: ConversationRequest)
    requires r.messages != []
    ensures Normalised(Normalised(r).value) == Normalised(r)
  {
  }

  /** The gpt-4 family, whose requests need an Arkose token first; `others` are its other members. */
  predicate NeedsArkoseToken(model: string, others: set<string>) {
    model == Gpt4Model || model in others
  }

  /** What fetching an Arkose token gives: a transport error, or the decoded answer's fields. */
  datatype TokenFetch = FetchFailed(error: string) | Fetched(fields: map<string, string>)

  /** The token the answer holds, or "" when it has none. */
  function ArkoseToken(fields: map<string, string>): (token: string)
    ensures "token" in fields ==> token == fields["token"]
    ensures "token" !in fields ==> token == ""
  {
    if "token" in fields then fields["token"] else ""
  }

  /**
   * How `CreateConversation` gets ready to send: a body that does not bind
   * (gin has already answered 400, and `value` is the JSON body the handler
   * adds), rejected with a status, crashed, or with the request to send.
   */
  datatype Prepared = Unbound(value: Json) | Rejected(status: int, value: Json) | Crashed | Ready(request: ConversationRequest)

  /**
   * Binding the client's JSON body (`bind`, None when it does not parse),
   * normalising it, and for the gpt-4 family adding the Arkose token.
   */
  function Prepare(body: string, bind: string -> Option<ConversationRequest>, others: set<string>, arkose: TokenFetch): (p: Prepared)
    ensures bind(body).None? ==> p == Unbound(Object(ReturnMessage(ParseJsonErrorMessage)))
    ensures p.Crashed? <==> bind(body).Some? && bind(body).value.messages == []
    ensures p.Ready? ==> Some(p.request.(arkoseToken := bind(body).value.arkoseToken)) == Normalised(bind(body).value)
    ensures p.Ready? && NeedsArkoseToken(p.request.model, others) ==> arkose.Fetched? && p.request.arkoseToken == ArkoseToken(arkose.fields)
    ensures p.Ready? && !NeedsArkoseToken(p.request.model, others) ==> Some(p.request) == Normalised(bind(body).value)
    ensures bind(body).Some? && bind(body).value.messages != [] ==>
      if NeedsArkoseToken(bind(body).value.model, others) && arkose.FetchFailed?
      then p == Rejected(StatusInternalServerError, Object(ReturnMessage(arkose.error)))
      else p.Ready?
  {
    match bind(body)
    case None => Unbound(Object(ReturnMessage(ParseJsonErrorMessage)))
    case Some(r) =>
      match Normalised(r)
      case None => Crashed
      case Some(n) =>
        if !NeedsArkoseToken(n.model, others) then Ready(n)
        else
          match arkose
          case FetchFailed(e) => Rejected(StatusInternalServerError, Object(ReturnMessage(e)))
          case Fetched(fields) => Ready(n.(arkoseToken := ArkoseToken(fields)))
  }

  // Listing, renaming and hiding conversations

  /** The first value of a query key, or `default` when the key is absent. */
  function QueryValue(query: map<string, string>, key: string, default: string): string {
    if key in query then query[key] else default
  }

  /** The upstream URL of `GetConversations`: offset 0 and limit 20 unless the client gave others. */
  function ConversationsUrl(query: map<string, string>): (url: string)
    ensures "offset" !in query && "limit" !in query ==> url == ApiPrefix + "/conversations?offset=0&limit=20"
    ensures "offset" in query && "limit" in query ==>
      url == ApiPrefix + "/conversations?offset=" + query["offset"] + "&limit=" + query["limit"]
  {
    ApiPrefix + "/conversations?offset=" + QueryValue(query, "offset", "0") + "&limit=" + QueryValue(query, "limit", "20")
  }

  predicate NoAmpersand(s: string) {
    forall k :: 0 <= k < |s| ==> s[k] != '&'
  }

  /**
   * The URL keeps the page the client asked for: as long as the offset holds
   * no '&' (the values go out unescaped), different pages give different URLs.
   */
  lemma ConversationsUrlKeepsPage(q1: map<string, string>, q2: map<string, string>)
    requires NoAmpersand(QueryValue(q1, "offset", "0")) && NoAmpersand(QueryValue(q2, "offset", "0"))
    requires ConversationsUrl(q1) == ConversationsUrl(q2)
    ensures QueryValue(q1, "offset", "0") == QueryValue(q2, "offset", "0")
    ensures QueryValue(q1, "limit", "20") == QueryValue(q2, "limit", "20")
  {
    var p, amp, lim := ApiPrefix + "/conversations?offset=", "&", "limit=";
    var o1, l1 := QueryValue(q1, "offset", "0"), QueryValue(q1, "limit", "20");
    var o2, l2 := QueryValue(q2, "offset", "0"), QueryValue(q2, "limit", "20");
    assert "&limit=" == amp + lim;
    UrlShape(p, o1, amp, lim, l1);
    UrlShape(p, o2, amp, lim, l2);
    assert (p + (o1 + amp + (lim + l1)))[|p|..] == o1 + amp + (lim + l1);
    assert (p + (o2 + amp + (lim + l2)))[|p|..] == o2 + amp + (lim + l2);
    SplitAtAmpersand(o1, lim + l1, o2, lim + l2);
    assert l1 == (lim + l1)[|lim|..];
    assert l2 == (lim + l2)[|lim|..];
  }

  lemma UrlShape(p: string, o: string, amp: string, lim: string, l: string)
    ensures p + o + (amp + lim) + l == p + (o + amp + (lim + l))
  {
  }

  /** Text before the first '&' is recovered from the text with its '&' and what follows. */
  lemma SplitAtAmpersand(a: string, ra: string, b: string, rb: string)
    requires NoAmpersand(a) && NoAmpersand(b)
    requires a + "&" + ra == b + "&" + rb
    ensures a == b && ra == rb
  {
    var s := a + "&" + ra;
    FirstAmpersand(a, ra);
    FirstAmpersand(b, rb);
    assert |a| == |b|;
    assert a == s[..|a|] && b == s[..|b|];
    assert ra == s[|a| + 1..];
  }

  /** The first '&' of a text with no '&' followed by '&' is the one after it. */
  lemma FirstAmpersand(a: string, r: string)
    requires NoAmpersand(a)
    ensures (a + "&" + r)[|a|] == '&'
    ensures forall k :: 0 <= k < |a| ==> (a + "&" + r)[k] != '&'
  {
    assert forall k :: 0 <= k < |a| ==> (a + "&" + r)[k] == a[k];
  }

  /**
   * `UpdateConversation`'s rule: the visibility flag defaults to false,
   * which hides the conversation, so a patch that sets a title keeps it
   * visible.
   */
  function VisibilityRule(p: PatchRequest): (r: PatchRequest)
    ensures r.title == p.title
    ensures r.isVisible <==> p.title.Some? || p.isVisible
  {
    if p.title.Some? then p.(isVisible := true) else p
  }

  /** `ClearConversations` sends a patch that hides every conversation. */
  const HideAll := PatchRequest(None, false)

  /** A patch without a title is sent as the client wrote it; one with a title always keeps visibility. */
  lemma VisibilityRuleKeepsUntitled(p: PatchRequest)
    ensures p.title.None? ==> VisibilityRule(p) == p
    ensures p.title.Some? ==> VisibilityRule(p) == PatchRequest(p.title, true)
    ensures VisibilityRule(VisibilityRule(p)) == VisibilityRule(p)
  {
  }

  // Upstream requests

  /** The headers every ChatGPT backend request carries. */
  function BaseHeaders(authorization: string): map<string, string> {
    map["User-Agent" := UserAgent, "Authorization" := GetAccessToken(authorization)]
  }

  /** The request of `sendConversationRequest`. */
  function Outgoing(request: ConversationRequest, authorization: string): (r: Outbound<Payload>)
    ensures r.verb == "POST" && r.url == ConversationUrl && r.body == Chat(request)
    ensures r.headers.Keys == {"User-Agent", "Authorization", "Accept"}
    ensures r.headers["Authorization"] == GetAccessToken(authorization) && r.headers["Accept"] == "text/event-stream"
  {
    Outbound("POST", ConversationUrl, BaseHeaders(authorization)["Accept" := "text/event-stream"], Chat(request))
  }

  /** The request of `handleGet`. */
  function GetRequest(url: string, authorization: string): (r: Outbound<Payload>)
    ensures r.verb == "GET" && r.url == url && r.body == NoBody
    ensures r.headers.Keys == {"User-Agent", "Authorization", "Accept"}
    ensures r.headers["Authorization"] == GetAccessToken(authorization) && r.headers["Accept"] == "text/event-stream"
  {
    Outbound("GET", url, BaseHeaders(authorization)["Accept" := "text/event-stream"], NoBody)
  }

  /** The request of `handlePatch`. */
  function PatchRequestTo(url: string, patch: PatchRequest, authorization: string): (r: Outbound<Payload>)
    ensures r.verb == "PATCH" && r.url == url && r.body == Patch(patch)
    ensures r.headers.Keys == {"User-Agent", "Authorization"}
    ensures r.headers["Authorization"] == GetAccessToken(authorization)
  {
    Outbound("PATCH", url, BaseHeaders(authorization), Patch(patch))
  }

  /**
   * The follow-up request for an answer cut short: a "continue" action on
   * the recorded message and conversation, carrying over the token, model,
   * history setting and time zone; it sends no message and never asks for
   * continuation itself. An empty recorded conversation id is sent as "",
   * not as null.
   */
  function ContinueRequest(r: ConversationRequest, state: RelayState): (c: ConversationRequest)
    ensures !c.autoContinue && c.messages == []
  {
    ConversationRequest(ActionContinue, [], r.model, state.parentMessageId, Some(state.conversationId), false,
                        r.arkoseToken, r.historyAndTrainingDisabled, r.timezoneOffsetMin)
  }

  // What one handler call amounts to

  /**
   * How a handler call ends: normally, with the upstream body copied
   * through, aborted with a status and a JSON body, aborted after a failed
   * `BindJSON` has already sent a 400 status line and the headers (the
   * handler's JSON body follows), or in a panic that gin's Recovery turns
   * into a bare 500.
   */
  datatype Ending = Completed | Copied(body: string) | Aborted(status: int, value: Json) | BindAborted(value: Json) | Panicked

  /**
   * The requests sent, whether an event stream was relayed, the frames
   * written, the ending, and the cancellation checks made by the end.
   */
  datatype Exchange = Exchange(sent: seq<Outbound<Payload>>, streamed: bool, frames: seq<string>, ending: Ending, checks: nat)

  /** How many continuation requests a request may still lead to. */
  function Depth(r: ConversationRequest): nat {
    if r.autoContinue then 1 else 0
  }

  predicate IsOk(up: Upstream) {
    up.Response? && up.status == StatusOK
  }

  /**
   * How `sendConversationRequest` ends an answer it does not hand on: the
   * client gets the status and body `Proxy` would give for the same answer,
   * the upstream's own for a status other than 200 and a 500 with the error
   * message for a transport error.
   */
  function Refusal(up: Upstream): (e: Ending)
    requires !IsOk(up)
    ensures e.Aborted? && e.status == ProxyStatus(up)
    ensures Closing(e) == ProxyBody(up)
  {
    match up
    case TransportError(message) => Aborted(StatusInternalServerError, Object(ReturnMessage(message)))
    case Response(status, body) => Aborted(status, Relayed(body))
  }

  /**
   * `sendConversationRequest`, then `handleConversationResponse` when the
   * answer is a 200: at most one continuation follows the first request, and
   * only a 200 is relayed; any other answer ends the call with no frame.
   */
  function Send(request: ConversationRequest, env: Env, checks: nat): (x: Exchange)
    ensures 1 <= |x.sent| <= 1 + Depth(request) && x.sent[0] == Outgoing(request, env.authorization)
    ensures x.streamed <==> IsOk(env.respond(Outgoing(request, env.authorization)))
    ensures !x.streamed ==> x.frames == [] && x.ending.Aborted? && |x.sent| == 1 && x.checks == checks
    ensures x.checks >= checks
    decreases Depth(request), 1
  {
    var out := Outgoing(request, env.authorization);
    var up := env.respond(out);
    if !IsOk(up) then Exchange([out], false, [], Refusal(up), checks)
    else
      var h := Handle(request, up.body, env, checks);
      Exchange([out] + h.sent, true, h.frames, h.ending, h.checks)
  }

  /**
   * An answer other than a 200 ends the call after the one request: on a
   * response nothing had yet been sent on, the client gets the upstream
   * status and decoded body (500 and the error message for a transport
   * error), labelled as JSON.
   */
  lemma SendRefused(request: ConversationRequest, env: Env, checks: nat, status: int, headers: map<string, string>)
    requires !IsOk(env.respond(Outgoing(request, env.authorization)))
    ensures var up := env.respond(Outgoing(request, env.authorization));
      var x := Send(request, env, checks);
      && x.sent == [Outgoing(request, env.authorization)] && x.frames == [] && !x.streamed && x.checks == checks
      && (up.Response? ==> x.ending == Aborted(up.status, Relayed(up.body)))
      && (up.TransportError? ==> x.ending == Aborted(StatusInternalServerError, Object(ReturnMessage(up.message))))
      && StatusAfter(false, status, x) == ProxyStatus(up)
      && Written(x) == ProxyBody(up)
      && HeadersAfter(false, headers, x) == AbortHeaders(false, headers)
  {
    var up := env.respond(Outgoing(request, env.authorization));
    var x := Send(request, env, checks);
    SendOfRefusal(request, env, checks);
    AbortedEffects(x, status, headers);
  }

  /** `Send` on an answer other than a 200 is the one request and its refusal. */
  lemma SendOfRefusal(request: ConversationRequest, env: Env, checks: nat)
    requires !IsOk(env.respond(Outgoing(request, env.authorization)))
    ensures Send(request, env, checks) ==
      Exchange([Outgoing(request, env.authorization)], false, [], Refusal(env.respond(Outgoing(request, env.authorization))), checks)
  {
  }

  /** An exchange that streams nothing and ends in an abort leaves the client what the abort gives. */
  lemma AbortedEffects(x: Exchange, status: int, headers: map<string, string>)
    requires !x.streamed && x.frames == [] && x.ending.Aborted?
    ensures StatusAfter(false, status, x) == x.ending.status
    ensures Written(x) == Closing(x.ending)
    ensures HeadersAfter(false, headers, x) == AbortHeaders(false, headers)
  {
    assert Texts(x.frames) == [];
  }

  /**
   * `handleConversationResponse` on an answer body: the relay loop, then the
   * continuation request when an answer was cut short and the client asked
   * for continuation. A panic ends everything.
   */
  function Handle(request: ConversationRequest, body: string, env: Env, checks: nat): (x: Exchange)
    ensures x.streamed && x.checks > checks && |x.sent| <= Depth(request)
    ensures x.ending.Copied? == false
    decreases Depth(request), 0
  {
    var run := Drive(CompleteLines(body), checks, env.cancelAfter, request.autoContinue, env.decode, Fresh);
    if run.pass.panicked then Exchange([], true, run.pass.frames, Panicked, run.checks)
    else if run.pass.state.isMaxTokens && request.autoContinue then
      var next := Send(ContinueRequest(request, run.pass.state), env, run.checks);
      Exchange(next.sent, true, run.pass.frames + next.frames, next.ending, next.checks)
    else Exchange([], true, run.pass.frames, Completed, run.checks)
  }

  /**
   * `CreateConversation`: a rejected or crashed request sends nothing;
   * otherwise the prepared request is sent and its answer relayed.
   */
  function Create(body: string, bind: string -> Option<ConversationRequest>, others: set<string>, arkose: TokenFetch,
                  env: Env, checks: nat): (x: Exchange)
    ensures Prepare(body, bind, others, arkose).Ready? <==> x.sent != []
    ensures x.sent != [] ==> x.sent[0].body == Chat(Prepare(body, bind, others, arkose).request)
    ensures Prepare(body, bind, others, arkose).Crashed? ==> x.ending.Panicked? && x.frames == []
  {
    match Prepare(body, bind, others, arkose)
    case Unbound(value) => Exchange([], false, [], BindAborted(value), checks)
    case Rejected(status, value) => Exchange([], false, [], Aborted(status, value), checks)
    case Crashed => Exchange([], false, [], Panicked, checks)
    case Ready(request) => Send(request, env, checks)
  }

  /**
   * How `handleGet` (`errorMessage` None) and `handlePostOrPatch` end: a
   * transport error aborts with 500 and its message; another status than
   * 200 aborts with that status and the decoded upstream body or the
   * handler's own message; a 200 body is copied through.
   */
  function Answer(out: Outbound<Payload>, up: Upstream, errorMessage: Option<string>, checks: nat): (x: Exchange)
    ensures x.sent == [out] && x.frames == [] && !x.streamed && x.checks == checks
    ensures x.ending.Copied? <==> IsOk(up)
    ensures IsOk(up) ==> x.ending == Copied(up.body)
    ensures up.TransportError? ==> x.ending == Aborted(StatusInternalServerError, Object(ReturnMessage(up.message)))
    ensures up.Response? && up.status != StatusOK ==>
      x.ending == Aborted(up.status, if errorMessage.Some? then Object(ReturnMessage(errorMessage.value)) else Relayed(up.body))
  {
    var ending :=
      match up
      case TransportError(message) => Aborted(StatusInternalServerError, Object(ReturnMessage(message)))
      case Response(status, body) =>
        if status == StatusOK then Copied(body)
        else if errorMessage.Some? then Aborted(status, Object(ReturnMessage(errorMessage.value)))
        else Aborted(status, Relayed(body));
    Exchange([out], false, [], ending, checks)
  }

  /** `GetConversations`. */
  function List(query: map<string, string>, env: Env, checks: nat): (x: Exchange)
    ensures |x.sent| == 1 && x.sent[0].verb == "GET" && x.sent[0].url == ConversationsUrl(query)
    ensures x.ending.Copied? <==> IsOk(env.respond(x.sent[0]))
    ensures env.respond(x.sent[0]).Response? && !IsOk(env.respond(x.sent[0])) ==>
      x.ending == Aborted(env.respond(x.sent[0]).status, Relayed(env.respond(x.sent[0]).body))
  {
    var out := GetRequest(ConversationsUrl(query), env.authorization);
    Answer(out, env.respond(out), None, checks)
  }

  /** `UpdateConversation` for conversation `id`. */
  function Update(id: string, body: string, bind: string -> Option<PatchRequest>, env: Env, checks: nat): (x: Exchange)
    ensures bind(body).None? ==> x.sent == [] && x.ending == BindAborted(Object(ReturnMessage(ParseJsonErrorMessage)))
    ensures bind(body).Some? ==> |x.sent| == 1 && x.sent[0].verb == "PATCH" && x.sent[0].body == Patch(VisibilityRule(bind(body).value))
  {
    match bind(body)
    case None => Exchange([], false, [], BindAborted(Object(ReturnMessage(ParseJsonErrorMessage))), checks)
    case Some(p) =>
      var out := PatchRequestTo(ApiPrefix + "/conversation/" + id, VisibilityRule(p), env.authorization);
      Answer(out, env.respond(out), Some(UpdateConversationErrorMessage), checks)
  }

  /** `ClearConversations`. */
  function Clear(env: Env, checks: nat): (x: Exchange)
    ensures |x.sent| == 1 && x.sent[0].verb == "PATCH" && x.sent[0].url == ApiPrefix + "/conversations"
    ensures x.sent[0].body == Patch(PatchRequest(None, false))
    ensures env.respond(x.sent[0]).Response? && !IsOk(env.respond(x.sent[0])) ==>
      x.ending == Aborted(env.respond(x.sent[0]).status, Object(ReturnMessage(ClearConversationsErrorMessage)))
  {
    var out := PatchRequestTo(ApiPrefix + "/conversations", HideAll, env.authorization);
    Answer(out, env.respond(out), Some(ClearConversationsErrorMessage), checks)
  }

  // The client's response after an exchange

  /** What an ending adds to the body after the frames. */
  function Closing(e: Ending): seq<Chunk> {
    match e
    case Completed => []
    case Copied(body) => if body == "" then [] else [Text(body)]
    case Aborted(status, value) => if BodyAllowed(status) then [Encoded(value)] else []
    case BindAborted(value) => [Encoded(value)]
    case Panicked => []
  }

  /** The writes an exchange makes to the client's body. */
  function Written(x: Exchange): seq<Chunk> {
    Texts(x.frames) + Closing(x.ending)
  }

  /** Whether an exchange sends the status line. */
  predicate Commits(x: Exchange) {
    || x.frames != []
    || match x.ending
       case Completed => false
       case Copied(body) => body != ""
       case Aborted(_, _) => true
       case BindAborted(_) => true
       case Panicked => true
  }

  /** An exchange that ends in an abort or a panic aborts the context. */
  predicate Aborts(e: Ending) {
    e.Aborted? || e.BindAborted? || e.Panicked?
  }

  /**
   * The status the client gets: an abort or a panic sets it only when
   * nothing has been sent yet, and the first frame fixes it.
   */
  function StatusAfter(committed: bool, status: int, x: Exchange): int {
    if committed || x.frames != [] then status
    else
      match x.ending
      case Aborted(code, _) => code
      case BindAborted(_) => StatusBadRequest
      case Panicked => StatusInternalServerError
      case _ => status
  }

  /** The headers after the response is labelled as an event stream (before it is committed). */
  function StreamHeaders(committed: bool, headers: map<string, string>): map<string, string> {
    if committed then headers else headers["Content-Type" := EventStreamContentType]
  }

  /** The headers the client gets: an event stream label, or else a JSON label from an abort. */
  function HeadersAfter(committed: bool, headers: map<string, string>, x: Exchange): map<string, string> {
    if x.streamed then StreamHeaders(committed, headers)
    else if x.ending.Aborted? then AbortHeaders(committed, headers)
    else headers
  }

  /**
   * `handleGet` answers the client as `Proxy` does: on a response nothing
   * had yet been sent on, the client gets the body `Proxy` would give, and
   * for an answer other than a 200 also its status and a JSON label; a 200
   * leaves status and headers as they were.
   */
  lemma {:induction false} AnswerAsProxy(out: Outbound<Payload>, up: Upstream, checks: nat, status: int, headers: map<string, string>)
    ensures var x := Answer(out, up, None, checks);
      && Written(x) == ProxyBody(up)
      && (!IsOk(up) ==> StatusAfter(false, status, x) == ProxyStatus(up) && HeadersAfter(false, headers, x) == AbortHeaders(false, headers))
      && (IsOk(up) ==> StatusAfter(false, status, x) == status && HeadersAfter(false, headers, x) == headers)
  {
    var x := Answer(out, up, None, checks);
    assert x.frames == [] && Texts(x.frames) == [];
  }

  /**
   * `handlePostOrPatch` answers anything but a 200 with the handler's own
   * message, under the upstream status (500 for a transport error).
   */
  lemma {:induction false} AnswerWithMessage(out: Outbound<Payload>, up: Upstream, message: string, checks: nat, status: int, headers: map<string, string>)
    requires !IsOk(up)
    ensures var x := Answer(out, up, Some(message), checks);
      var value := if up.TransportError? then ReturnMessage(up.message) else ReturnMessage(message);
      && Written(x) == (if BodyAllowed(ProxyStatus(up)) then [Encoded(Object(value))] else [])
      && StatusAfter(false, status, x) == ProxyStatus(up)
      && HeadersAfter(false, headers, x) == AbortHeaders(false, headers)
  {
    var x := Answer(out, up, Some(message), checks);
    assert x.frames == [] && Texts(x.frames) == [];
  }

  /**
   * A body that does not bind: the 400 gin's `BindJSON` sent stands, the
   * handler's message is the whole body, and the headers are those that
   * went out with the 400, with no JSON label added.
   */
  lemma BindFailureEffects(body: string, bind: string -> Option<ConversationRequest>, others: set<string>, arkose: TokenFetch,
                           env: Env, checks: nat, status: int, headers: map<string, string>)
    requires bind(body).None?
    ensures var x := Create(body, bind, others, arkose, env, checks);
      && x.sent == [] && Commits(x) && Aborts(x.ending)
      && StatusAfter(false, status, x) == StatusBadRequest
      && Written(x) == [Encoded(Object(ReturnMessage(ParseJsonErrorMessage)))]
      && HeadersAfter(false, headers, x) == headers
  {
    var x := Create(body, bind, others, arkose, env, checks);
    assert x.frames == [] && Texts(x.frames) == [];
  }

  /**
   * A continuation after frames `f` of the first stream adds its own effects
   * to those of the first stream.
   */
  lemma ContinuationEffects(committed: bool, status: int, headers: map<string, string>, f: seq<string>, y: Exchange)
    requires y.streamed || y.ending.Aborted?
    ensures var z := Exchange(y.sent, true, f + y.frames, y.ending, y.checks);
      && Written(z) == Texts(f) + Written(y)
      && (Commits(z) <==> f != [] || Commits(y))
      && StatusAfter(committed, status, z) == StatusAfter(committed || f != [], status, y)
      && HeadersAfter(committed, headers, z) == HeadersAfter(committed || f != [], StreamHeaders(committed, headers), y)
  {
    var z := Exchange(y.sent, true, f + y.frames, y.ending, y.checks);
    TextsAppend(f, y.frames);
    AppendAssoc(Texts(f), Texts(y.frames), Closing(y.ending));
    if f == [] {
      assert f + y.frames == y.frames;
    }
    var h := StreamHeaders(committed, headers);
    if !committed && f == [] {
      assert h["Content-Type" := EventStreamContentType] == h;
    }
  }

  // Properties of the conversation exchange

  /**
   * The loop's verdict on a body: the relay over the lines read before
   * cancellation. The continuation is sent exactly when that relay did not
   * panic, saw a cut-short answer and the client asked for continuation; it
   * then carries the ids of the last line that signalled. Either way the
   * relay's frames come first.
   */
  lemma {:induction false} ContinuationIff(request: ConversationRequest, body: string, env: Env, checks: nat)
    ensures AllLines(CompleteLines(body))
    ensures var lines := CompleteLines(body);
      var n := Budget(|lines|, checks, env.cancelAfter);
      var r := Relay.Relay(lines[..n], request.autoContinue, env.decode);
      var signal := LastSignal(lines[..n], request.autoContinue, env.decode);
      var x := Handle(request, body, env, checks);
      && r.frames <= x.frames
      && (x.sent != [] <==> !r.panicked && request.autoContinue && signal.Some?)
      && (x.sent != [] ==> x.sent[0] == Outgoing(ContinueRequest(request, Recorded(lines[..n][signal.value], env.decode)), env.authorization))
      && (x.sent == [] ==> x.frames == r.frames && x.ending == if r.panicked then Panicked else Completed)
  {
    var lines := CompleteLines(body);
    var n := Budget(|lines|, checks, env.cancelAfter);
    CompleteLinesAreLines(body);
    assert Relay.Relay([], request.autoContinue, env.decode) == Fresh;
    DriveIsRelay([], lines, checks, env.cancelAfter, request.autoContinue, env.decode);
    assert [] + lines[..n] == lines[..n];
    AllLinesSlice(lines, 0, n);
    FlagIffSignal(lines[..n], request.autoContinue, env.decode);
    RelayStateIsLastSignal(lines[..n], request.autoContinue, env.decode);
  }

  /** A continuation request never leads to another: its stream is only relayed. */
  lemma ContinuationIsFinal(request: ConversationRequest, state: RelayState, body: string, env: Env, checks: nat)
    ensures var x := Handle(ContinueRequest(request, state), body, env, checks);
      && x.sent == []
      && x.frames == Drive(CompleteLines(body), checks, env.cancelAfter, false, env.decode, Fresh).pass.frames
  {
  }

  /**
   * Cancelling the request does not stop the continuation: a stream that
   * saw a cut-short answer and was then cancelled still sends the
   * continuation request, whose own stream, once accepted, relays nothing.
   */
  lemma CancelledStreamStillContinues(request: ConversationRequest, body: string, env: Env, checks: nat)
    requires request.autoContinue
    requires var run := Drive(CompleteLines(body), checks, env.cancelAfter, true, env.decode, Fresh);
      !run.pass.panicked && run.pass.state.isMaxTokens && Cancelled(env.cancelAfter, run.checks - 1)
    ensures var run := Drive(CompleteLines(body), checks, env.cancelAfter, true, env.decode, Fresh);
      var x := Handle(request, body, env, checks);
      && |x.sent| == 1
      && x.sent[0].body == Chat(ContinueRequest(request, run.pass.state))
      && x.frames == run.pass.frames
  {
    var run := Drive(CompleteLines(body), checks, env.cancelAfter, true, env.decode, Fresh);
    var c := ContinueRequest(request, run.pass.state);
    var next := Send(c, env, run.checks);
    var x := Handle(request, body, env, checks);
    assert x == Exchange(next.sent, true, run.pass.frames + next.frames, next.ending, next.checks);
    var out := Outgoing(c, env.authorization);
    var up := env.respond(out);
    if IsOk(up) {
      assert Cancelled(env.cancelAfter, run.checks);
      CancelledRelaysNothing(CompleteLines(up.body), run.checks, env.cancelAfter, false, env.decode);
      var h := Handle(c, up.body, env, run.checks);
      assert h.frames == [] && h.sent == [];
      assert next == Exchange([out] + h.sent, true, h.frames, h.ending, h.checks);
    }
    assert next.frames == [] && |next.sent| == 1;
    assert run.pass.frames + [] == run.pass.frames;
  }

  /**
   * Every frame of an exchange is a trimmed line of an event stream that is
   * not noise, followed by an empty line.
   */
  lemma {:induction false} SendFrames(request: ConversationRequest, env: Env, checks: nat)
    ensures AllFrames(Send(request, env, checks).frames)
    decreases Depth(request), 1
  {
    var up := env.respond(Outgoing(request, env.authorization));
    var x := Send(request, env, checks);
    if IsOk(up) {
      HandleFrames(request, up.body, env, checks);
      assert x.frames == Handle(request, up.body, env, checks).frames;
    }
  }

  lemma {:induction false} HandleFrames(request: ConversationRequest, body: string, env: Env, checks: nat)
    ensures AllFrames(Handle(request, body, env, checks).frames)
    decreases Depth(request), 0
  {
    var lines := CompleteLines(body);
    var run := Drive(lines, checks, env.cancelAfter, request.autoContinue, env.decode, Fresh);
    CompleteLinesAreLines(body);
    DriveFromFresh(lines, checks, env.cancelAfter, request.autoContinue, env.decode);
    var f := run.pass.frames;
    var x := Handle(request, body, env, checks);
    if !run.pass.panicked && run.pass.state.isMaxTokens && request.autoContinue {
      var c := ContinueRequest(request, run.pass.state);
      SendFrames(c, env, run.checks);
      var g := Send(c, env, run.checks).frames;
      assert x.frames == f + g;
      AllFramesAppend(f, g);
    } else {
      assert x.frames == f;
    }
  }
}
