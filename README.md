# go-chatgpt-api gateway core, modelled in Dafny

go-chatgpt-api is a gin HTTP gateway in front of two OpenAI services:
- the ChatGPT web backend, reached with a user's access token;
- the platform API, reached with an API key.

This project models the handlers that carry its logic:
- **ChatGPT backend** (package `chatgpt`):
  - listing, renaming, hiding and clearing conversations;
  - creating a conversation. The client's request is normalised, an Arkose token is fetched for the gpt-4 family, and the request is posted to `/backend-api/conversation`. The answer's server-sent-event stream is relayed line by line to the client. When an answer was cut short at the token limit and the client asked for it, one automatic "continue" request follows.
- **Platform** (package `platform`): a completion request goes to the chat-completions or the completions endpoint. A streamed answer passes through the same event-stream line filter; any other answer is copied.
- **Shared helpers** (package `api`):
  - the bearer-token rule;
  - the error body;
  - the catch-all `Proxy`. It rewrites a `/chatgpt` or `/platform` path onto the matching OpenAI host, appends the query and hands the upstream status and body back.

## How the model is laid out

| module | file | what it holds |
|---|---|---|
| `Text` | `text.dfy` | The Go `strings` functions the gateway relies on (`HasPrefix`, `Index`, `Contains`, `TrimSpace`, `ReplaceAll`), with what the code needs proved about them. |
| `LineReader` | `line_reader.dfy` | `bufio.Reader.ReadString('\n')`: the class `Reader` over the unread part of a response body, and the split of a body into complete lines. |
| `Gin` | `gin.dfy` | The slice of gin the handlers use: the request, its cancellation, `ResponseWriter` and `Context` as classes, and gin's Recovery after a panic. |
| `EventStream` | `event_stream.dfy` | The line filter both streaming relays share, and the frames it writes. |
| `Relay` | `relay.dfy` | What `handleConversationResponse` does to the lines of one stream, as functions: `Step` for one line, `Relay` over the lines read, `Drive` for the loop with its cancellation checks. |
| `Conversation` | `conversation.dfy` | The ChatGPT handlers as values. These are the requests they send, the normalisation rules, and `Exchange`: everything one handler call does, from the first upstream request to the last frame, including the continuation. |
| `ChatGpt` | `chatgpt.dfy` | The same handlers as imperative methods on `Context`, `ResponseWriter`, `Client` and `Reader`. Each is proved to have exactly the effect its `Exchange` describes. |
| `Common` | `common.dfy` | `GetAccessToken`, `ReturnMessage` and `Proxy`. |
| `Platform` | `platform.dfy` | `CreateChatCompletions`, `handlePost` and `handleCompletionsResponse`. |

Every ChatGPT handler method in `chatgpt.dfy` has one effect specification, made of seven parts:
- the requests the client sent;
- the cancellation checks made;
- the abort flag;
- the writes to the response body;
- whether the response was committed;
- its status;
- its headers.

Each part is written in terms of the handler's `Exchange` (`Written`, `Commits`, `StatusAfter`, `HeadersAfter`). The lemmas about the exchange then state what the handler promises. The methods of `common.dfy` and `platform.dfy` have no `Exchange`. Their contracts state the requests sent, the body, the status and the abort flag directly, and "## Left out" names what they leave unstated.

Behaviour a reader might not expect:
- **Cancellation does not stop the continuation.** The read loop breaks when the request context is cancelled. The continuation test after the loop still runs, so a cut-short answer followed by a cancellation still sends the "continue" request (`Conversation.CancelledStreamStillContinues`). Its own stream then stops at its first check.
- **A body that does not bind gets no JSON label.** gin's `BindJSON` already aborts with 400 and sends the status line with the headers as they stand. The handler's `AbortWithStatusJSON` then only adds its message to the body; its content type comes too late (`Conversation.BindFailureEffects`).
- **There is at most one continuation.** The continuation request is built without the auto-continue flag (api/chatgpt/api.go:273-282), so its answer is only relayed and never continued (`Conversation.ContinuationIsFinal`). A chain of continuations is not possible.

## Model

| member | source | states |
|---|---|---|
| Common.GetAccessToken | api/common.go:141-146 | The header sent upstream always starts with "Bearer" and ends with the client's value. It equals that value exactly when the value already starts with "Bearer", even with no space after it. Otherwise it is exactly "Bearer ", with its space, followed by the value. |
| Common.GetAccessTokenIdempotent | api/common.go:141-146 | Normalising an already normalised token changes nothing. |
| Common.ReturnMessage | api/common.go:135-139 | The error body has the single key "errorMessage", holding the message. |
| Common.ReturnMessageInjective | api/common.go:135-139 | Different messages give different error bodies. |
| Common.RewritePathReplacesPrefix | api/common.go:93-98 | A path holding "/chatgpt" keeps no "/chatgpt" after rewriting, and keeps any "/platform" it had. Any other path keeps no "/platform". |
| Common.RewritePath | api/common.go:93-98 | The upstream URL for a path: every "/chatgpt" becomes the ChatGPT host when the path holds one, and otherwise every "/platform" becomes the platform host. A path holding neither is sent unchanged. |
| Common.RewriteLeadingPrefix | api/common.go:93-98 | A path that starts with "/chatgpt" and holds no other becomes the ChatGPT host followed by the rest. Likewise "/platform" becomes the platform host when the path holds no "/chatgpt" and no second "/platform". |
| Common.ChatGptReplacementClean | api/common.go:22-23 | "https://chat.openai.com" cannot form "/chatgpt" on its own or across either border. |
| Common.PlatformReplacementClean | api/common.go:25-26 | "https://api.openai.com" cannot form "/platform" on its own or across either border. |
| Common.PrefixesDisjoint | api/common.go:22-26 | "/chatgpt" and "/platform" cannot overlap each other. |
| Common.ProxyTargetSplits | api/common.go:93-104 | For a path without "?", cutting the target at its first "?" gives back the rewritten path and the encoded query. The query is appended only when it is not empty. |
| Common.RewriteAddsNoMark | api/common.go:93-98 | Rewriting a path never introduces a "?". |
| Common.SplitAtMark | api/common.go:101-104 | The "?" joining a query to a path without one is where the URL is cut. |
| Common.Proxy | api/common.go:92-133 | The request goes to the rewritten path plus the query, with the client's method and body (no body for GET), the browser user agent and the normalised token. The client then gets three things: the upstream status, or 500 on a transport error, while nothing is committed; the error body, the decoded upstream body or the copied upstream body; and an abort exactly when the answer is not a 200. |
| Common.ProxyStatus | api/common.go:118-130 | The client gets the upstream status unchanged, or 500 on a transport error. |
| Common.ProxyBody | api/common.go:118-130 | At most one write: the error message on a transport error; the decoded body for any other status than 200 that allows a body; the copied body on a 200. Nothing is written exactly when a 200 body is empty or the status allows no body. |
| Conversation.Normalised | api/chatgpt/api.go:41-47 | An absent or empty conversation id becomes null, and an empty first role becomes "user". Without a first message there is nothing to normalise; the source panics there. |
| Conversation.NormalisedKeeps | api/chatgpt/api.go:41-47 | Normalisation changes nothing else: contents, later messages, a non-empty id or role, and all other fields stay. |
| Conversation.NormalisedIdempotent | api/chatgpt/api.go:41-47 | Normalising a normalised request changes nothing. |
| Conversation.Prepare | api/chatgpt/api.go:35-71 | The outcomes of preparing a request: <br>• a body that does not bind is `Unbound`, with the parse-error message as the body the handler adds; <br>• a request with no messages crashes; <br>• for the gpt-4 family, a failed token fetch is rejected with 500 and the fetch error's message; <br>• any other bound request with messages is ready. <br>A ready request is the normalised one. Outside the gpt-4 family it keeps the client's own token; in it, it carries the fetched token. |
| Conversation.ConversationsUrlKeepsPage | api/chatgpt/api.go:21-30 | The upstream URL determines the offset (default "0") and limit (default "20") the client asked for, as long as the offset holds no '&'. |
| Conversation.ConversationsUrl | api/chatgpt/api.go:21-30 | Without the query keys the URL asks for offset 0 and limit 20. With both it carries the client's values, unescaped. |
| Conversation.SplitAtAmpersand | api/chatgpt/api.go:30 | Text before the first '&' of the URL's query is recovered uniquely. |
| Conversation.VisibilityRule | api/chatgpt/api.go:106-109 | A patch with a title is always sent visible. Otherwise the client's flag goes through, and false hides the conversation. |
| Conversation.VisibilityRuleKeepsUntitled | api/chatgpt/api.go:106-109 | A patch without a title is sent as written, one with a title as (title, visible). Applying the rule twice is applying it once. |
| Conversation.ContinueRequest | api/chatgpt/api.go:273-282 | The continuation request carries no message and never asks for continuation itself. |
| Conversation.Refusal | api/chatgpt/api.go:209-218 | An answer that is not a 200 ends the call in an abort with the status and body `Common.Proxy` would give: the upstream's own status and body, or 500 with the error message for a transport error. |
| Conversation.SendRefused | api/chatgpt/api.go:209-218 | For every request whose answer is not a 200, exactly one request is sent and nothing is streamed. The client gets the upstream status and body, or 500 and the error message on a transport error. The headers are labelled as JSON as an abort labels them. |
| Conversation.Send | api/chatgpt/api.go:200-222 | The first request is the posted conversation, and at most one continuation follows. Only a 200 answer is streamed. Any other answer ends the call with no frame and no further request. |
| Conversation.Outgoing | api/chatgpt/api.go:200-206 | The conversation request is a POST of the request's JSON to the conversation endpoint. It carries exactly the user agent, the normalised token and the event-stream Accept header. |
| Conversation.Handle | api/chatgpt/api.go:225-290 | Relaying a body checks the context at least once. It sends at most as many follow-ups as the request allows and never merely copies the body. |
| Conversation.Create | api/chatgpt/api.go:34-79 | A request is sent exactly when preparation succeeds, and the first request carries the prepared conversation. A request with no messages ends in a panic with nothing written. |
| Conversation.BindFailureEffects | api/chatgpt/api.go:35-39 | A body that does not bind sends nothing, commits the 400 that gin's `BindJSON` sent, and writes the parse-error message as the whole body. The headers stay as they went out with that 400, so no JSON label is added. |
| Conversation.Answer | api/chatgpt/api.go:144-164 | `handleGet` and `handlePostOrPatch` send one request and stream nothing. The body is copied exactly when the answer is a 200. A transport error aborts with 500 and its message. Any other status aborts with that status and the decoded upstream body, or with the handler's own message when it has one. |
| Conversation.AnswerAsProxy | api/chatgpt/api.go:144-164 | For every answer, `handleGet` writes the body `Common.Proxy` would write. For anything but a 200 it also gives Proxy's status and the JSON label; a 200 leaves the status and headers alone. |
| Conversation.AnswerWithMessage | api/chatgpt/api.go:173-197 | For every answer other than a 200, `handlePostOrPatch` gives the upstream status, or 500 on a transport error. The body is the handler's message, or the transport error's message. The response is labelled as JSON. |
| Conversation.GetRequest | api/chatgpt/api.go:144-149 | The `handleGet` request is a GET of the URL with no body. It carries exactly the user agent, the normalised token and the event-stream Accept header. |
| Conversation.PatchRequestTo | api/chatgpt/api.go:173-182 | The `handlePatch` request is a PATCH of the URL with the patch as its body. It carries exactly the user agent and the normalised token, with no Accept header. |
| Conversation.List | api/chatgpt/api.go:21-30 | `GetConversations` sends one GET to the conversations URL. The body is copied exactly when the answer is a 200. Any other status is aborted with that status and the decoded upstream body. |
| Conversation.Clear | api/chatgpt/api.go:127-132 | `ClearConversations` sends one PATCH to the conversations URL, hiding every conversation. Any other status than 200 is aborted with that status and the handler's own message. |
| Conversation.Update | api/chatgpt/api.go:99-112 | A body that does not bind sends nothing and ends in the bind abort with the parse-error message. Otherwise one PATCH is sent, carrying the patch after the visibility rule. |
| Conversation.ContinuationEffects | api/chatgpt/api.go:268-289 | After the first stream's frames, a continuation's writes, commit, status and headers are those of the continuation on a response already holding those frames. |
| Conversation.ContinuationIff | api/chatgpt/api.go:234-289 | The continuation is sent exactly when all three hold: the relay over the lines read before cancellation did not panic, some line signalled a cut-short answer, and the client asked for continuation. It then carries the ids of the last signalling line. Without it, the frames and ending are those of that relay. |
| Conversation.ContinuationIsFinal | api/chatgpt/api.go:272-288 | A continuation's own answer is relayed and never leads to another request. |
| Conversation.CancelledStreamStillContinues | api/chatgpt/api.go:234-288 | A stream that saw a cut-short answer and was then cancelled still sends exactly one continuation, and writes the frames read before the cancellation. |
| Conversation.SendFrames | api/chatgpt/api.go:200-290 | Every frame a conversation call writes is a trimmed, non-noise line with no line break, followed by an empty line. |
| Conversation.HandleFrames | api/chatgpt/api.go:225-290 | The same for the relay of one answer and its continuation. |
| ChatGpt.Client.constructor | api/chatgpt/api.go:206 | A new client has sent nothing. |
| ChatGpt.Client.Do | api/chatgpt/api.go:206 | `Client.Do` returns the backend's answer to the request and records the request. |
| ChatGpt.HandleGet | api/chatgpt/api.go:144-164 | The effect on client, context and response is exactly that of `Conversation.Answer` for the GET request with the browser headers. |
| ChatGpt.HandlePatch | api/chatgpt/api.go:173-197 | The effect is exactly that of `Conversation.Answer` for the PATCH request and the handler's error message. |
| ChatGpt.GetConversations | api/chatgpt/api.go:21-31 | The effect is exactly that of `Conversation.List`, with the default offset and limit. |
| ChatGpt.UpdateConversation | api/chatgpt/api.go:99-112 | The effect is exactly that of `Conversation.Update`. |
| ChatGpt.ClearConversations | api/chatgpt/api.go:127-132 | The effect is exactly that of `Conversation.Clear`, a patch hiding every conversation. |
| ChatGpt.SendConversationRequest | api/chatgpt/api.go:200-222 | On a 200 answer, the body is handed on with nothing else changed. On any other answer, the effect is exactly that of `Conversation.Send`. |
| ChatGpt.RelayLines | api/chatgpt/api.go:228-270 | The loop's locals, checks, abort flag and response are those of `Relay.Drive` over the body's complete lines. |
| ChatGpt.NextLine | api/chatgpt/api.go:235-269 | One turn keeps the loop invariant, or ends with the loop's final state. |
| ChatGpt.HandleLine | api/chatgpt/api.go:244-269 | One line is handled as `Relay.Step` says: the writes, the continuation state and the panic flag. |
| ChatGpt.ObserveResponse | api/chatgpt/api.go:257-266 | The continuation state after a forwarded payload is `Relay.Observe` of it. |
| ChatGpt.WriteFrame | api/chatgpt/api.go:268-269 | Writing and flushing a line appends its frame and commits, leaving status and headers alone. |
| ChatGpt.HandleConversationResponse | api/chatgpt/api.go:225-290 | The effect, including the continuation, is exactly that of `Conversation.Handle` on the unread body. |
| ChatGpt.PrepareConversation | api/chatgpt/api.go:35-71 | It returns the prepared request exactly when `Conversation.Prepare` is ready, and then changes nothing. Otherwise the effect is that of `Conversation.Create`. |
| ChatGpt.CreateConversation | api/chatgpt/api.go:34-79 | The effect is exactly that of `Conversation.Create`. |
| ChatGpt.Converse | api/chatgpt/api.go:73-78 | A request sent and, on a 200, its answer handled: the effect is exactly that of `Conversation.Send`. |
| EventStream.Filter | api/platform/api.go:66-85 | The filter writes at most one frame per line. |
| EventStream.FilterFrames | api/platform/api.go:76-83 | Every frame the filter writes is well formed. |
| EventStream.FilterAppend | api/platform/api.go:66-85 | Filtering two runs of lines is filtering each and concatenating. |
| EventStream.FilterOne | api/platform/api.go:76-83 | A single line is dropped exactly when, trimmed, it starts with "event" or "data: 20" or is empty. Otherwise it is written trimmed, followed by an empty line. |
| EventStream.DataLineNotNoise | api/chatgpt/api.go:245-249 | `IsNoise` holds for the lines the read loops skip: an empty line and lines starting with "event" or "data: 20". A data line carrying a JSON object or the "[DONE]" terminator is never noise. |
| EventStream.FrameOfLine | api/platform/api.go:76-83 | Framing a read line that is not noise gives a well-formed frame. |
| EventStream.TextsOfNextLine | api/platform/api.go:71-84 | Reading one more line adds exactly that line's frame, if any, to the writes. |
| Relay.Relay | api/chatgpt/api.go:234-270 | The relay writes at most one frame per line, and every frame is well formed. |
| Relay.RelayExtends | api/chatgpt/api.go:234-270 | Relaying more lines only appends frames and never clears the cut-short flag. After a panic nothing changes. |
| Relay.LastSignal | api/chatgpt/api.go:257-266 | The last signalling line, if any, is a line whose payload qualifies. |
| Relay.LastSignalIsLast | api/chatgpt/api.go:257-266 | The line found signals when read after the lines before it, and no later line does. None means that no line signals at all. |
| Relay.RelayStateIsLastSignal | api/chatgpt/api.go:228-266 | The continuation state is initial when no line signalled. Otherwise it holds the ids decoded from the last line that signalled. |
| Relay.FlagIffSignal | api/chatgpt/api.go:257-266 | The cut-short flag is set exactly when some line signalled. |
| Relay.LineFate | api/chatgpt/api.go:251-269 | A "[DONE]" payload is hidden exactly when an earlier line signalled and the client asked for continuation. Any other line that is not noise and is long enough is written, trimmed. |
| Relay.NoiseIgnored | api/chatgpt/api.go:244-249 | Noise lines change nothing. |
| Relay.ShortLinePanics | api/chatgpt/api.go:251 | A line that is not noise but shorter than six characters makes `line[6:]` panic, with no write. |
| Relay.BlankGuardRedundant | api/chatgpt/api.go:257 | A payload that contains "max_tokens" is never blank, so the blank test in front of the substring test decides nothing. |
| Relay.Kept | api/chatgpt/api.go:252-254 | The kept lines are read lines, at most as many as were read. |
| Relay.RelayIsFilterOfKept | api/chatgpt/api.go:244-269 | Short of a panic, the conversation relay writes exactly what the platform filter writes for the lines not hidden as terminators. |
| Relay.NoContinueKeepsAll | api/chatgpt/api.go:252 | Without automatic continuation no line is hidden. |
| Relay.RelayMatchesPlatform | api/chatgpt/api.go:244-269 | So without automatic continuation, and short of a panic, the conversation relay and the platform relay write the same frames. |
| Relay.StepState | api/chatgpt/api.go:257-266 | A line changes the continuation state exactly when it signals, and then records its ids. |
| Relay.Step | api/chatgpt/api.go:244-269 | One turn of the read loop. A panicked pass stays as it is. A turn adds no frame or exactly the trimmed line as a frame. It panics exactly on a non-noise line shorter than six characters. |
| Relay.StepFrameOnlyForwarded | api/chatgpt/api.go:244-269 | A turn writes a frame only for a line that is not noise, is at least six characters long and is not hidden. The state is then the one observed from its payload. |
| Relay.Observe | api/chatgpt/api.go:257-266 | A payload that does not qualify leaves the state alone. A qualifying one sets the cut-short flag and records the message and conversation ids it decodes to. The flag is then set exactly when it was set before or the payload qualifies. |
| Relay.Suppressed | api/chatgpt/api.go:252-254 | A line is hidden only when a continuation will follow: auto-continue is on and an answer was cut short. |
| Relay.DoneLineSuppressed | api/chatgpt/api.go:252-254 | When a continuation will follow, the standard terminator line "data: [DONE]" is hidden. |
| Relay.StepFrames | api/chatgpt/api.go:244-269 | A line adds at most one frame, and a well-formed one. |
| Relay.StepMonotone | api/chatgpt/api.go:244-269 | A line only appends frames, changes nothing after a panic and never clears the cut-short flag. |
| Relay.Drive | api/chatgpt/api.go:234-270 | The loop checks the context at least once. |
| Relay.DriveIsRelay | api/chatgpt/api.go:234-270 | The loop relays exactly the lines read before cancellation, panic included. |
| Relay.DriveFromFresh | api/chatgpt/api.go:228-270 | From the initial state, the loop's pass is the relay over the lines read before cancellation. |
| Relay.CancelledRelaysNothing | api/chatgpt/api.go:235-237 | A context cancelled before the first read makes the loop write nothing, after one check. |
| Gin.Budget | api/chatgpt/api.go:234-242 | At most as many lines are read as there are, and all of them when the context is never cancelled. |
| Gin.BudgetIsFirstCancel | api/chatgpt/api.go:235-237 | The lines read end at the first check that finds the context cancelled, or at the end of the body. |
| Gin.CancelledEndsBudget | api/platform/api.go:67-69 | A check that finds the context cancelled within the budget ends it. |
| Gin.UncancelledWithinBudget | api/platform/api.go:67-74 | A check that finds the context not cancelled, with lines left, is within the budget. |
| Gin.BudgetStep | api/platform/api.go:66-85 | One line read uses one unit of the budget. |
| Gin.ResponseWriter.constructor | api/common.go:107 | A fresh response has status 200, no headers, no body and is not committed. |
| Gin.ResponseWriter.SetHeader | api/chatgpt/api.go:226 | A header is set only while the response is not committed. |
| Gin.ResponseWriter.WriteHeader | api/common.go:107 | The status is recorded only while the response is not committed. |
| Gin.ResponseWriter.Write | api/chatgpt/api.go:268 | A write commits the response and appends to the body. |
| Gin.ResponseWriter.WriteHeaderNow | api/chatgpt/api.go:36 | Gin's `WriteHeaderNow`, which `AbortWithStatus` and `Recover` use, commits the status recorded so far and changes nothing else. |
| Gin.ResponseWriter.Flush | api/chatgpt/api.go:269 | A flush commits the response and changes nothing else. |
| Gin.Context.Err | api/chatgpt/api.go:235 | Each check counts once and reports cancellation from the cancelling check on. |
| Gin.Context.AbortWithStatusJSON | api/common.go:120 | An abort sets the flag and commits. The status is recorded only on an uncommitted response. The JSON body is written when the status allows one. The response is labelled as JSON unless it was committed or a content type was set, even when the status allows no body. |
| Gin.Context.AbortWithStatus | api/chatgpt/api.go:36 | Gin's `AbortWithStatus`, which `BindJSON` uses through `AbortWithError`, sets the abort flag and commits. The status is recorded only on an uncommitted response; headers and body stay as they are. |
| Gin.Context.BindJSON | api/chatgpt/api.go:36 | The result is what the body binds to. Success changes nothing. Failure aborts and commits 400 (unless already committed) with the headers and body untouched. |
| Gin.Context.Recover | api/chatgpt/api.go:251 | After a panic, the context is aborted and the response committed, with 500 when nothing had been sent. |
| LineReader.NextNewline | api/chatgpt/api.go:239 | The read stops at the first '\n', or finds none. |
| LineReader.CompleteLinesAreLines | api/chatgpt/api.go:239 | Every line read ends in its only '\n'. |
| LineReader.Remainder | api/chatgpt/api.go:239-242 | The text after the last '\n' holds no '\n'. |
| LineReader.LinesRoundTrip | api/chatgpt/api.go:239-242 | The complete lines followed by the remainder are the body. |
| LineReader.LinesOfConcat | api/chatgpt/api.go:239-242 | Lines written one after another, followed by text without '\n', are read back as exactly those lines and that text. |
| LineReader.Reader.constructor | api/chatgpt/api.go:233 | A new reader has the whole body unread. |
| LineReader.Reader.ReadString | api/chatgpt/api.go:239-242 | A read returns the next complete line and leaves the lines after it. With no '\n' left, it fails and returns the rest. |
| Platform.RoutesSelectEndpoints | api/platform/api.go:38-43 | The chat-completions route reaches the chat-completions endpoint, and the completions route the completions endpoint. |
| Platform.EndpointFor | api/platform/api.go:38-43 | A request goes to the chat-completions endpoint exactly when its path contains "/chat". |
| Platform.PostHeaders | api/platform/api.go:156-160 | The POST carries the normalised token, a JSON content type, and "Accept: text/event-stream" exactly for a streamed request. |
| Platform.HandlePost | api/platform/api.go:153-168 | The request goes to the chosen endpoint with the client's body. A transport error aborts with 500 and its message and hands back nothing. Any answer, whatever its status, is handed back with the response untouched. |
| Platform.HandleCompletionsResponse | api/platform/api.go:62-85 | The writes are exactly the filter's frames of the lines read before cancellation, with one check per line read plus one. The response is labelled as an event stream while uncommitted, and status and abort flag are unchanged. |
| Platform.CreateChatCompletions | api/platform/api.go:31-59 | The client's body goes to the endpoint the path selects, with "Accept" exactly when the body asks for a stream. A transport error aborts with 500. Otherwise the status stays, and the answer is filtered when streamed and copied when not. |
| Platform.RelayAnswer | api/platform/api.go:50-54 | A streamed answer is written as the filter's frames of the lines read before cancellation, and any other answer is copied. |
| Text.IndexOf | api/chatgpt/api.go:257 | `strings.Index` finds the first occurrence, or reports that there is none. |
| Text.TrimSpace | api/chatgpt/api.go:244 | The trimmed line starts and ends with a non-space, and is empty exactly when the line is all white space. |
| Text.TrimSpaceIsSlice | api/chatgpt/api.go:244 | The trimmed line is a slice of the line, and everything before and after that slice is white space. |
| Text.TrimSpaceIdempotent | api/platform/api.go:76 | Trimming a trimmed line changes nothing. |
| Text.TrimSpaceKeepsVisible | api/chatgpt/api.go:257 | A string containing a visible character does not trim to nothing. |
| Text.ReplaceAllRemoves | api/common.go:95-97 | With a replacement that cannot form the pattern, `ReplaceAll` leaves no occurrence of it. |
| Text.ReplaceAll | api/common.go:95-97 | Go's `strings.ReplaceAll`. Text without the pattern comes back unchanged. The other `Text.ReplaceAll` lemmas give the rest of its meaning. |
| Text.ReplaceAllKeeps | api/common.go:95-97 | `ReplaceAll` keeps every string that cannot overlap the pattern. |
| Text.ReplaceAllLeading | api/common.go:95-97 | A string that starts with the pattern and has no other occurrence has just its head replaced. |
| Text.ReplaceAllChars | api/common.go:95-97 | Every character of the result comes from the input or the replacement. |

## Left out

- The Arkose token fetch is a parameter (`TokenFetch`). This leaves out the form it posts, its random `rnd` field (api/chatgpt/api.go:50-59, 292-295) and the decoding of its answer. The gpt-4 browsing and plugins model names live in a constants file that is not part of this model, so they are the parameter `others`.
- JSON binding and decoding are oracles (`bind`, `Decoder`, `streamField`). This applies to the client's request, the stream payloads and the platform `stream` flag. An upstream error body is kept as text (`Relayed`) rather than decoded into a map.
- The upstream client is a function from request to answer, so timeouts, TLS and connection reuse are not modelled. Logging (`log.Println`) is left out.
- A response body is the text the upstream delivers before the stream ends. A read error and the end of the stream both stop the loops, so they are one case.
- `io.Copy` is one write of the whole body (nothing for an empty body). The platform relay's `io.Copy` after its loop (api/platform/api.go:87-88) is left out.
- Lengths are counted in characters, not UTF-8 bytes. `line[6:]` and the "shorter than six" panic therefore agree with Go only for ASCII prefixes.
- A handler that panics is modelled as gin's Recovery at the point of the panic (status 500 when nothing was sent, no body). Go's unwinding through deferred calls is not modelled.
- The platform endpoint URLs are constants of a file that is not part of this model, so they are the two-valued `Platform.Endpoint`.
- net/http guesses a content type from the first bytes of a body sent without one. This covers the body after a failed bind, and the bodies `io.Copy` passes through on a 200: `handleGet`, `handlePostOrPatch`, `Proxy` and the platform copy. That guess is not modelled. The headers in the model are the ones sent with the status line.
- Query values are the first value of each key (`GetQuery`). `URL.Query().Encode()` is a given string, and its escaping is not modelled.
- The other ChatGPT and platform handlers (titles, feedback, account checks, the user-agent route), the health check, client construction and the server's routing table are not part of this model.
- Common.Proxy: states the status, body and abort flag the client gets, not its headers or committed flag.
- Platform.CreateChatCompletions: states the status, body and abort flag, not the event-stream header or the committed flag. `Platform.HandleCompletionsResponse` states the header.
- Platform.RelayAnswer: states the status, body and abort flag, not the headers or the committed flag.
- Platform.HandlePost: on a transport error it states the status, body and abort flag, not the headers. `Gin.Context.AbortWithStatusJSON` states how the abort labels them.
