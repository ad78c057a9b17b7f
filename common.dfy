/**
 * The gateway's shared helpers (package `api`): the bearer-token rule, the
 * error body, the upstream request and response, and the catch-all `Proxy`
 * handler that forwards any other path to the matching OpenAI host.
 */
module Common {
  import opened Wrappers
  import opened Text
  import opened Gin

  const ChatGPTApiPrefix := "/chatgpt"
  const ChatGPTApiUrlPrefix := "https://chat.openai.com"
  const PlatformApiPrefix := "/platform"
  const PlatformApiUrlPrefix := "https://api.openai.com"
  const DefaultErrorMessageKey := "errorMessage"
  const UserAgent := "Mozilla/5.0 (X11; Linux x86_64) AppleWebKit/537.36 (KHTML, like Gecko) Chrome/114.0.0.0 Safari/537.36"
  const Bearer := "Bearer"

  /** A request sent upstream: method, URL, headers and a payload. */
  datatype Outbound<T> = Outbound(verb: string, url: string, headers: map<string, string>, body: T)

  /** What `Client.Do` gives back: a transport error, or a status and a body. */
  datatype Upstream = TransportError(message: string) | Response(status: int, body: string)

  /**
   * The Authorization value sent upstream: the client's value when it
   * already starts with "Bearer" (even with no space after it), and
   * otherwise that value behind "Bearer ".
   */
  function GetAccessToken(token: string): (r: string)
    ensures HasPrefix(r, Bearer)
    ensures |token| <= |r| && r[|r| - |token|..] == token
    ensures r == token <==> HasPrefix(token, Bearer)
    ensures !HasPrefix(token, Bearer) ==> |r| == 7 + |token| && r[..7] == "Bearer " && r[7..] == token
  {
    if !HasPrefix(token, Bearer) then
      assert ("Bearer " + token)[7..] == token;
      "Bearer " + token
    else token
  }

  /** Normalising twice is normalising once. */
  lemma GetAccessTokenIdempotent(token: string)
    ensures GetAccessToken(GetAccessToken(token)) == GetAccessToken(token)
  {
  }

  /** The error body: a single "errorMessage" key holding the message. */
  function ReturnMessage(msg: string): (h: map<string, string>)
    ensures h.Keys == {DefaultErrorMessageKey}
    ensures h[DefaultErrorMessageKey] == msg
  {
    map[DefaultErrorMessageKey := msg]
  }

  /** The error body is the message and nothing else: different messages give different bodies. */
  lemma ReturnMessageInjective(a: string, b: string)
    requires ReturnMessage(a) == ReturnMessage(b)
    ensures a == b
  {
    assert ReturnMessage(a)[DefaultErrorMessageKey] == a;
  }

  /**
   * The upstream URL for a path: every "/chatgpt" becomes the ChatGPT host
   * when there is one; otherwise every "/platform" becomes the platform host.
   */
  function RewritePath(path: string): (r: string)
    ensures !Contains(path, ChatGPTApiPrefix) && !Contains(path, PlatformApiPrefix) ==> r == path
  {
    if Contains(path, ChatGPTApiPrefix) then ReplaceAll(path, ChatGPTApiPrefix, ChatGPTApiUrlPrefix)
    else ReplaceAll(path, PlatformApiPrefix, PlatformApiUrlPrefix)
  }

  /** The full target of a proxied request: the rewritten path, then "?" and the query if there is one. */
  function ProxyTarget(path: string, encodedQuery: string): string {
    RewritePath(path) + if encodedQuery == "" then "" else "?" + encodedQuery
  }

  /** "https://chat.openai.com" can neither contain "/chatgpt" nor form one with its neighbours. */
  lemma ChatGptReplacementClean()
    ensures ReplacementIsClean(ChatGPTApiPrefix, ChatGPTApiUrlPrefix)
  {
    var p, n := ChatGPTApiPrefix, ChatGPTApiUrlPrefix;
    ChatGptHostLacksPrefix();
    forall d | 0 < d < |p|
      ensures !HasPrefix(n, p[d..]) && !HasPrefix(p[d..], n)
    {
      ChatGptShiftClean(d);
    }
    NoSlashInUrlTail(p, n);
  }

  /** "https://chat.openai.com" has no 'g', so it cannot contain "/chatgpt". */
  lemma ChatGptHostLacksPrefix()
    ensures !Contains(ChatGPTApiUrlPrefix, ChatGPTApiPrefix)
  {
    var p, n := ChatGPTApiPrefix, ChatGPTApiUrlPrefix;
    ChatGptHostLacksG();
    ContainedChars(n, p, 'g');
    assert p[5] == 'g';
  }

  lemma ChatGptHostLacksG()
    ensures 'g' !in ChatGPTApiUrlPrefix
  {
    var n := ChatGPTApiUrlPrefix;
    assert n == "https://" + "chat." + "openai.com";
  }

  /** No proper suffix of "/chatgpt" starts "https://chat.openai.com", nor the other way round. */
  lemma ChatGptShiftClean(d: nat)
    requires 0 < d < |ChatGPTApiPrefix|
    ensures !HasPrefix(ChatGPTApiUrlPrefix, ChatGPTApiPrefix[d..]) && !HasPrefix(ChatGPTApiPrefix[d..], ChatGPTApiUrlPrefix)
  {
    var p, n := ChatGPTApiPrefix, ChatGPTApiUrlPrefix;
    var k := if d == 2 then 1 else 0;
    PrefixAgrees(n, p[d..], k);
    assert p[d..][k] == p[d + k];
  }

  /** "https://api.openai.com" can neither contain "/platform" nor form one with its neighbours. */
  lemma PlatformReplacementClean()
    ensures ReplacementIsClean(PlatformApiPrefix, PlatformApiUrlPrefix)
  {
    var p, n := PlatformApiPrefix, PlatformApiUrlPrefix;
    assert p[2] == 'l';
    ContainedChars(n, p, 'l');
    NoLetterStartsUrl(p, n);
    NoSlashInUrlTail(p, n);
  }

  /** No proper suffix of the prefix starts the host URL: after its '/' the prefix has no 'h'. */
  lemma NoLetterStartsUrl(p: string, n: string)
    requires p == PlatformApiPrefix && n == PlatformApiUrlPrefix
    ensures forall d :: 0 < d < |p| ==> !HasPrefix(n, p[d..]) && !HasPrefix(p[d..], n)
  {
    forall d | 0 < d < |p|
      ensures !HasPrefix(n, p[d..]) && !HasPrefix(p[d..], n)
    {
      PrefixAgrees(n, p[d..], 0);
      assert p[d..][0] == p[d];
    }
  }

  /** No suffix of a host URL short enough to start a prefix begins with '/'. */
  lemma NoSlashInUrlTail(p: string, n: string)
    requires p == PlatformApiPrefix || p == ChatGPTApiPrefix
    requires n == PlatformApiUrlPrefix || n == ChatGPTApiUrlPrefix
    ensures forall e :: 0 <= e < |n| ==> !HasPrefix(p, n[e..])
  {
    forall e | 0 <= e < |n|
      ensures !HasPrefix(p, n[e..])
    {
      PrefixAgrees(p, n[e..], 0);
      assert n[e..][0] == n[e];
    }
  }

  /** The two prefixes cannot overlap each other. */
  lemma PrefixesDisjoint()
    ensures Disjoint(ChatGPTApiPrefix, PlatformApiPrefix)
  {
    PrefixNotInPrefix(ChatGPTApiPrefix, PlatformApiPrefix, 'l');
    PrefixNotInPrefix(PlatformApiPrefix, ChatGPTApiPrefix, 'c');
    OnlyLeadingSlash(ChatGPTApiPrefix, PlatformApiPrefix);
    OnlyLeadingSlash(PlatformApiPrefix, ChatGPTApiPrefix);
  }

  /** Each prefix has a letter the other lacks ('l' and 'c'), so neither contains the other. */
  lemma PrefixNotInPrefix(a: string, b: string, c: char)
    requires (a, b, c) == (ChatGPTApiPrefix, PlatformApiPrefix, 'l') || (a, b, c) == (PlatformApiPrefix, ChatGPTApiPrefix, 'c')
    ensures !Contains(a, b)
  {
    ContainedChars(a, b, c);
  }

  /** Past its leading '/', neither prefix has a '/' that could start the other. */
  lemma OnlyLeadingSlash(a: string, b: string)
    requires a == ChatGPTApiPrefix || a == PlatformApiPrefix
    requires b == ChatGPTApiPrefix || b == PlatformApiPrefix
    ensures forall d :: 0 < d < |a| ==> !HasPrefix(b, a[d..])
  {
    forall d | 0 < d < |a| ensures !HasPrefix(b, a[d..]) {
      PrefixAgrees(b, a[d..], 0);
      assert a[d..][0] == a[d];
    }
  }

  /**
   * A ChatGPT path keeps no "/chatgpt" after rewriting, and keeps every
   * "/platform" it had; a platform path keeps no "/platform".
   */
  lemma RewritePathReplacesPrefix(path: string)
    ensures Contains(path, ChatGPTApiPrefix) ==> !Contains(RewritePath(path), ChatGPTApiPrefix)
    ensures Contains(path, ChatGPTApiPrefix) && Contains(path, PlatformApiPrefix) ==>
              Contains(RewritePath(path), PlatformApiPrefix)
    ensures !Contains(path, ChatGPTApiPrefix) ==> !Contains(RewritePath(path), PlatformApiPrefix)
  {
    ChatGptReplacementClean();
    PlatformReplacementClean();
    PrefixesDisjoint();
    if Contains(path, ChatGPTApiPrefix) {
      ReplaceAllRemoves(path, ChatGPTApiPrefix, ChatGPTApiUrlPrefix);
      if Contains(path, PlatformApiPrefix) {
        ReplaceAllKeeps(path, ChatGPTApiPrefix, ChatGPTApiUrlPrefix, PlatformApiPrefix);
      }
    } else {
      ReplaceAllRemoves(path, PlatformApiPrefix, PlatformApiUrlPrefix);
    }
  }

  /** A path that begins with the prefix, and has no other, is mapped onto the host. */
  lemma RewriteLeadingPrefix(rest: string)
    ensures !Contains(rest, ChatGPTApiPrefix) ==> RewritePath(ChatGPTApiPrefix + rest) == ChatGPTApiUrlPrefix + rest
    ensures !Contains(PlatformApiPrefix + rest, ChatGPTApiPrefix) && !Contains(rest, PlatformApiPrefix) ==>
              RewritePath(PlatformApiPrefix + rest) == PlatformApiUrlPrefix + rest
  {
    assert OccursAt(ChatGPTApiPrefix + rest, ChatGPTApiPrefix, 0);
    OccursAtContains(ChatGPTApiPrefix + rest, ChatGPTApiPrefix, 0);
    if !Contains(rest, ChatGPTApiPrefix) {
      ReplaceAllLeading(ChatGPTApiPrefix, ChatGPTApiUrlPrefix, rest);
    }
    if !Contains(rest, PlatformApiPrefix) {
      ReplaceAllLeading(PlatformApiPrefix, PlatformApiUrlPrefix, rest);
    }
  }

  /** The query of a URL: what follows its first "?", and the part before it. */
  function SplitQuery(url: string): (string, string) {
    match IndexOf(url, "?")
    case None => (url, "")
    case Some(i) => (url[..i], url[i + 1..])
  }

  /**
   * For a path without "?", splitting the target at its first "?" gives back
   * the rewritten path and the query: the query is appended only when there
   * is one, and the rewriting never introduces a "?".
   */
  lemma ProxyTargetSplits(path: string, encodedQuery: string)
    requires '?' !in path
    ensures SplitQuery(ProxyTarget(path, encodedQuery)) == (RewritePath(path), encodedQuery)
  {
    RewriteAddsNoMark(path);
    SplitAtMark(RewritePath(path), encodedQuery);
  }

  /** Rewriting a path without "?" introduces none. */
  lemma RewriteAddsNoMark(path: string)
    requires '?' !in path
    ensures '?' !in RewritePath(path)
  {
    ReplaceAllChars(path, ChatGPTApiPrefix, ChatGPTApiUrlPrefix, '?');
    ReplaceAllChars(path, PlatformApiPrefix, PlatformApiUrlPrefix, '?');
  }

  /** A "?" joining a query onto a path without one is where SplitQuery cuts. */
  lemma SplitAtMark(path: string, query: string)
    requires '?' !in path
    ensures SplitQuery(path + if query == "" then "" else "?" + query) == (path, query)
  {
    var url := path + if query == "" then "" else "?" + query;
    CharIndex(url, '?');
    assert "?" == ['?'];
    if query == "" {
      assert url == path;
    } else {
      assert url[|path|] == '?';
      assert forall k :: 0 <= k < |path| ==> url[k] == path[k];
      assert url[..|path|] == path;
      assert url[|path| + 1..] == query;
    }
  }

  /** The status a proxied upstream answer gives the client's response. */
  function ProxyStatus(up: Upstream): (s: int)
    ensures up.Response? ==> s == up.status
    ensures up.TransportError? ==> s == StatusInternalServerError
  {
    match up
    case TransportError(_) => StatusInternalServerError
    case Response(status, _) => status
  }

  /**
   * What a proxied upstream answer adds to the client's response body: the
   * error body for a transport error, the decoded upstream body for a status
   * other than 200 (when that status allows a body), and otherwise the
   * upstream body itself, copied through when it is not empty.
   */
  function ProxyBody(up: Upstream): (r: seq<Chunk>)
    ensures |r| <= 1
    ensures up.TransportError? ==> r == [Encoded(Object(ReturnMessage(up.message)))]
    ensures r == [] <==> up.Response? && if up.status == StatusOK then up.body == "" else !BodyAllowed(up.status)
  {
    match up
    case TransportError(e) => [Encoded(Object(ReturnMessage(e)))]
    case Response(status, body) =>
      if status != StatusOK then (if BodyAllowed(status) then [Encoded(Relayed(body))] else [])
      else if body == "" then []
      else [Text(body)]
  }

  /**
   * `Proxy`: forwards the request to the host its path names, with the
   * browser user agent and the normalised bearer token, and hands the
   * upstream status and body to the client.
   */
  method Proxy(ctx: Context, respond: Outbound<Option<string>> -> Upstream) returns (sent: Outbound<Option<string>>)
    modifies ctx, ctx.writer
    ensures sent.url == ProxyTarget(ctx.request.path, ctx.request.encodedQuery)
    ensures sent.verb == ctx.request.verb
    ensures sent.body == if ctx.request.verb == "GET" then None else Some(ctx.request.body)
    ensures sent.headers == map["User-Agent" := UserAgent, "Authorization" := GetAccessToken(ctx.request.authorization)]
    ensures ctx.writer.status == if old(ctx.writer.committed) then old(ctx.writer.status) else ProxyStatus(respond(sent))
    ensures ctx.writer.body == old(ctx.writer.body) + ProxyBody(respond(sent))
    ensures ctx.isAborted == (old(ctx.isAborted) || !(respond(sent).Response? && respond(sent).status == StatusOK))
    ensures ctx.checks == old(ctx.checks)
  {
    var url := ctx.request.path;
    if Contains(url, ChatGPTApiPrefix) {
      url := ReplaceAll(url, ChatGPTApiPrefix, ChatGPTApiUrlPrefix);
    } else {
      url := ReplaceAll(url, PlatformApiPrefix, PlatformApiUrlPrefix);
    }
    assert url == RewritePath(ctx.request.path);
    var verb := ctx.request.verb;
    var queryParams := ctx.request.encodedQuery;
    if queryParams != "" {
      url := url + "?" + queryParams;
    }
    assert url == ProxyTarget(ctx.request.path, ctx.request.encodedQuery);

    ctx.writer.WriteHeader(StatusOK);

    var body: Option<string> := if verb == "GET" then None else Some(ctx.request.body);
    var headers: map<string, string> := map[];
    headers := headers["User-Agent" := UserAgent];
    headers := headers["Authorization" := GetAccessToken(ctx.request.authorization)];
    sent := Outbound(verb, url, headers, body);

    var resp := respond(sent);
    match resp
    case TransportError(e) =>
      assert BodyAllowed(StatusInternalServerError);
      ctx.AbortWithStatusJSON(StatusInternalServerError, Object(ReturnMessage(e)));
    case Response(status, upstreamBody) =>
      if status != StatusOK {
        ctx.AbortWithStatusJSON(status, Relayed(upstreamBody));
      } else if upstreamBody != "" {
        ctx.writer.Write(Text(upstreamBody));
      }
  }
}
