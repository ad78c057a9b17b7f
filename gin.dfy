/**
 * The slice of the gin web framework the handlers use: the incoming request,
 * its cancellation, and the response writer, whose status is fixed by the
 * first write (a later status change is ignored, as gin only logs a warning).
 */
module Gin {
  import opened Wrappers

  const StatusOK := 200
  const StatusBadRequest := 400
  const StatusInternalServerError := 500
  const JsonContentType := "application/json; charset=utf-8"

  /**
   * A JSON value sent back to the client: a `gin.H` map of strings, or an
   * upstream error body decoded into a map and encoded again.
   */
  datatype Json = Object(fields: map<string, string>) | Relayed(body: string)

  /** One write to the response body. */
  datatype Chunk = Text(text: string) | Encoded(value: Json)

  /** net/http refuses a body for 1xx, 204 and 304 responses; gin then writes the status alone. */
  predicate BodyAllowed(status: int) {
    !(100 <= status <= 199 || status == 204 || status == 304)
  }

  /**
   * The request as the handlers see it; `verb` is the HTTP method. `queryParams` holds the first value
   * of each query key (what `GetQuery` returns); `encodedQuery` is what
   * `URL.Query().Encode()` gives for the same query.
   */
  datatype Request = Request(
    verb: string,
    path: string,
    queryParams: map<string, string>,
    encodedQuery: string,
    authorization: string,
    body: string)

  /**
   * Cancellation of the request context. The context reports itself
   * cancelled from check number `cancelAfter` on (counting from 0); once
   * cancelled it stays cancelled.
   */
  predicate Cancelled(cancelAfter: Option<nat>, check: nat) {
    cancelAfter.Some? && check >= cancelAfter.value
  }

  /** How many of `available` reads a loop that checks for cancellation
   * before each read, starting at check number `checks`, gets to make. */
  function Budget(available: nat, checks: nat, cancelAfter: Option<nat>): (n: nat)
    ensures n <= available
    ensures cancelAfter.None? ==> n == available
  {
    match cancelAfter
    case None => available
    case Some(limit) => if checks >= limit then 0 else if available <= limit - checks then available else limit - checks
  }

  /**
   * The budget is the first check that finds the context cancelled: every
   * check before it passes, and it either uses up what is available or
   * stops at a cancelled check.
   */
  lemma BudgetIsFirstCancel(available: nat, checks: nat, cancelAfter: Option<nat>)
    ensures var n := Budget(available, checks, cancelAfter);
      && (forall c :: checks <= c < checks + n ==> !Cancelled(cancelAfter, c))
      && (n == available || Cancelled(cancelAfter, checks + n))
  {
  }

  /** A loop within its budget that finds the context cancelled has used it up. */
  lemma CancelledEndsBudget(available: nat, checks: nat, cancelAfter: Option<nat>, k: nat)
    requires k <= Budget(available, checks, cancelAfter) && Cancelled(cancelAfter, checks + k)
    ensures k == Budget(available, checks, cancelAfter)
  {
  }

  /** A loop that finds the context not cancelled with reads left is still within its budget. */
  lemma UncancelledWithinBudget(available: nat, checks: nat, cancelAfter: Option<nat>, k: nat)
    requires k < available && !Cancelled(cancelAfter, checks + k)
    ensures k < Budget(available, checks, cancelAfter)
  {
  }

  /** One line read uses up one unit of the budget. */
  lemma BudgetStep(available: nat, checks: nat, cancelAfter: Option<nat>)
    requires available > 0 && !Cancelled(cancelAfter, checks)
    ensures Budget(available, checks, cancelAfter) == Budget(available - 1, checks + 1, cancelAfter) + 1
  {
  }

  /**
   * The headers after an abort: an abort labels the
   * response as JSON unless it already has a content type, whether or not
   * the status allows a body.
   */
  function AbortHeaders(committed: bool, headers: map<string, string>): map<string, string> {
    if committed || "Content-Type" in headers then headers
    else headers["Content-Type" := JsonContentType]
  }

  /** Everything a response writer holds at one moment. */
  datatype Reply = Reply(status: int, committed: bool, headers: map<string, string>, body: seq<Chunk>)

  /** gin's `ResponseWriter`: what the client receives. */
  class ResponseWriter {
    var status: int
    /** The status line and headers have gone out; nothing can change them any more. */
    var committed: bool
    var headers: map<string, string>
    var body: seq<Chunk>

    /** The writer's fields as one value. */
    function State(): (r: Reply)
      reads this
      ensures r.status == status && r.committed == committed && r.headers == headers && r.body == body
    {
      Reply(status, committed, headers, body)
    }

    constructor ()
      ensures status == StatusOK && !committed && headers == map[] && body == []
    {
      status, committed, headers, body := StatusOK, false, map[], [];
    }

    /** `Header().Set`: only effective while the headers have not gone out. */
    method SetHeader(name: string, value: string)
      modifies this
      ensures headers == if old(committed) then old(headers) else old(headers)[name := value]
      ensures status == old(status) && committed == old(committed) && body == old(body)
    {
      if !committed {
        headers := headers[name := value];
      }
    }

    /** `WriteHeader`: records the status unless the response is already committed. */
    method WriteHeader(code: int)
      modifies this
      ensures status == if old(committed) then old(status) else code
      ensures committed == old(committed) && headers == old(headers) && body == old(body)
    {
      if !committed {
        status := code;
      }
    }

    /** `WriteHeaderNow`: commits the status recorded so far. */
    method WriteHeaderNow()
      modifies this
      ensures committed
      ensures status == old(status) && headers == old(headers) && body == old(body)
    {
      committed := true;
    }

    /** `Write`: commits the status, then appends to the body. */
    method Write(chunk: Chunk)
      modifies this
      ensures committed && body == old(body) + [chunk]
      ensures status == old(status) && headers == old(headers)
    {
      committed := true;
      body := body + [chunk];
    }

    /** `Flush`: commits the status; the body is unchanged. */
    method Flush()
      modifies this
      ensures committed
      ensures status == old(status) && headers == old(headers) && body == old(body)
    {
      committed := true;
    }
  }

  /** `gin.Context`: one request being served. */
  class Context {
    const request: Request
    const cancelAfter: Option<nat>
    const writer: ResponseWriter
    /** How many times the handler has asked whether the context is cancelled. */
    var checks: nat
    var isAborted: bool

    constructor (request: Request, cancelAfter: Option<nat>, writer: ResponseWriter)
      ensures this.request == request && this.cancelAfter == cancelAfter && this.writer == writer
      ensures checks == 0 && !isAborted
    {
      this.request, this.cancelAfter, this.writer := request, cancelAfter, writer;
      checks, isAborted := 0, false;
    }

    /** `Request.Context().Err() != nil`. */
    method Err() returns (cancelled: bool)
      modifies this
      ensures cancelled == Cancelled(cancelAfter, old(checks))
      ensures checks == old(checks) + 1 && isAborted == old(isAborted)
    {
      cancelled := Cancelled(cancelAfter, checks);
      checks := checks + 1;
    }

    /**
     * `AbortWithStatus`: records the status, sends the status line and the
     * headers as they stand, and stops the handler chain.
     */
    method AbortWithStatus(code: int)
      modifies this, writer
      ensures isAborted && checks == old(checks)
      ensures writer.committed
      ensures writer.status == if old(writer.committed) then old(writer.status) else code
      ensures writer.headers == old(writer.headers) && writer.body == old(writer.body)
    {
      writer.WriteHeader(code);
      writer.WriteHeaderNow();
      isAborted := true;
    }

    /**
     * `BindJSON`: parses the request body with `bind`; when that fails it
     * aborts with 400 through `AbortWithError`, which sends the status line
     * before the handler can add anything.
     */
    method BindJSON<T>(bind: string -> Option<T>) returns (r: Option<T>)
      modifies this, writer
      ensures r == bind(request.body)
      ensures r.Some? ==> unchanged(this, writer)
      ensures r.None? ==>
        && isAborted && checks == old(checks) && writer.committed
        && writer.status == (if old(writer.committed) then old(writer.status) else StatusBadRequest)
        && writer.headers == old(writer.headers) && writer.body == old(writer.body)
    {
      r := bind(request.body);
      if r.None? {
        AbortWithStatus(StatusBadRequest);
      }
    }

    /**
     * `AbortWithStatusJSON`: stops the handler chain, records the status,
     * labels the response as JSON unless a content type was already set, and
     * writes the JSON value when the status allows a body (gin's `Render`
     * sets the content type in both cases).
     */
    method AbortWithStatusJSON(code: int, value: Json)
      modifies this, writer
      ensures isAborted && checks == old(checks)
      ensures writer.committed
      ensures writer.status == if old(writer.committed) then old(writer.status) else code
      ensures writer.body == old(writer.body) + if BodyAllowed(code) then [Encoded(value)] else []
      ensures writer.headers == AbortHeaders(old(writer.committed), old(writer.headers))
    {
      isAborted := true;
      writer.WriteHeader(code);
      if "Content-Type" !in writer.headers {
        writer.SetHeader("Content-Type", JsonContentType);
      }
      if BodyAllowed(code) {
        writer.Write(Encoded(value));
      } else {
        writer.WriteHeaderNow();
      }
    }

    /**
     * What gin's Recovery middleware does after a handler panicked: abort
     * with status 500 and no body.
     */
    method Recover()
      modifies this, writer
      ensures isAborted && checks == old(checks)
      ensures writer.committed
      ensures writer.status == if old(writer.committed) then old(writer.status) else StatusInternalServerError
      ensures writer.body == old(writer.body) && writer.headers == old(writer.headers)
    {
      writer.WriteHeader(StatusInternalServerError);
      writer.WriteHeaderNow();
      isAborted := true;
    }
  }
}
