/**
 * The conversation relay of the ChatGPT backend: what `handleConversationResponse`
 * does with the lines of one upstream event stream. It filters the lines as
 * the platform relay does, cuts the "data: " prefix off each forwarded line to
 * look at its JSON payload, notices an answer cut short at the token limit,
 * and hides the "[DONE]" terminator once such an answer has been seen and the
 * client asked for automatic continuation.
 */
module Relay {
  import opened Wrappers
  import opened Text
  import opened Gin
  import opened LineReader
  import opened EventStream

  const ResponseTypeMaxTokens := "max_tokens"
  const ResponseStatusFinishedSuccessfully := "finished_successfully"
  const DonePrefix := "[DONE]"

  /** The fields of a decoded message event the relay looks at. */
  datatype Fragment = Fragment(id: string, status: string, finishType: string, conversationId: string)

  /**
   * `json.Unmarshal` of a payload into a conversation response, as an oracle:
   * None when the payload does not decode.
   */
  type Decoder = string -> Option<Fragment>

  /** The decoded fields; a payload that does not decode leaves them all empty. */
  function Decoded(decode: Decoder, payload: string): Fragment {
    match decode(payload)
    case Some(f) => f
    case None => Fragment("", "", "", "")
  }

  /**
   * The two-stage test for an answer cut short at the token limit: the raw
   * payload must mention "max_tokens" before it is decoded at all, and the
   * decoded finish type and status must then match.
   */
  predicate Qualifies(payload: string, decode: Decoder) {
    && TrimSpace(payload) != []
    && Contains(payload, ResponseTypeMaxTokens)
    && Decoded(decode, payload).finishType == ResponseTypeMaxTokens
    && Decoded(decode, payload).status == ResponseStatusFinishedSuccessfully
  }

  /** `isMaxTokens`, `continueParentMessageID` and `continueConversationID`. */
  datatype RelayState = RelayState(isMaxTokens: bool, parentMessageId: string, conversationId: string)

  const Initial := RelayState(false, "", "")

  /** The frames written so far, the relay's state, and whether `line[6:]` has panicked. */
  datatype Pass = Pass(frames: seq<string>, state: RelayState, panicked: bool)

  const Fresh := Pass([], Initial, false)

  /** The state after a payload is forwarded: a qualifying one records its ids. */
  function Observe(state: RelayState, payload: string, decode: Decoder): (r: RelayState)
    ensures !Qualifies(payload, decode) ==> r == state
    ensures Qualifies(payload, decode) ==>
      r.isMaxTokens && r.parentMessageId == Decoded(decode, payload).id && r.conversationId == Decoded(decode, payload).conversationId
    ensures r.isMaxTokens == (state.isMaxTokens || Qualifies(payload, decode))
  {
    if Qualifies(payload, decode) then
      var f := Decoded(decode, payload);
      RelayState(true, f.id, f.conversationId)
    else state
  }

  /** A trimmed line whose payload is the terminator, hidden because a continuation will follow. */
  predicate Suppressed(state: RelayState, line: string, autoContinue: bool)
    requires |line| >= 6
    ensures Suppressed(state, line, autoContinue) ==> autoContinue && state.isMaxTokens
  {
    HasPrefix(line[6..], DonePrefix) && state.isMaxTokens && autoContinue
  }

  /** The standard terminator line is hidden whenever a continuation will follow. */
  lemma DoneLineSuppressed(state: RelayState, line: string, autoContinue: bool)
    requires HasPrefix(line, "data: " + DonePrefix) && state.isMaxTokens && autoContinue
    ensures |line| >= 6 && Suppressed(state, line, autoContinue)
  {
    var n := |"data: " + DonePrefix|;
    assert line[6..][..|DonePrefix|] == line[..n][6..];
  }

  /** One turn of the loop, for a line that was read. */
  function Step(p: Pass, raw: string, autoContinue: bool, decode: Decoder): (q: Pass)
    ensures p.panicked ==> q == p
    ensures q.frames == p.frames || q.frames == p.frames + [Frame(TrimSpace(raw))]
    ensures q.panicked <==> p.panicked || (!IsNoise(TrimSpace(raw)) && |TrimSpace(raw)| < 6)
  {
    if p.panicked then p
    else
      var line := TrimSpace(raw);
      if IsNoise(line) then p
      else if |line| < 6 then p.(panicked := true)
      else if Suppressed(p.state, line, autoContinue) then p
      else Pass(p.frames + [Frame(line)], Observe(p.state, line[6..], decode), false)
  }

  /** A step writes a frame only for a forwarded line, and then observes its payload. */
  lemma StepFrameOnlyForwarded(p: Pass, raw: string, autoContinue: bool, decode: Decoder)
    requires Step(p, raw, autoContinue, decode).frames != p.frames
    ensures var t := TrimSpace(raw);
      && !p.panicked && !IsNoise(t) && |t| >= 6 && !Suppressed(p.state, t, autoContinue)
      && Step(p, raw, autoContinue, decode).state == Observe(p.state, t[6..], decode)
  {
  }

  /** A step on a noise line changes nothing. */
  lemma StepNoise(p: Pass, raw: string, autoContinue: bool, decode: Decoder)
    requires IsNoise(TrimSpace(raw))
    ensures Step(p, raw, autoContinue, decode) == p
  {
  }

  /** A step on a line too short for `line[6:]` panics. */
  lemma StepShort(p: Pass, raw: string, autoContinue: bool, decode: Decoder)
    requires !p.panicked && !IsNoise(TrimSpace(raw)) && |TrimSpace(raw)| < 6
    ensures Step(p, raw, autoContinue, decode) == p.(panicked := true)
  {
  }

  /** A step on a hidden terminator changes nothing. */
  lemma StepSuppressed(p: Pass, raw: string, autoContinue: bool, decode: Decoder)
    requires !IsNoise(TrimSpace(raw)) && |TrimSpace(raw)| >= 6 && Suppressed(p.state, TrimSpace(raw), autoContinue)
    ensures Step(p, raw, autoContinue, decode) == p
  {
  }

  /** A step on any other line forwards it and observes its payload. */
  lemma StepForward(p: Pass, raw: string, autoContinue: bool, decode: Decoder)
    requires !p.panicked && !IsNoise(TrimSpace(raw)) && |TrimSpace(raw)| >= 6
    requires !Suppressed(p.state, TrimSpace(raw), autoContinue)
    ensures var t := TrimSpace(raw);
      Step(p, raw, autoContinue, decode) == Pass(p.frames + [Frame(t)], Observe(p.state, t[6..], decode), false)
  {
  }

  /** A step writes at most one frame, and a well-formed one. */
  lemma StepFrames(p: Pass, raw: string, autoContinue: bool, decode: Decoder)
    requires IsLine(raw)
    requires forall k :: 0 <= k < |p.frames| ==> IsFrame(p.frames[k])
    ensures |Step(p, raw, autoContinue, decode).frames| <= |p.frames| + 1
    ensures forall k :: 0 <= k < |Step(p, raw, autoContinue, decode).frames| ==> IsFrame(Step(p, raw, autoContinue, decode).frames[k])
  {
    var q := Step(p, raw, autoContinue, decode);
    if q.frames != p.frames {
      FrameOfLine(raw);
      assert q.frames == p.frames + [Frame(TrimSpace(raw))];
    }
  }

  /**
   * The relay over the lines read, in order; after a panic nothing more
   * happens. Every frame is a trimmed line that is not noise, framed.
   */
  function Relay(lines: seq<string>, autoContinue: bool, decode: Decoder): (p: Pass)
    requires AllLines(lines)
    ensures |p.frames| <= |lines|
    ensures forall k :: 0 <= k < |p.frames| ==> IsFrame(p.frames[k])
  {
    if lines == [] then Fresh
    else
      var last := lines[|lines| - 1];
      var before := Relay(lines[..|lines| - 1], autoContinue, decode);
      StepFrames(before, last, autoContinue, decode);
      Step(before, last, autoContinue, decode)
  }

  /** Relaying one more line is one more step. */
  lemma RelaySnoc(lines: seq<string>, line: string, autoContinue: bool, decode: Decoder)
    requires AllLines(lines)
    requires IsLine(line)
    ensures AllLines(lines + [line])
    ensures Relay(lines + [line], autoContinue, decode) == Step(Relay(lines, autoContinue, decode), line, autoContinue, decode)
  {
    assert (lines + [line])[..|lines|] == lines;
  }

  /** A step only appends frames, changes nothing after a panic, and never clears the flag. */
  lemma StepMonotone(p: Pass, raw: string, autoContinue: bool, decode: Decoder)
    ensures p.frames <= Step(p, raw, autoContinue, decode).frames
    ensures p.panicked ==> Step(p, raw, autoContinue, decode) == p
    ensures p.state.isMaxTokens ==> Step(p, raw, autoContinue, decode).state.isMaxTokens
  {
  }

  lemma PrefixTrans<T>(a: seq<T>, b: seq<T>, c: seq<T>)
    requires a <= b && b <= c
    ensures a <= c
  {
    assert c[..|a|] == b[..|a|];
  }

  /**
   * What the client has received is never taken back: relaying more lines
   * only appends frames, and after a panic nothing changes at all.
   */
  lemma {:induction false} RelayExtends(a: seq<string>, b: seq<string>, autoContinue: bool, decode: Decoder)
    requires AllLines(a) && AllLines(b)
    ensures AllLines(a + b)
    ensures Relay(a, autoContinue, decode).frames <= Relay(a + b, autoContinue, decode).frames
    ensures Relay(a, autoContinue, decode).panicked ==> Relay(a + b, autoContinue, decode) == Relay(a, autoContinue, decode)
    ensures Relay(a, autoContinue, decode).state.isMaxTokens ==> Relay(a + b, autoContinue, decode).state.isMaxTokens
    decreases |b|
  {
    AllLinesAppend(a, b);
    if b == [] {
      assert a + b == a;
    } else {
      var front, last := b[..|b| - 1], b[|b| - 1];
      AllLinesSlice(b, 0, |b| - 1);
      RelayExtends(a, front, autoContinue, decode);
      AllLinesAppend(a, front);
      AppendSnoc(a, b);
      var r, p := Relay(a, autoContinue, decode), Relay(a + front, autoContinue, decode);
      RelaySnoc(a + front, last, autoContinue, decode);
      var q := Relay(a + b, autoContinue, decode);
      assert q == Step(p, last, autoContinue, decode);
      StepMonotone(p, last, autoContinue, decode);
      PrefixTrans(r.frames, p.frames, q.frames);
    }
  }

  /**
   * The line `raw`, read when the relay stood at `p`, is one whose payload
   * qualifies and is recorded.
   */
  predicate Signals(p: Pass, raw: string, autoContinue: bool, decode: Decoder) {
    var line := TrimSpace(raw);
    && !p.panicked && !IsNoise(line) && |line| >= 6
    && !Suppressed(p.state, line, autoContinue)
    && Qualifies(line[6..], decode)
  }

  /** The index of the last line that signals a cut-short answer, if any. */
  function LastSignal(lines: seq<string>, autoContinue: bool, decode: Decoder): (r: Option<nat>)
    requires AllLines(lines)
    ensures r.Some? ==> r.value < |lines|
    ensures r.Some? ==> var t := TrimSpace(lines[r.value]); |t| >= 6 && Qualifies(t[6..], decode)
  {
    if lines == [] then None
    else
      var front := lines[..|lines| - 1];
      if Signals(Relay(front, autoContinue, decode), lines[|lines| - 1], autoContinue, decode) then Some(|lines| - 1)
      else LastSignal(front, autoContinue, decode)
  }

  /** The line at index `j` signals, read after the lines before it. */
  predicate SignalsAt(lines: seq<string>, j: nat, autoContinue: bool, decode: Decoder)
    requires AllLines(lines) && j < |lines|
  {
    AllLinesSlice(lines, 0, j);
    Signals(Relay(lines[..j], autoContinue, decode), lines[j], autoContinue, decode)
  }

  /** A line before the last one signals in the lines as in their front. */
  lemma SignalsAtFront(lines: seq<string>, j: nat, autoContinue: bool, decode: Decoder)
    requires AllLines(lines) && j + 1 < |lines|
    ensures AllLines(lines[..|lines| - 1])
    ensures SignalsAt(lines, j, autoContinue, decode) == SignalsAt(lines[..|lines| - 1], j, autoContinue, decode)
  {
    AllLinesSlice(lines, 0, |lines| - 1);
    assert lines[..|lines| - 1][..j] == lines[..j];
  }

  /**
   * `LastSignal` finds the last line that signals: that line signals and no
   * later one does, and None means that no line signals at all.
   */
  lemma {:induction false} LastSignalIsLast(lines: seq<string>, autoContinue: bool, decode: Decoder)
    requires AllLines(lines)
    ensures var r := LastSignal(lines, autoContinue, decode);
      && (r.Some? ==> SignalsAt(lines, r.value, autoContinue, decode)
                      && forall j :: r.value < j < |lines| ==> !SignalsAt(lines, j, autoContinue, decode))
      && (r.None? ==> forall j :: 0 <= j < |lines| ==> !SignalsAt(lines, j, autoContinue, decode))
    decreases |lines|
  {
    if lines != [] {
      var n := |lines| - 1;
      var front := lines[..n];
      LastSignalStep(lines, autoContinue, decode);
      if !SignalsAt(lines, n, autoContinue, decode) {
        LastSignalIsLast(front, autoContinue, decode);
        SignalsInFront(lines, front, autoContinue, decode);
        NoSignalAtEnd(lines, front, autoContinue, decode, LastSignal(front, autoContinue, decode));
      }
    }
  }

  /** Every line before the last one signals in the lines exactly as in their front. */
  lemma SignalsInFront(lines: seq<string>, front: seq<string>, autoContinue: bool, decode: Decoder)
    requires AllLines(lines) && lines != [] && front == lines[..|lines| - 1]
    ensures AllLines(front)
    ensures forall j :: 0 <= j < |front| ==> SignalsAt(lines, j, autoContinue, decode) == SignalsAt(front, j, autoContinue, decode)
  {
    AllLinesSlice(lines, 0, |front|);
    forall j | 0 <= j < |front|
      ensures SignalsAt(lines, j, autoContinue, decode) == SignalsAt(front, j, autoContinue, decode)
    {
      SignalsAtFront(lines, j, autoContinue, decode);
    }
  }

  /** When the last line does not signal, the last signal of the front is the last signal of the lines. */
  lemma NoSignalAtEnd(lines: seq<string>, front: seq<string>, autoContinue: bool, decode: Decoder, r: Option<nat>)
    requires AllLines(lines) && AllLines(front) && |lines| == |front| + 1
    requires !SignalsAt(lines, |front|, autoContinue, decode)
    requires forall j :: 0 <= j < |front| ==> SignalsAt(lines, j, autoContinue, decode) == SignalsAt(front, j, autoContinue, decode)
    requires r.Some? ==> r.value < |front| && SignalsAt(front, r.value, autoContinue, decode)
                         && forall j :: r.value < j < |front| ==> !SignalsAt(front, j, autoContinue, decode)
    requires r.None? ==> forall j :: 0 <= j < |front| ==> !SignalsAt(front, j, autoContinue, decode)
    ensures r.Some? ==> SignalsAt(lines, r.value, autoContinue, decode)
                        && forall j :: r.value < j < |lines| ==> !SignalsAt(lines, j, autoContinue, decode)
    ensures r.None? ==> forall j :: 0 <= j < |lines| ==> !SignalsAt(lines, j, autoContinue, decode)
  {
    forall j | (if r.Some? then r.value else -1) < j < |lines|
      ensures !SignalsAt(lines, j, autoContinue, decode)
    {
      if j < |front| {
        assert SignalsAt(lines, j, autoContinue, decode) == SignalsAt(front, j, autoContinue, decode);
        assert !SignalsAt(front, j, autoContinue, decode);
      } else {
        assert j == |front|;
      }
    }
    if r.Some? {
      assert SignalsAt(lines, r.value, autoContinue, decode) == SignalsAt(front, r.value, autoContinue, decode);
    }
  }

  /** `LastSignal` looks at the last line first, and otherwise at the lines before it. */
  lemma LastSignalStep(lines: seq<string>, autoContinue: bool, decode: Decoder)
    requires AllLines(lines) && lines != []
    ensures AllLines(lines[..|lines| - 1])
    ensures LastSignal(lines, autoContinue, decode) ==
      if SignalsAt(lines, |lines| - 1, autoContinue, decode) then Some(|lines| - 1)
      else LastSignal(lines[..|lines| - 1], autoContinue, decode)
  {
    AllLinesSlice(lines, 0, |lines| - 1);
  }

  /** The state a signalling line records. */
  function Recorded(raw: string, decode: Decoder): RelayState
    requires |TrimSpace(raw)| >= 6
  {
    var f := Decoded(decode, TrimSpace(raw)[6..]);
    RelayState(true, f.id, f.conversationId)
  }

  /** A step changes the state exactly when its line signals, and then records that line. */
  lemma StepState(p: Pass, raw: string, autoContinue: bool, decode: Decoder)
    ensures Signals(p, raw, autoContinue, decode) ==> Step(p, raw, autoContinue, decode).state == Recorded(raw, decode)
    ensures !Signals(p, raw, autoContinue, decode) ==> Step(p, raw, autoContinue, decode).state == p.state
  {
  }

  /**
   * The relay's state at the end of the lines: no signal leaves the initial
   * state; otherwise the flag is set and the ids are those decoded from the
   * last line that signalled.
   */
  lemma {:induction false} RelayStateIsLastSignal(lines: seq<string>, autoContinue: bool, decode: Decoder)
    requires AllLines(lines)
    ensures LastSignal(lines, autoContinue, decode).None? ==> Relay(lines, autoContinue, decode).state == Initial
    ensures LastSignal(lines, autoContinue, decode).Some? ==>
      Relay(lines, autoContinue, decode).state == Recorded(lines[LastSignal(lines, autoContinue, decode).value], decode)
  {
    if lines != [] {
      var front := lines[..|lines| - 1];
      var last := lines[|lines| - 1];
      AllLinesSlice(lines, 0, |lines| - 1);
      RelayStateIsLastSignal(front, autoContinue, decode);
      var before := Relay(front, autoContinue, decode);
      assert Relay(lines, autoContinue, decode) == Step(before, last, autoContinue, decode);
      StepState(before, last, autoContinue, decode);
      if !Signals(before, last, autoContinue, decode) {
        assert LastSignal(lines, autoContinue, decode) == LastSignal(front, autoContinue, decode);
        match LastSignal(front, autoContinue, decode)
        case None =>
        case Some(i) =>
          assert lines[i] == front[i];
      }
    }
  }

  /** The flag is set exactly when some line signalled. */
  lemma FlagIffSignal(lines: seq<string>, autoContinue: bool, decode: Decoder)
    requires AllLines(lines)
    ensures Relay(lines, autoContinue, decode).state.isMaxTokens <==> LastSignal(lines, autoContinue, decode).Some?
  {
    RelayStateIsLastSignal(lines, autoContinue, decode);
  }

  /**
   * The terminator is hidden only when a cut-short answer was seen earlier in
   * the same stream and the client asked for continuation; any other line
   * that is not noise and survives `line[6:]` is forwarded, trimmed.
   */
  lemma LineFate(lines: seq<string>, line: string, autoContinue: bool, decode: Decoder)
    requires AllLines(lines) && IsLine(line)
    requires !Relay(lines, autoContinue, decode).panicked
    requires !IsNoise(TrimSpace(line)) && |TrimSpace(line)| >= 6
    ensures AllLines(lines + [line])
    ensures var t := TrimSpace(line);
      Relay(lines + [line], autoContinue, decode).frames ==
        if HasPrefix(t[6..], DonePrefix) && autoContinue && LastSignal(lines, autoContinue, decode).Some?
        then Relay(lines, autoContinue, decode).frames
        else Relay(lines, autoContinue, decode).frames + [Frame(t)]
  {
    RelaySnoc(lines, line, autoContinue, decode);
    FlagIffSignal(lines, autoContinue, decode);
  }

  /** Noise lines never reach the client and change nothing. */
  lemma NoiseIgnored(lines: seq<string>, line: string, autoContinue: bool, decode: Decoder)
    requires AllLines(lines) && IsLine(line) && IsNoise(TrimSpace(line))
    ensures AllLines(lines + [line])
    ensures Relay(lines + [line], autoContinue, decode) == Relay(lines, autoContinue, decode)
  {
    RelaySnoc(lines, line, autoContinue, decode);
  }

  /** A line that is not noise but shorter than "data: " makes `line[6:]` panic. */
  lemma ShortLinePanics(lines: seq<string>, line: string, autoContinue: bool, decode: Decoder)
    requires AllLines(lines) && IsLine(line)
    requires !IsNoise(TrimSpace(line)) && |TrimSpace(line)| < 6
    ensures AllLines(lines + [line])
    ensures Relay(lines + [line], autoContinue, decode).panicked
    ensures Relay(lines + [line], autoContinue, decode).frames == Relay(lines, autoContinue, decode).frames
  {
    RelaySnoc(lines, line, autoContinue, decode);
  }

  /**
   * The blank-payload guard in front of the substring test never decides
   * anything: a payload that contains "max_tokens" is never blank.
   */
  lemma BlankGuardRedundant(payload: string)
    requires Contains(payload, ResponseTypeMaxTokens)
    ensures TrimSpace(payload) != []
  {
    TrimSpaceKeepsVisible(payload, ResponseTypeMaxTokens);
  }

  /**
   * The lines that are not hidden terminators, in order: those the relay
   * treats as the platform filter would.
   */
  function Kept(lines: seq<string>, autoContinue: bool, decode: Decoder): (kept: seq<string>)
    requires AllLines(lines)
    ensures AllLines(kept) && |kept| <= |lines|
  {
    if lines == [] then []
    else
      var front := lines[..|lines| - 1];
      var last := lines[|lines| - 1];
      var t := TrimSpace(last);
      var p := Relay(front, autoContinue, decode);
      if !IsNoise(t) && |t| >= 6 && Suppressed(p.state, t, autoContinue) then Kept(front, autoContinue, decode)
      else
        AllLinesAppend(Kept(front, autoContinue, decode), [last]);
        Kept(front, autoContinue, decode) + [last]
  }

  /**
   * Up to a panic, the relay writes exactly what the platform filter writes
   * for the lines it keeps: every line that is not noise and not a hidden
   * terminator once, trimmed and framed, in read order.
   */
  lemma {:induction false} RelayIsFilterOfKept(lines: seq<string>, autoContinue: bool, decode: Decoder)
    requires AllLines(lines)
    requires !Relay(lines, autoContinue, decode).panicked
    ensures Relay(lines, autoContinue, decode).frames == Filter(Kept(lines, autoContinue, decode))
  {
    if lines != [] {
      var front := lines[..|lines| - 1];
      var last := lines[|lines| - 1];
      AllLinesSlice(lines, 0, |lines| - 1);
      FrontLast(lines);
      RelaySnoc(front, last, autoContinue, decode);
      var p := Relay(front, autoContinue, decode);
      StepMonotone(p, last, autoContinue, decode);
      RelayIsFilterOfKept(front, autoContinue, decode);
      var kept := Kept(front, autoContinue, decode);
      var t := TrimSpace(last);
      FilterAppend(kept, [last]);
      FilterOne(last);
      if IsNoise(t) {
        assert Kept(lines, autoContinue, decode) == kept + [last];
        AppendNil(Filter(kept));
      } else if |t| < 6 {
        assert false;
      } else if Suppressed(p.state, t, autoContinue) {
        assert Kept(lines, autoContinue, decode) == kept;
      } else {
        assert Kept(lines, autoContinue, decode) == kept + [last];
      }
    }
  }

  /** Without automatic continuation nothing is hidden: the relay is the platform filter. */
  lemma {:induction false} NoContinueKeepsAll(lines: seq<string>, decode: Decoder)
    requires AllLines(lines)
    ensures Kept(lines, false, decode) == lines
  {
    if lines != [] {
      var front := lines[..|lines| - 1];
      AllLinesSlice(lines, 0, |lines| - 1);
      NoContinueKeepsAll(front, decode);
      FrontLast(lines);
    }
  }

  /** So without automatic continuation, and short of a panic, both relays write the same frames. */
  lemma RelayMatchesPlatform(lines: seq<string>, decode: Decoder)
    requires AllLines(lines)
    requires !Relay(lines, false, decode).panicked
    ensures Relay(lines, false, decode).frames == Filter(lines)
  {
    RelayIsFilterOfKept(lines, false, decode);
    NoContinueKeepsAll(lines, decode);
  }

  /** The loop's outcome: the relay's pass and the number of cancellation checks made by then. */
  datatype Run = Run(pass: Pass, checks: nat)

  /**
   * The loop of `handleConversationResponse` over the complete lines of the
   * body, from the pass `p` and cancellation check number `checks`: check for
   * cancellation, read a line (stopping when none is left), handle it, and go
   * round again unless `line[6:]` panicked.
   */
  function Drive(lines: seq<string>, checks: nat, cancelAfter: Option<nat>, autoContinue: bool, decode: Decoder, p: Pass): (r: Run)
    ensures r.checks > checks
    decreases |lines|
  {
    if Cancelled(cancelAfter, checks) || lines == [] then Run(p, checks + 1)
    else
      var q := Step(p, lines[0], autoContinue, decode);
      if q.panicked then Run(q, checks + 1)
      else Drive(lines[1..], checks + 1, cancelAfter, autoContinue, decode, q)
  }

  /**
   * The loop relays exactly the lines read before cancellation: its pass is
   * the relay over that prefix of the body's lines, a panic included.
   */
  lemma {:induction false} DriveIsRelay(done: seq<string>, lines: seq<string>, checks: nat,
                                         cancelAfter: Option<nat>, autoContinue: bool, decode: Decoder)
    requires AllLines(done) && AllLines(lines)
    requires !Relay(done, autoContinue, decode).panicked
    ensures AllLines(done + lines[..Budget(|lines|, checks, cancelAfter)])
    ensures Drive(lines, checks, cancelAfter, autoContinue, decode, Relay(done, autoContinue, decode)).pass ==
            Relay(done + lines[..Budget(|lines|, checks, cancelAfter)], autoContinue, decode)
    decreases |lines|
  {
    var n := Budget(|lines|, checks, cancelAfter);
    AllLinesSlice(lines, 0, n);
    AllLinesAppend(done, lines[..n]);
    var p := Relay(done, autoContinue, decode);
    if Cancelled(cancelAfter, checks) || lines == [] {
      assert done + lines[..n] == done;
    } else {
      var x := lines[0];
      var rest := lines[1..];
      var m := Budget(|rest|, checks + 1, cancelAfter);
      BudgetStep(|lines|, checks, cancelAfter);
      PrefixShift(done, lines, n, m);
      AllLinesSlice(lines, 1, |lines|);
      AllLinesSlice(rest, 0, m);
      RelaySnoc(done, x, autoContinue, decode);
      var q := Relay(done + [x], autoContinue, decode);
      assert q == Step(p, x, autoContinue, decode);
      RelayExtends(done + [x], rest[..m], autoContinue, decode);
      if q.panicked {
        assert Relay(done + lines[..n], autoContinue, decode) == q;
        assert Drive(lines, checks, cancelAfter, autoContinue, decode, p) == Run(q, checks + 1);
      } else {
        assert Drive(lines, checks, cancelAfter, autoContinue, decode, p)
            == Drive(rest, checks + 1, cancelAfter, autoContinue, decode, q);
        DriveIsRelay(done + [x], rest, checks + 1, cancelAfter, autoContinue, decode);
      }
    }
  }

  /** From a fresh start, the loop's pass is the relay over the lines read before cancellation. */
  lemma DriveFromFresh(lines: seq<string>, checks: nat, cancelAfter: Option<nat>, autoContinue: bool, decode: Decoder)
    requires AllLines(lines)
    ensures AllLines(lines[..Budget(|lines|, checks, cancelAfter)])
    ensures Drive(lines, checks, cancelAfter, autoContinue, decode, Fresh).pass ==
            Relay(lines[..Budget(|lines|, checks, cancelAfter)], autoContinue, decode)
  {
    var n := Budget(|lines|, checks, cancelAfter);
    assert Relay([], autoContinue, decode) == Fresh;
    DriveIsRelay([], lines, checks, cancelAfter, autoContinue, decode);
    assert [] + lines[..n] == lines[..n];
  }

  lemma PrefixShift(done: seq<string>, lines: seq<string>, n: nat, m: nat)
    requires n == m + 1 <= |lines|
    ensures done + lines[..n] == (done + [lines[0]]) + lines[1..][..m]
  {
    assert lines[..n] == [lines[0]] + lines[1..][..m];
  }

  /** One turn of the loop on the line at index `k`, when the context is not cancelled. */
  lemma DriveTurn(lines: seq<string>, k: nat, checks: nat, cancelAfter: Option<nat>, autoContinue: bool, decode: Decoder, p: Pass)
    requires k < |lines| && !Cancelled(cancelAfter, checks) && !p.panicked
    ensures var q := Step(p, lines[k], autoContinue, decode);
      Drive(lines[k..], checks, cancelAfter, autoContinue, decode, p) ==
        if q.panicked then Run(q, checks + 1) else Drive(lines[k + 1..], checks + 1, cancelAfter, autoContinue, decode, q)
  {
    assert lines[k..][0] == lines[k] && lines[k..][1..] == lines[k + 1..];
  }

  /** The loop ends at a cancelled check or when no line is left. */
  lemma DriveStops(lines: seq<string>, k: nat, checks: nat, cancelAfter: Option<nat>, autoContinue: bool, decode: Decoder, p: Pass)
    requires k <= |lines| && (Cancelled(cancelAfter, checks) || k == |lines|)
    ensures Drive(lines[k..], checks, cancelAfter, autoContinue, decode, p) == Run(p, checks + 1)
  {
    if k == |lines| {
      assert lines[k..] == [];
    }
  }

  /** A context cancelled before the first read relays nothing. */
  lemma CancelledRelaysNothing(lines: seq<string>, checks: nat, cancelAfter: Option<nat>, autoContinue: bool, decode: Decoder)
    requires Cancelled(cancelAfter, checks)
    ensures Drive(lines, checks, cancelAfter, autoContinue, decode, Fresh) == Run(Fresh, checks + 1)
  {
  }
}
