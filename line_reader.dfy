/**
 * The SSE line reader: a `bufio.Reader` over an upstream response body, read
 * with `ReadString('\n')`. The body is the text the upstream delivers before
 * the stream ends; a read error and the end of the stream look the same to
 * both relay loops, which stop at either.
 */
module LineReader {
  import opened Wrappers
  import opened Text

  /** A line as `ReadString('\n')` returns it: its only '\n' is its last character. */
  predicate IsLine(line: string) {
    |line| > 0 && line[|line| - 1] == '\n' && forall k :: 0 <= k < |line| - 1 ==> line[k] != '\n'
  }

  /** Lines that are all read lines. */
  predicate AllLines(lines: seq<string>) {
    forall k :: 0 <= k < |lines| ==> IsLine(lines[k])
  }

  lemma AllLinesAppend(a: seq<string>, b: seq<string>)
    requires AllLines(a) && AllLines(b)
    ensures AllLines(a + b)
  {
    forall k | 0 <= k < |a + b| ensures IsLine((a + b)[k]) {
      if k < |a| { assert (a + b)[k] == a[k]; } else { assert (a + b)[k] == b[k - |a|]; }
    }
  }

  lemma AllLinesSlice(a: seq<string>, lo: nat, hi: nat)
    requires AllLines(a) && lo <= hi <= |a|
    ensures AllLines(a[lo..hi])
  {
    forall k | 0 <= k < hi - lo ensures IsLine(a[lo..hi][k]) {
      assert a[lo..hi][k] == a[lo + k];
    }
  }

  /** The first '\n' of `s` is at index `i`. */
  predicate FirstNewlineAt(s: string, i: nat) {
    i < |s| && s[i] == '\n' && forall k :: 0 <= k < i ==> s[k] != '\n'
  }

  /** Where `ReadString('\n')` stops: the index of the first '\n', if there is one. */
  function NextNewline(s: string): (r: Option<nat>)
    ensures r.Some? ==> FirstNewlineAt(s, r.value)
    ensures r.None? ==> forall k :: 0 <= k < |s| ==> s[k] != '\n'
  {
    if s == [] then None
    else if s[0] == '\n' then Some(0)
    else
      match NextNewline(s[1..])
      case None => None
      case Some(j) => Some(j + 1)
  }

  /** The first newline is where the scan stops. */
  lemma FirstNewlineIsNext(s: string, i: nat)
    requires FirstNewlineAt(s, i)
    ensures NextNewline(s) == Some(i)
  {
  }

  /**
   * The complete lines of `s`, in order, each with its '\n'; text after the
   * last '\n' is not a complete line.
   */
  function CompleteLines(s: string): (lines: seq<string>)
    decreases |s|
  {
    match NextNewline(s)
    case None => []
    case Some(i) => [s[..i + 1]] + CompleteLines(s[i + 1..])
  }

  /** Every complete line is a line as `ReadString('\n')` returns it. */
  lemma {:induction false} CompleteLinesAreLines(s: string)
    ensures AllLines(CompleteLines(s))
    decreases |s|
  {
    match NextNewline(s)
    case None =>
    case Some(i) =>
      var first := s[..i + 1];
      assert IsLine(first) by {
        assert forall k :: 0 <= k < i ==> first[k] == s[k];
      }
      CompleteLinesAreLines(s[i + 1..]);
      AllLinesAppend([first], CompleteLines(s[i + 1..]));
  }

  /** The text after the last '\n' of `s`, which no read returns as a line. */
  function Remainder(s: string): (rest: string)
    ensures forall k :: 0 <= k < |rest| ==> rest[k] != '\n'
    decreases |s|
  {
    match NextNewline(s)
    case None => s
    case Some(i) => Remainder(s[i + 1..])
  }

  /** The lines written one after the other. */
  function Concat(lines: seq<string>): string {
    if lines == [] then [] else lines[0] + Concat(lines[1..])
  }

  lemma ConcatCons(line: string, lines: seq<string>)
    ensures Concat([line] + lines) == line + Concat(lines)
  {
    assert ([line] + lines)[1..] == lines;
  }

  /** Splitting a body into lines and a remainder loses nothing. */
  lemma {:induction false} LinesRoundTrip(s: string)
    ensures Concat(CompleteLines(s)) + Remainder(s) == s
    decreases |s|
  {
    match NextNewline(s)
    case None =>
    case Some(i) =>
      var first, rest := s[..i + 1], s[i + 1..];
      assert CompleteLines(s) == [first] + CompleteLines(rest);
      assert Remainder(s) == Remainder(rest);
      assert s == first + rest;
      LinesRoundTrip(rest);
      ConcatCons(first, CompleteLines(rest));
      AppendAssoc(first, Concat(CompleteLines(rest)), Remainder(rest));
  }

  /**
   * Framing the other way round: lines written one after the other, followed
   * by text without a '\n', are read back as exactly those lines.
   */
  lemma {:induction false} LinesOfConcat(lines: seq<string>, tail: string)
    requires AllLines(lines)
    requires forall k :: 0 <= k < |tail| ==> tail[k] != '\n'
    ensures CompleteLines(Concat(lines) + tail) == lines
    ensures Remainder(Concat(lines) + tail) == tail
  {
    var s := Concat(lines) + tail;
    if lines == [] {
    } else {
      var first := lines[0];
      var after := Concat(lines[1..]) + tail;
      assert s == first + after;
      assert FirstNewlineAt(s, |first| - 1) by {
        assert forall k :: 0 <= k < |first| ==> s[k] == first[k];
      }
      FirstNewlineIsNext(s, |first| - 1);
      assert s[..|first|] == first;
      assert s[|first|..] == after;
      LinesOfConcat(lines[1..], tail);
    }
  }

  /** A `bufio.Reader` over a response body, read line by line. */
  class Reader {
    /** What the upstream has delivered and no read has returned yet. */
    var unread: string

    constructor (body: string)
      ensures unread == body
    {
      unread := body;
    }

    /**
     * `ReadString('\n')`: the next complete line, or, when no '\n' is left,
     * the rest of the text together with a failure (`io.EOF`).
     */
    method ReadString() returns (line: string, ok: bool)
      modifies this
      ensures ok == (CompleteLines(old(unread)) != [])
      ensures ok ==> line == CompleteLines(old(unread))[0]
      ensures ok ==> CompleteLines(unread) == CompleteLines(old(unread))[1..]
      ensures ok ==> |unread| < |old(unread)|
      ensures !ok ==> line == old(unread) && unread == []
    {
      var i := 0;
      while i < |unread| && unread[i] != '\n'
        invariant 0 <= i <= |unread|
        invariant forall k :: 0 <= k < i ==> unread[k] != '\n'
      {
        i := i + 1;
      }
      if i == |unread| {
        line, ok := unread, false;
        unread := [];
      } else {
        FirstNewlineIsNext(unread, i);
        line, ok := unread[..i + 1], true;
        unread := unread[i + 1..];
      }
    }
  }
}
