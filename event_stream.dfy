/**
 * The line filter both streaming relays apply to an upstream server-sent
 * events body: each line is trimmed; "event" lines, "data: 20..." lines and
 * blank lines are dropped; every other line goes to the client followed by a
 * blank line.
 */
module EventStream {
  import opened Text
  import opened Gin
  import opened LineReader

  const EventStreamContentType := "text/event-stream; charset=utf-8"

  /**
   * A trimmed line that neither relay forwards: an empty line, an "event"
   * line, or a data line whose payload starts with "20".
   */
  predicate IsNoise(line: string) {
    HasPrefix(line, "event") || HasPrefix(line, "data: 20") || line == []
  }

  /** A data line carrying a JSON object or the "[DONE]" terminator is never noise. */
  lemma DataLineNotNoise(line: string)
    requires HasPrefix(line, "data: {") || HasPrefix(line, "data: [")
    ensures !IsNoise(line)
  {
    assert line[0] == line[..7][0] == 'd' && line[6] == line[..7][6] != '2';
    if |line| >= 5 {
      assert line[..5][0] == line[0];
    }
    if |line| >= 8 {
      assert line[..8][6] == line[6];
    }
  }

  /** What a relay writes for a forwarded line: the line and an empty line. */
  function Frame(line: string): string {
    line + "\n\n"
  }

  /** A frame carries one trimmed, non-noise line without a line break, then "\n\n". */
  predicate IsFrame(f: string) {
    && |f| >= 2 && f[|f| - 2..] == "\n\n"
    && var t := f[..|f| - 2];
    && !IsNoise(t) && TrimSpace(t) == t
    && forall k :: 0 <= k < |t| ==> t[k] != '\n'
  }

  /** Frames that are all well formed. */
  predicate AllFrames(frames: seq<string>) {
    forall k :: 0 <= k < |frames| ==> IsFrame(frames[k])
  }

  lemma AllFramesAppend(a: seq<string>, b: seq<string>)
    requires AllFrames(a) && AllFrames(b)
    ensures AllFrames(a + b)
  {
    forall k | 0 <= k < |a + b| ensures IsFrame((a + b)[k]) {
      if k < |a| { assert (a + b)[k] == a[k]; } else { assert (a + b)[k] == b[k - |a|]; }
    }
  }

  /** Framing a read line that is not noise gives a well-formed frame. */
  lemma FrameOfLine(line: string)
    requires IsLine(line) && !IsNoise(TrimSpace(line))
    ensures IsFrame(Frame(TrimSpace(line)))
  {
    var t := TrimSpace(line);
    TrimSpaceIdempotent(line);
    assert Frame(t)[..|t|] == t;
    TrimSpaceInLine(line);
  }

  /** Trimming a line leaves at most its final '\n', which is white space and so is trimmed too. */
  lemma TrimSpaceInLine(line: string)
    requires IsLine(line)
    ensures forall k :: 0 <= k < |TrimSpace(line)| ==> TrimSpace(line)[k] != '\n'
  {
    var l := TrimLeft(line);
    var t := TrimRight(l);
    assert TrimSpace(line) == t;
    forall k | 0 <= k < |t|
      ensures t[k] != '\n'
    {
      var at := |line| - |l| + k;
      assert t[k] == l[k] == line[at];
    }
  }

  /**
   * The frames the platform relay writes for the lines it read, in order:
   * the specification of its loop.
   */
  function Filter(lines: seq<string>): (frames: seq<string>)
    ensures |frames| <= |lines|
  {
    if lines == [] then []
    else
      var last := lines[|lines| - 1];
      var t := TrimSpace(last);
      if IsNoise(t) then Filter(lines[..|lines| - 1])
      else Filter(lines[..|lines| - 1]) + [Frame(t)]
  }

  /** Every frame the filter writes is well formed. */
  lemma {:induction false} FilterFrames(lines: seq<string>)
    requires AllLines(lines)
    ensures forall k :: 0 <= k < |Filter(lines)| ==> IsFrame(Filter(lines)[k])
    decreases |lines|
  {
    if lines != [] {
      var last := lines[|lines| - 1];
      AllLinesSlice(lines, 0, |lines| - 1);
      FilterFrames(lines[..|lines| - 1]);
      if !IsNoise(TrimSpace(last)) {
        FrameOfLine(last);
      }
    }
  }

  /** Filtering distributes over the concatenation of two runs of lines. */
  lemma {:induction false} FilterAppend(a: seq<string>, b: seq<string>)
    ensures Filter(a + b) == Filter(a) + Filter(b)
    decreases |b|
  {
    if b != [] {
      var front := b[..|b| - 1];
      assert (a + b)[..|a + b| - 1] == a + front;
      assert (a + b)[|a + b| - 1] == b[|b| - 1];
      FilterAppend(a, front);
    } else {
      assert a + b == a;
    }
  }

  /** A single line is dropped exactly when it is noise, and otherwise framed. */
  lemma FilterOne(line: string)
    ensures Filter([line]) == if IsNoise(TrimSpace(line)) then [] else [Frame(TrimSpace(line))]
  {
    assert [line][..0] == [];
  }

  /** The frames as the writes that put them on the wire, one write each. */
  function Texts(frames: seq<string>): (chunks: seq<Chunk>)
    ensures |chunks| == |frames|
    ensures forall k :: 0 <= k < |frames| ==> chunks[k] == Text(frames[k])
  {
    seq(|frames|, k requires 0 <= k < |frames| => Text(frames[k]))
  }

  lemma TextsAppend(a: seq<string>, b: seq<string>)
    ensures Texts(a + b) == Texts(a) + Texts(b)
  {
    assert forall k :: 0 <= k < |a + b| ==> Texts(a + b)[k] == (Texts(a) + Texts(b))[k];
  }

  /** Reading one more line adds that line's frame, if any, to the writes. */
  lemma TextsOfNextLine(lines: seq<string>, k: nat)
    requires k < |lines|
    ensures IsNoise(TrimSpace(lines[k])) ==> Texts(Filter(lines[..k + 1])) == Texts(Filter(lines[..k]))
    ensures !IsNoise(TrimSpace(lines[k])) ==>
      Texts(Filter(lines[..k + 1])) == Texts(Filter(lines[..k])) + [Text(Frame(TrimSpace(lines[k])))]
  {
    var front, line := lines[..k], lines[k];
    assert lines[..k + 1] == front + [line];
    FilterAppend(front, [line]);
    FilterOne(line);
    TextsAppend(Filter(front), Filter([line]));
    var t := TrimSpace(line);
    if IsNoise(t) {
      assert Texts(Filter([line])) == [];
      assert Texts(Filter(front)) + [] == Texts(Filter(front));
    } else {
      assert Texts(Filter([line])) == Texts([Frame(t)]) == [Text(Frame(t))];
    }
  }
}
