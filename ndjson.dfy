/**
 * Line reassembly for a newline-delimited JSON stream: the `buffer` that
 * `streamChatReply` keeps between reads, `buffer.split("\n")`, and
 * `lines.pop()` keeping the unfinished tail for the next read.
 */
module Ndjson {

  /** The lines each followed by a newline, as they sat in the stream. */
  function Terminated(lines: seq<string>): string
  {
    if lines == [] then "" else lines[0] + "\n" + Terminated(lines[1..])
  }

  predicate NoNewline(s: string)
  {
    '\n' !in s
  }

  /**
   * `s.split("\n")`: the pieces between newlines, so always one more piece
   * than there are newlines (see SplitRejoins and SplitPiecesNoNewline).
   */
  function Split(s: string): (parts: seq<string>)
    ensures |parts| >= 1
    decreases |s|
  {
    if s == [] then [""]
    else
      var rest := Split(s[1..]);
      if s[0] == '\n' then [""] + rest else [[s[0]] + rest[0]] + rest[1..]
  }

  /** One step of `Split` on a string that starts with `c`. */
  lemma SplitCons(c: char, t: string)
    ensures Split([c] + t) == if c == '\n' then [""] + Split(t) else [[c] + Split(t)[0]] + Split(t)[1..]
  {
    assert ([c] + t)[1..] == t;
  }

  /** No piece of a split holds a newline. */
  lemma {:induction false} SplitPiecesNoNewline(s: string)
    ensures forall k :: 0 <= k < |Split(s)| ==> NoNewline(Split(s)[k])
    decreases |s|
  {
    if s != [] {
      SplitPiecesNoNewline(s[1..]);
      SplitCons(s[0], s[1..]);
      assert s == [s[0]] + s[1..];
    }
  }

  /** The pieces put back together: a newline after each piece but the last. */
  function Join(parts: seq<string>): string
    requires |parts| >= 1
  {
    Terminated(parts[..|parts| - 1]) + parts[|parts| - 1]
  }

  /** An empty first piece puts a newline in front. */
  lemma JoinEmptyFirst(rest: seq<string>)
    requires |rest| >= 1
    ensures Join([""] + rest) == "\n" + Join(rest)
  {
    var parts := [""] + rest;
    assert parts[..|parts| - 1] == [""] + rest[..|rest| - 1];
    assert parts[..|parts| - 1][1..] == rest[..|rest| - 1];
    assert Terminated(parts[..|parts| - 1]) == "\n" + Terminated(rest[..|rest| - 1]);
    AppendAssoc("\n", Terminated(rest[..|rest| - 1]), rest[|rest| - 1]);
  }

  /** Extending the first piece by a character puts that character in front. */
  lemma JoinExtendFirst(c: char, rest: seq<string>)
    requires |rest| >= 1
    ensures Join([[c] + rest[0]] + rest[1..]) == [c] + Join(rest)
  {
    var n := |rest|;
    var parts := [[c] + rest[0]] + rest[1..];
    if n > 1 {
      var more := Terminated(rest[1..n - 1]);
      assert parts[..n - 1] == [[c] + rest[0]] + rest[1..n - 1];
      assert parts[..n - 1][1..] == rest[1..n - 1];
      assert rest[..n - 1][1..] == rest[1..n - 1];
      assert Terminated(parts[..n - 1]) == [c] + rest[0] + "\n" + more;
      assert Terminated(rest[..n - 1]) == rest[0] + "\n" + more;
      AppendAssoc([c], rest[0] + "\n" + more, rest[n - 1]);
    } else {
      assert parts[..0] == [] && rest[..0] == [];
    }
  }

  /** Putting the newlines back between the pieces gives the text again. */
  lemma {:induction false} SplitRejoins(s: string)
    ensures Join(Split(s)) == s
    decreases |s|
  {
    if s != [] {
      var c, t := s[0], s[1..];
      SplitRejoins(t);
      SplitCons(c, t);
      assert s == [c] + t;
      if c == '\n' {
        JoinEmptyFirst(Split(t));
      } else {
        JoinExtendFirst(c, Split(t));
      }
    }
  }

  /** The complete lines of `text`: every piece that a newline ended. */
  function CompleteLines(text: string): seq<string>
  {
    var parts := Split(text);
    parts[..|parts| - 1]
  }

  /** What `lines.pop()` leaves in the buffer: the text after the last newline. */
  function Pending(text: string): string
  {
    var parts := Split(text);
    parts[|parts| - 1]
  }

  /**
   * One read: the complete lines handed on and the new buffer. Nothing is
   * lost or invented (the lines, each with its newline, followed by the
   * new buffer spell exactly the old buffer plus the chunk), and the new
   * buffer holds no newline.
   */
  lemma ReassemblyLosesNothing(buffer: string, chunk: string)
    ensures Terminated(CompleteLines(buffer + chunk)) + Pending(buffer + chunk) == buffer + chunk
    ensures NoNewline(Pending(buffer + chunk))
    ensures forall k :: 0 <= k < |CompleteLines(buffer + chunk)| ==> NoNewline(CompleteLines(buffer + chunk)[k])
  {
    var parts := Split(buffer + chunk);
    SplitRejoins(buffer + chunk);
    SplitPiecesNoNewline(buffer + chunk);
    assert forall k :: 0 <= k < |parts| - 1 ==> CompleteLines(buffer + chunk)[k] == parts[k];
  }

  /** Splitting a newline-free prefix glues it onto the first piece. */
  lemma {:induction false} SplitNewlineFreePrefix(s: string, b: string)
    requires NoNewline(s)
    ensures Split(s + b) == [s + Split(b)[0]] + Split(b)[1..]
    decreases |s|
  {
    var first, others := Split(b)[0], Split(b)[1..];
    if s == [] {
      assert s + b == b && s + first == first;
      assert Split(b) == [first] + others;
    } else {
      var c, t := s[0], s[1..];
      assert s + b == [c] + (t + b);
      SplitNewlineFreePrefix(t, b);
      assert Split(t + b) == [t + first] + others;
      SplitCons(c, t + b);
      AppendAssoc([c], t, first);
      assert [c] + t == s;
    }
  }

  /** Text with no newline splits into itself alone. */
  lemma SplitNewlineFree(s: string)
    requires NoNewline(s)
    ensures Split(s) == [s]
  {
    SplitNewlineFreePrefix(s, "");
    assert s + "" == s;
  }

  /** Regrouping a concatenation. */
  lemma AppendAssoc<T>(a: seq<T>, b: seq<T>, c: seq<T>)
    ensures a + b + c == a + (b + c)
  {
  }

  /** Writing out two runs of lines one after the other writes out their concatenation. */
  lemma {:induction false} TerminatedAppend(x: seq<string>, y: seq<string>)
    ensures Terminated(x + y) == Terminated(x) + Terminated(y)
    decreases |x|
  {
    if x == [] {
      assert x + y == y;
    } else {
      TerminatedAppend(x[1..], y);
      assert (x + y)[1..] == x[1..] + y;
      AppendAssoc(x[0] + "\n", Terminated(x[1..]), Terminated(y));
    }
  }

  /**
   * How splitting distributes over concatenation: the complete lines of
   * `a` come first, then the split of `a`'s unfinished tail followed by `b`.
   */
  lemma SplitAppend(a: string, b: string)
    ensures Split(a + b) == CompleteLines(a) + Split(Pending(a) + b)
  {
    var p := Pending(a) + b;
    var front, later, tail := CompleteLines(a), CompleteLines(p), Pending(p);
    ReassemblyLosesNothing(a, "");
    ReassemblyLosesNothing(p, "");
    assert a + "" == a && p + "" == p;
    TerminatedAppend(front, later);
    AppendAssoc(Terminated(front), Pending(a), b);
    AppendAssoc(Terminated(front), Terminated(later), tail);
    assert a + b == Terminated(front + later) + tail;
    SplitTerminated(front + later, tail);
    SplitTerminated(later, tail);
    AppendAssoc(front, later, [tail]);
  }

  /**
   * The buffer a reader keeps is all it needs: after more text arrives, the
   * complete lines are the old ones followed by those completed from the
   * old tail, and the new tail is the one left over from the old tail.
   */
  lemma PendingAppend(a: string, b: string)
    ensures CompleteLines(a + b) == CompleteLines(a) + CompleteLines(Pending(a) + b)
    ensures Pending(a + b) == Pending(Pending(a) + b)
  {
    SplitAppend(a, b);
    var tail := Split(Pending(a) + b);
    assert Split(a + b)[..|Split(a + b)| - 1] == CompleteLines(a) + tail[..|tail| - 1];
  }

  /** Splitting is the inverse of writing lines out with their newlines. */
  lemma {:induction false} SplitTerminated(lines: seq<string>, tail: string)
    requires forall k :: 0 <= k < |lines| ==> NoNewline(lines[k])
    requires NoNewline(tail)
    ensures Split(Terminated(lines) + tail) == lines + [tail]
  {
    if lines == [] {
      assert Terminated(lines) + tail == tail;
      SplitNewlineFree(tail);
    } else {
      var rest := Terminated(lines[1..]) + tail;
      SplitTerminated(lines[1..], tail);
      assert Terminated(lines) + tail == lines[0] + ("\n" + rest);
      SplitNewlineFreePrefix(lines[0], "\n" + rest);
      SplitCons('\n', rest);
      assert "\n" + rest == ['\n'] + rest;
      assert lines[0] + "" == lines[0];
      assert lines == [lines[0]] + lines[1..];
    }
  }

  /** The concatenation of all chunks read so far. */
  function Concat(chunks: seq<string>): string
  {
    if chunks == [] then "" else chunks[0] + Concat(chunks[1..])
  }

  /** Appending one more chunk appends its text. */
  lemma {:induction false} ConcatSnoc(chunks: seq<string>, chunk: string)
    ensures Concat(chunks + [chunk]) == Concat(chunks) + chunk
  {
    if chunks == [] {
      assert chunks + [chunk] == [chunk];
      assert chunk + "" == chunk;
    } else {
      assert (chunks + [chunk])[1..] == chunks[1..] + [chunk];
      ConcatSnoc(chunks[1..], chunk);
    }
  }

  /** The complete lines handed on by reading `chunks` one at a time, starting from `buffer`. */
  function FeedLines(buffer: string, chunks: seq<string>): seq<string>
    decreases |chunks|
  {
    if chunks == [] then []
    else CompleteLines(buffer + chunks[0]) + FeedLines(Pending(buffer + chunks[0]), chunks[1..])
  }

  /** The buffer left after reading `chunks` one at a time, starting from `buffer`. */
  function FeedBuffer(buffer: string, chunks: seq<string>): string
    decreases |chunks|
  {
    if chunks == [] then buffer else FeedBuffer(Pending(buffer + chunks[0]), chunks[1..])
  }

  /**
   * Reading chunk by chunk hands on exactly the complete lines of the whole
   * text and leaves exactly its unfinished tail in the buffer.
   */
  lemma {:induction false} FeedMatchesWholeText(buffer: string, chunks: seq<string>)
    requires NoNewline(buffer)
    ensures FeedLines(buffer, chunks) == CompleteLines(buffer + Concat(chunks))
    ensures FeedBuffer(buffer, chunks) == Pending(buffer + Concat(chunks))
    decreases |chunks|
  {
    if chunks == [] {
      assert Concat(chunks) == "";
      assert buffer + Concat(chunks) == buffer;
      SplitNewlineFree(buffer);
      assert CompleteLines(buffer) == [];
      assert Pending(buffer) == buffer;
    } else {
      var head, later := buffer + chunks[0], Concat(chunks[1..]);
      ReassemblyLosesNothing(buffer, chunks[0]);
      FeedMatchesWholeText(Pending(head), chunks[1..]);
      PendingAppend(head, later);
      assert buffer + Concat(chunks) == head + later;
    }
  }

  /**
   * Chunking independence: two streams carrying the same text, however it
   * is cut into reads, hand on the same lines and end with the same buffer.
   */
  lemma ChunkingIndependent(chunks1: seq<string>, chunks2: seq<string>)
    requires Concat(chunks1) == Concat(chunks2)
    ensures FeedLines("", chunks1) == FeedLines("", chunks2)
    ensures FeedBuffer("", chunks1) == FeedBuffer("", chunks2)
  {
    FeedMatchesWholeText("", chunks1);
    FeedMatchesWholeText("", chunks2);
  }

  /**
   * Text after the last newline is never handed on as a line: a stream that
   * ends with an unterminated tail yields the same lines as the stream
   * without it.
   */
  lemma UnterminatedTailIgnored(lines: seq<string>, tail: string)
    requires forall k :: 0 <= k < |lines| ==> NoNewline(lines[k])
    requires NoNewline(tail)
    ensures CompleteLines(Terminated(lines) + tail) == lines
    ensures CompleteLines(Terminated(lines) + tail) == CompleteLines(Terminated(lines))
  {
    var text := Terminated(lines);
    SplitTerminated(lines, tail);
    assert CompleteLines(text + tail) == (lines + [tail])[..|lines|] == lines;
    SplitTerminated(lines, "");
    assert text + "" == text;
    assert CompleteLines(text) == (lines + [""])[..|lines|] == lines;
  }
}
