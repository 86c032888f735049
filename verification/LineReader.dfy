/**
 Reading a helper's standard output: every poll appends what the pipe holds to a buffer and emits
 the whole lines in it. What is emitted does not depend on how the stream was cut up.
 */
module LineReader {
  import opened Text

  /** A C string ends at its first NUL. */
  function CString(bytes: string): string { bytes[..IndexOf(bytes, '\0')] }

  /** The text that a poll appends: each read piece is appended as a C string. */
  function Appended(pieces: seq<string>): string {
    if pieces == [] then "" else CString(pieces[0]) + Appended(pieces[1..])
  }

  /** What follows a NUL is lost. */
  lemma {:induction false} CStringExactly(text: string, rest: string)
    requires '\0' !in text
    ensures CString(text) == text && CString(text + ['\0'] + rest) == text
  {
    var all := text + ['\0'] + rest;
    assert text[..|text|] == text && all[..|text|] == text;
    IndexOfUnique(text, '\0', |text|);
    IndexOfUnique(all, '\0', |text|);
  }

  function Concat(pieces: seq<string>): string {
    if pieces == [] then "" else pieces[0] + Concat(pieces[1..])
  }

  /** The whole lines at the front of the buffer. */
  function WholeLines(buffer: string): seq<string> {
    var ps := Pieces(buffer, '\n');
    ps[..|ps| - 1]
  }

  function Residual(buffer: string): string {
    var ps := Pieces(buffer, '\n');
    ps[|ps| - 1]
  }

  datatype Reader = Reader(buffer: string, emitted: seq<string>)

  /** Reading `text` in one go. */
  function Read(r: Reader, text: string): Reader {
    Reader(Residual(r.buffer + text), r.emitted + WholeLines(r.buffer + text))
  }

  function Poll(r: Reader, pieces: seq<string>): Reader { Read(r, Appended(pieces)) }

  function Polls(r: Reader, polls: seq<seq<string>>): Reader
    decreases |polls|
  {
    if polls == [] then r else Polls(Poll(r, polls[0]), polls[1..])
  }

  function AppendedByAll(polls: seq<seq<string>>): string {
    if polls == [] then "" else Appended(polls[0]) + AppendedByAll(polls[1..])
  }

  lemma {:induction false} NulFreeAppended(pieces: seq<string>)
    requires '\0' !in Concat(pieces)
    ensures Appended(pieces) == Concat(pieces)
  {
    if pieces != [] {
      var rest := Concat(pieces[1..]);
      assert forall c :: c in pieces[0] || c in rest ==> c in pieces[0] + rest;
      NulFreeAppended(pieces[1..]);
      var all := pieces[0];
      assert all[..|all|] == all;
      IndexOfUnique(all, '\0', |all|);
    }
  }

  /** Reading on from where the last read stopped is reading both texts at once. */
  lemma {:induction false} ReadTwice(r: Reader, a: string, b: string)
    ensures Read(Read(r, a), b) == Read(r, a + b)
  {
    var full := r.buffer + a;
    PiecesOfAppend(full, b, '\n');
    assert full + b == r.buffer + (a + b);
    assert WholeLines(full + b) == WholeLines(full) + WholeLines(Residual(full) + b);
    assert r.emitted + (WholeLines(full) + WholeLines(Residual(full) + b))
        == (r.emitted + WholeLines(full)) + WholeLines(Residual(full) + b);
  }

  lemma {:induction false} ResidualHasNoNewline(buffer: string)
    ensures '\n' !in Residual(buffer)
  {
    PiecesHaveNoSeparator(buffer, '\n');
    var ps := Pieces(buffer, '\n');
    assert ps[|ps| - 1] in ps;
  }

  /** The lines emitted by any sequence of polls, and the text left in the buffer, are those of the
      whole stream read at once. */
  lemma {:induction false} ChunkIndependent(r: Reader, polls: seq<seq<string>>)
    requires '\n' !in r.buffer
    ensures Polls(r, polls) == Read(r, AppendedByAll(polls))
    decreases |polls|
  {
    if polls == [] {
      assert r.buffer + "" == r.buffer;
      PieceOnly(r.buffer, '\n');
    } else {
      ResidualHasNoNewline(r.buffer + Appended(polls[0]));
      ChunkIndependent(Poll(r, polls[0]), polls[1..]);
      ReadTwice(r, Appended(polls[0]), AppendedByAll(polls[1..]));
    }
  }

  /** Nothing is lost or invented: the emitted lines, each with its newline, and the buffer are the
      bytes read. */
  lemma {:induction false} BytesConserved(polls: seq<seq<string>>)
    ensures var r := Polls(Reader("", []), polls);
            Terminate(r.emitted, '\n') + r.buffer == AppendedByAll(polls) && '\n' !in r.buffer
  {
    var stream := AppendedByAll(polls);
    assert "" + stream == stream;
    ChunkIndependent(Reader("", []), polls);
    PiecesTerminated(stream, '\n');
    ResidualHasNoNewline(stream);
    assert [] + WholeLines(stream) == WholeLines(stream);
  }

  function ConcatAll(polls: seq<seq<string>>): string {
    if polls == [] then "" else Concat(polls[0]) + ConcatAll(polls[1..])
  }

  lemma {:induction false} NulFreeStream(polls: seq<seq<string>>)
    requires '\0' !in ConcatAll(polls)
    ensures AppendedByAll(polls) == ConcatAll(polls)
  {
    if polls != [] {
      var first, rest := Concat(polls[0]), ConcatAll(polls[1..]);
      assert forall c :: c in first || c in rest ==> c in first + rest;
      NulFreeAppended(polls[0]);
      NulFreeStream(polls[1..]);
    }
  }

  /** However a NUL-free stream is cut into reads and polls, the same lines come out. */
  lemma {:induction false} SameStreamSameLines(polls: seq<seq<string>>, others: seq<seq<string>>)
    requires '\0' !in ConcatAll(polls) && ConcatAll(polls) == ConcatAll(others)
    ensures Polls(Reader("", []), polls) == Polls(Reader("", []), others)
  {
    NulFreeStream(polls);
    NulFreeStream(others);
    ChunkIndependent(Reader("", []), polls);
    ChunkIndependent(Reader("", []), others);
  }

  /** The buffer is not cleared for the next helper of the same object. What the first one left
      behind changes the lines of the second exactly when it is not empty and the second prints a
      whole line. */
  lemma {:induction false} LeftoverChangesLines(leftover: string, stream: string)
    requires '\n' !in leftover
    ensures WholeLines(leftover + stream) != WholeLines(stream) <==> leftover != "" && '\n' in stream
  {
    var i := IndexOf(stream, '\n');
    if i == |stream| {
      assert stream[..i] == stream;
      PieceOnly(stream, '\n');
      PieceOnly(leftover + stream, '\n');
    } else {
      assert stream[i] in stream;
      var rest := stream[i + 1..];
      assert leftover + stream == (leftover + stream[..i]) + ['\n'] + rest;
      PieceFirst(leftover + stream[..i], rest, '\n');
      assert WholeLines(leftover + stream)[0] == leftover + stream[..i];
      assert WholeLines(stream)[0] == stream[..i];
      if leftover == "" { assert leftover + stream == stream; }
    }
  }

  /** Reads until the pipe is empty; `pieces` is what the reads return. */
  method ReadFdIntoBuffer(buffer: string, pieces: seq<string>) returns (filled: string)
    ensures filled == buffer + Appended(pieces)
  {
    filled := buffer;
    var i := 0;
    while i < |pieces|
      invariant i <= |pieces|
      invariant filled + Appended(pieces[i..]) == buffer + Appended(pieces)
    {
      assert pieces[i..][1..] == pieces[i + 1..];
      filled := filled + CString(pieces[i]);
      i := i + 1;
    }
  }

  /** Takes all pieces but the last and erases as many bytes as they and their newlines take. */
  method TakeWholeLines(buffer: string) returns (lines: seq<string>, rest: string)
    ensures lines == WholeLines(buffer) && rest == Residual(buffer)
  {
    if buffer == "" {
      PieceOnly("", '\n');
      return [], "";
    }
    var split := Split(buffer, '\n');
    var processed := 0;
    lines := [];
    var i := 0;
    while i < |split| - 1
      invariant i <= |split| - 1
      invariant lines == split[..i] && processed == |Terminate(split[..i], '\n')|
    {
      TerminateLength(split[..i], split[i]);
      assert split[..i + 1] == split[..i] + [split[i]];
      lines := lines + [split[i]];
      processed := processed + |split[i]| + 1;
      i := i + 1;
    }
    PiecesTerminated(buffer, '\n');
    rest := buffer[processed..];
  }

  /** The buffer of a running helper, filled and emptied in place. */
  class LineBuffer {
    var stdoutBuf: string
    ghost var emitted: seq<string>

    ghost function View(): Reader
      reads this
    {
      Reader(stdoutBuf, emitted)
    }

    constructor ()
      ensures View() == Reader("", [])
    {
      stdoutBuf := "";
      emitted := [];
    }

    method PollChild(pieces: seq<string>) returns (lines: seq<string>)
      modifies this
      ensures View() == Poll(old(View()), pieces)
      ensures emitted == old(emitted) + lines
    {
      stdoutBuf := ReadFdIntoBuffer(stdoutBuf, pieces);
      lines, stdoutBuf := TakeWholeLines(stdoutBuf);
      emitted := emitted + lines;
    }
  }

  lemma {:induction false} TerminateLength(parts: seq<string>, part: string)
    ensures |Terminate(parts + [part], '\n')| == |Terminate(parts, '\n')| + |part| + 1
  {
    if parts == [] {
      assert (parts + [part])[1..] == [];
    } else {
      assert (parts + [part])[1..] == parts[1..] + [part];
      TerminateLength(parts[1..], part);
    }
  }
}
