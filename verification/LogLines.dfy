/** Reading a process's stream log: lines cut across interleaved chunks are put together again. */
module LogLines {
  datatype Stream = STDOUT | STDERR

  /** One chunk of the log; `dated` if its timestamp can be read. */
  datatype Chunk = Chunk(dated: bool, stream: Stream, text: string)

  datatype Line = Line(stream: Stream, text: string)

  // ---------------------------------------------------------------- splitting a text

  /** The lines a break was seen behind, and the unfinished rest. */
  datatype Split = Split(done: seq<string>, open: string)

  /** A carriage return before a line break belongs to the break. */
  function Chomp(s: string): string {
    if s != [] && s[|s| - 1] == '\r' then s[..|s| - 1] else s
  }

  function Cut(s: string): Split {
    if s == [] then Split([], "")
    else
      var p, c := Cut(s[..|s| - 1]), s[|s| - 1];
      if c == '\n' then Split(p.done + [Chomp(p.open)], "") else Split(p.done, p.open + [c])
  }

  /** The text's lines: it is split at its line breaks. */
  function Lines(s: string): seq<string> {
    Cut(s).done + [Cut(s).open]
  }

  lemma {:induction false} OpenHasNoBreak(s: string)
    ensures '\n' !in Cut(s).open && Cut(Cut(s).open) == Split([], Cut(s).open)
  {
    if s != [] {
      var p, c := Cut(s[..|s| - 1]), s[|s| - 1];
      OpenHasNoBreak(s[..|s| - 1]);
      if c != '\n' {
        assert (p.open + [c])[..|p.open|] == p.open;
      }
    }
  }

  /** Cutting a text anywhere: the unfinished piece of the first part goes before the second. */
  lemma {:induction false} CutOfMore(a: string, b: string)
    ensures var p, q := Cut(a), Cut(Cut(a).open + b);
            Cut(a + b) == Split(p.done + q.done, q.open)
  {
    var open := Cut(a).open;
    if b == [] {
      OpenHasNoBreak(a);
      assert a + b == a && open + b == open;
    } else {
      var init, c := b[..|b| - 1], b[|b| - 1];
      CutOfMore(a, init);
      assert (a + b)[..|a + b| - 1] == a + init;
      assert (open + b)[..|open + b| - 1] == open + init;
    }
  }

  function Glued(lines: seq<string>): string {
    if lines == [] then "" else Glued(lines[..|lines| - 1]) + lines[|lines| - 1] + ['\n']
  }

  /** Splitting is exact: no line holds a break, and without carriage returns nothing else is lost. */
  lemma {:induction false} LinesAreExact(s: string)
    ensures forall k :: 0 <= k < |Lines(s)| ==> '\n' !in Lines(s)[k]
    ensures '\r' !in s ==> Glued(Cut(s).done) + Cut(s).open == s
  {
    if s != [] {
      var init, c := s[..|s| - 1], s[|s| - 1];
      var p := Cut(init);
      LinesAreExact(init);
      assert s == init + [c];
      assert forall k :: 0 <= k < |p.done| ==> p.done[k] == Lines(init)[k];
      assert p.open == Lines(init)[|p.done|];
      if '\r' !in s {
        assert Chomp(p.open) == p.open by {
          assert forall x :: x in p.open ==> x in Glued(p.done) + p.open;
        }
        assert (p.done + [p.open])[..|p.done|] == p.done;
      }
    }
  }

  // ---------------------------------------------------------------- the log

  /** A stream's text: its dated chunks, put together. */
  function TextOf(chunks: seq<Chunk>, stream: Stream): string {
    if chunks == [] then ""
    else
      var rest, last := TextOf(chunks[..|chunks| - 1], stream), chunks[|chunks| - 1];
      if last.dated && last.stream == stream then rest + last.text else rest
  }

  predicate Spoke(chunks: seq<Chunk>, stream: Stream) {
    exists i :: 0 <= i < |chunks| && chunks[i].dated && chunks[i].stream == stream
  }

  function Of(lines: seq<Line>, stream: Stream): seq<string> {
    if lines == [] then []
    else
      var rest, last := Of(lines[..|lines| - 1], stream), lines[|lines| - 1];
      if last.stream == stream then rest + [last.text] else rest
  }

  lemma OfMore(lines: seq<Line>, l: Line, stream: Stream)
    ensures Of(lines + [l], stream) == if l.stream == stream then Of(lines, stream) + [l.text] else Of(lines, stream)
  {
    assert (lines + [l])[..|lines|] == lines;
  }

  lemma TextOfMore(chunks: seq<Chunk>, c: Chunk, stream: Stream)
    ensures TextOf(chunks + [c], stream) == TextOf(chunks, stream) + (if c.dated && c.stream == stream then c.text else "")
    ensures Spoke(chunks + [c], stream) <==> Spoke(chunks, stream) || (c.dated && c.stream == stream)
  {
    var all := chunks + [c];
    assert all[..|chunks|] == chunks && all[|chunks|] == c;
    assert forall i :: 0 <= i < |chunks| ==> all[i] == chunks[i];
  }

  /** Between chunks: the finished lines were inspected and the unfinished piece is pending. */
  ghost predicate Caught(chunks: seq<Chunk>, inspected: seq<Line>, pending: map<Stream, string>, stream: Stream) {
    && (stream in pending <==> Spoke(chunks, stream))
    && Of(inspected, stream) == (if Spoke(chunks, stream) then Cut(TextOf(chunks, stream)).done else [])
    && (stream in pending ==> pending[stream] == Cut(TextOf(chunks, stream)).open)
    && (stream !in pending ==> TextOf(chunks, stream) == "")
  }

  lemma Continued(chunks: seq<Chunk>, c: Chunk, inspected: seq<Line>, pending: map<Stream, string>, after: seq<Line>)
    requires Caught(chunks, inspected, pending, c.stream) && c.dated
    requires Of(after, c.stream) == Of(inspected, c.stream) + Pieces(c, pending).done
    ensures Caught(chunks + [c], after, pending[c.stream := Pieces(c, pending).open], c.stream)
  {
    TextOfMore(chunks, c, c.stream);
    CutOfMore(TextOf(chunks, c.stream), c.text);
  }

  lemma Undisturbed(chunks: seq<Chunk>, c: Chunk, inspected: seq<Line>, pending: map<Stream, string>,
                    after: seq<Line>, later: map<Stream, string>, stream: Stream)
    requires Caught(chunks, inspected, pending, stream) && (c.stream != stream || !c.dated)
    requires Of(after, stream) == Of(inspected, stream)
    requires stream in later <==> stream in pending
    requires stream in pending ==> later[stream] == pending[stream]
    ensures Caught(chunks + [c], after, later, stream)
  {
    TextOfMore(chunks, c, stream);
  }

  /** What is pending for the chunk's stream, and the chunk, split. */
  function Pieces(c: Chunk, pending: map<Stream, string>): Split {
    Cut((if c.stream in pending then pending[c.stream] else "") + c.text)
  }

  /** Inspects a run of lines of one stream. */
  method InspectAll(before: seq<Line>, stream: Stream, lines: seq<string>) returns (inspected: seq<Line>)
    ensures Of(inspected, stream) == Of(before, stream) + lines
    ensures forall other :: other != stream ==> Of(inspected, other) == Of(before, other)
  {
    inspected := before;
    for k := 0 to |lines|
      invariant Of(inspected, stream) == Of(before, stream) + lines[..k]
      invariant forall other :: other != stream ==> Of(inspected, other) == Of(before, other)
    {
      forall s ensures Of(inspected + [Line(stream, lines[k])], s) ==
                       if s == stream then Of(inspected, s) + [lines[k]] else Of(inspected, s) {
        OfMore(inspected, Line(stream, lines[k]), s);
      }
      inspected := inspected + [Line(stream, lines[k])];
    }
  }

  /**
   * The streaming reader. For every interleaving of the streams and every way of cutting the text, the
   * lines inspected for a stream are the lines of its whole text; an undated chunk is skipped, and a
   * stream that never spoke has no lines.
   */
  method ReadLines(chunks: seq<Chunk>) returns (inspected: seq<Line>)
    ensures forall stream :: Of(inspected, stream) == if Spoke(chunks, stream) then Lines(TextOf(chunks, stream)) else []
  {
    inspected := [];
    var pending: map<Stream, string> := map[];
    var order: seq<Stream> := [];
    for k := 0 to |chunks|
      invariant forall stream :: Caught(chunks[..k], inspected, pending, stream)
      invariant forall stream :: stream in order <==> stream in pending
      invariant forall i, j :: 0 <= i < j < |order| ==> order[i] != order[j]
    {
      var c := chunks[k];
      ghost var next := chunks[..k] + [c];
      assert chunks[..k + 1] == next;
      if !c.dated {
        forall stream ensures Caught(next, inspected, pending, stream) {
          Undisturbed(chunks[..k], c, inspected, pending, inspected, pending, stream);
        }
      } else {
        var pieces := Pieces(c, pending);
        var more := InspectAll(inspected, c.stream, pieces.done);
        var later := pending[c.stream := pieces.open];
        forall stream ensures Caught(next, more, later, stream) {
          if stream == c.stream {
            Continued(chunks[..k], c, inspected, pending, more);
          } else {
            Undisturbed(chunks[..k], c, inspected, pending, more, later, stream);
          }
        }
        if c.stream !in pending {
          order := order + [c.stream];
        }
        pending := later;
        inspected := more;
      }
    }
    assert chunks[..|chunks|] == chunks;
    ghost var before := inspected;
    assert forall stream :: Caught(chunks, before, pending, stream);
    for k := 0 to |order|
      invariant forall stream ::
        Of(inspected, stream) ==
        Of(before, stream) + (if stream in order[..k] && stream in pending then [pending[stream]] else [])
    {
      assert order[..k + 1] == order[..k] + [order[k]];
      inspected := InspectAll(inspected, order[k], [pending[order[k]]]);
    }
    assert order[..|order|] == order;
    forall stream
      ensures Of(inspected, stream) == if Spoke(chunks, stream) then Lines(TextOf(chunks, stream)) else []
    {
      assert Caught(chunks, before, pending, stream);
    }
  }
}
