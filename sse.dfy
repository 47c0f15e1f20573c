/** `consumeSSEStream`, which `src/lib/llm.ts` and `src/lib/secondme.ts` both
    define, identically apart from the message thrown for an empty result. The
    reader is the sequence of decoded text chunks it yields before `done`. */
module Sse {
  import opened Wrappers
  import opened Text

  const DATA_PREFIX := "data: "
  const DONE_MARKER := "[DONE]"

  /** `JSON.parse(data)?.choices?.[0]?.delta?.content` for an event payload:
      `Some(text)` when the payload parses and carries string content, `None`
      when `JSON.parse` throws or the content is absent or null. */
  type DeltaReader = string -> Option<string>

  /** What one complete line adds to the result: the delta of a `data: ` line
      whose trimmed payload is not `[DONE]` and carries content; nothing otherwise. */
  function LineDelta(delta: DeltaReader, line: string): string {
    if !(DATA_PREFIX <= line) then ""
    else
      var data := Trim(line[|DATA_PREFIX|..]);
      if data == DONE_MARKER then ""
      else
        match delta(data)
        case None => ""
        case Some(content) => content
  }

  /** The contributions of `lines`, concatenated in order. */
  function Collect(delta: DeltaReader, lines: seq<string>): string {
    if lines == [] then ""
    else Collect(delta, lines[..|lines| - 1]) + LineDelta(delta, lines[|lines| - 1])
  }

  /** All text the reader produced, in order. */
  function Received(chunks: seq<string>): string {
    if chunks == [] then "" else Received(chunks[..|chunks| - 1]) + chunks[|chunks| - 1]
  }

  /** The newline-terminated lines of `text`. */
  function CompleteLines(text: string): seq<string> {
    var pieces := SplitLines(text);
    pieces[..|pieces| - 1]
  }

  /** The text after the last newline of `text`: what the buffer holds. */
  function Pending(text: string): string {
    var pieces := SplitLines(text);
    pieces[|pieces| - 1]
  }

  /** The text the decoder accumulates from the whole stream. */
  function Decoded(delta: DeltaReader, chunks: seq<string>): string {
    Collect(delta, CompleteLines(Received(chunks)))
  }

  /** The decoder's outcome: the accumulated text, or `emptyError` when it is empty. */
  function Decode(delta: DeltaReader, chunks: seq<string>, emptyError: string): Result<string> {
    var text := Decoded(delta, chunks);
    if text == "" then Err(emptyError) else Ok(text)
  }

  /** The decoder loop: the buffer collects text until a newline completes a
      line; complete lines are processed once, in order, and the incomplete tail
      is carried into the next chunk. */
  method ConsumeSseStream(delta: DeltaReader, chunks: seq<string>, emptyError: string) returns (r: Result<string>)
    ensures r == Decode(delta, chunks, emptyError)
  {
    var buffer := "";
    var result := "";
    ghost var text := "";
    var i := 0;
    while i < |chunks|
      invariant 0 <= i <= |chunks|
      invariant text == Received(chunks[..i])
      invariant buffer == Pending(text)
      invariant result == Collect(delta, CompleteLines(text))
    {
      FeedChunk(delta, text, chunks[i], buffer, result);
      ReceivedStep(chunks, i);
      text := text + chunks[i];
      buffer := buffer + chunks[i];
      var lines := SplitLines(buffer);
      buffer := lines[|lines| - 1];
      result := ProcessLines(delta, lines[..|lines| - 1], result);
      i := i + 1;
    }
    AllReceived(chunks, i);
    if result == "" {
      r := Err(emptyError);
    } else {
      r := Ok(result);
    }
  }

  /** The inner `for (const line of lines)`: appends each line's delta to `result`. */
  method ProcessLines(delta: DeltaReader, lines: seq<string>, result: string) returns (acc: string)
    ensures acc == result + Collect(delta, lines)
  {
    acc := result;
    var j := 0;
    while j < |lines|
      invariant 0 <= j <= |lines|
      invariant acc == result + Collect(delta, lines[..j])
    {
      var line := lines[j];
      CollectSnoc(delta, result, lines, j);
      if DATA_PREFIX <= line {
        var data := Trim(line[|DATA_PREFIX|..]);
        if data != DONE_MARKER {
          var content := delta(data);
          if content.Some? && content.value != "" {
            acc := acc + content.value;
          }
        }
      }
      j := j + 1;
    }
    assert lines[..j] == lines;
  }

  /** One more line processed: its contribution goes after those of the lines before it. */
  lemma CollectSnoc(delta: DeltaReader, prefix: string, lines: seq<string>, j: nat)
    requires j < |lines|
    ensures prefix + Collect(delta, lines[..j + 1]) == (prefix + Collect(delta, lines[..j])) + LineDelta(delta, lines[j])
  {
    assert lines[..j + 1][..j] == lines[..j];
    AppendAssoc(prefix, Collect(delta, lines[..j]), LineDelta(delta, lines[j]));
  }

  /** One more chunk fed to the buffer: the last piece of the split is the
      new buffer, and the pieces before it complete the result. */
  lemma FeedChunk(delta: DeltaReader, text: string, chunk: string, buffer: string, result: string)
    requires buffer == Pending(text)
    requires result == Collect(delta, CompleteLines(text))
    ensures var lines := SplitLines(buffer + chunk);
            && lines[|lines| - 1] == Pending(text + chunk)
            && result + Collect(delta, lines[..|lines| - 1]) == Collect(delta, CompleteLines(text + chunk))
  {
    ChunkStep(delta, text, chunk);
  }

  lemma AllReceived(chunks: seq<string>, i: nat)
    requires i == |chunks|
    ensures Received(chunks[..i]) == Received(chunks)
  {
    assert chunks[..i] == chunks;
  }

  /** The text received after one more chunk. */
  lemma ReceivedStep(chunks: seq<string>, i: nat)
    requires i < |chunks|
    ensures Received(chunks[..i + 1]) == Received(chunks[..i]) + chunks[i]
  {
    assert chunks[..i + 1][..i] == chunks[..i];
  }

  /** Feeding one more chunk: the lines it completes are those of the pending
      tail continued by the chunk, and the new tail is that text's tail. */
  lemma ChunkStep(delta: DeltaReader, text: string, chunk: string)
    ensures CompleteLines(text + chunk) == CompleteLines(text) + CompleteLines(Pending(text) + chunk)
    ensures Pending(text + chunk) == Pending(Pending(text) + chunk)
    ensures Collect(delta, CompleteLines(text + chunk))
         == Collect(delta, CompleteLines(text)) + Collect(delta, CompleteLines(Pending(text) + chunk))
  {
    SplitLinesAppend(text, chunk);
    CollectAppend(delta, CompleteLines(text), CompleteLines(Pending(text) + chunk));
  }

  /** Collecting is compositional: the result of two runs of lines is the two results in order. */
  lemma {:induction false} CollectAppend(delta: DeltaReader, a: seq<string>, b: seq<string>)
    ensures Collect(delta, a + b) == Collect(delta, a) + Collect(delta, b)
  {
    if b == [] {
      assert a + b == a;
    } else {
      var init, last := b[..|b| - 1], b[|b| - 1];
      assert (a + b)[..|a + b| - 1] == a + init;
      assert (a + b)[|a + b| - 1] == last;
      CollectAppend(delta, a, init);
      var x, y, z := Collect(delta, a), Collect(delta, init), LineDelta(delta, last);
      calc {
        Collect(delta, a + b);
        Collect(delta, a + init) + z;
        (x + y) + z;
        { AppendAssoc(x, y, z); }
        x + (y + z);
      }
    }
  }

  lemma AppendAssoc(x: string, y: string, z: string)
    ensures (x + y) + z == x + (y + z)
  {
  }

  /** The buffer never holds a newline, and the received text is exactly the
      complete lines, each ended by a newline, followed by the buffer. */
  lemma BufferIsTail(text: string)
    ensures NoNewline(Pending(text))
    ensures text == Join(CompleteLines(text) + [Pending(text)], "\n")
  {
    SplitLinesNoNewline(text);
    JoinSplitLines(text);
    var p := SplitLines(text);
    assert p == p[..|p| - 1] + [p[|p| - 1]];
  }

  /** Lines that do not start with `data: ` contribute nothing. */
  lemma {:induction false} NonDataLinesIgnored(delta: DeltaReader, lines: seq<string>)
    requires forall k :: 0 <= k < |lines| ==> !(DATA_PREFIX <= lines[k])
    ensures Collect(delta, lines) == ""
  {
    if lines != [] {
      NonDataLinesIgnored(delta, lines[..|lines| - 1]);
      assert Collect(delta, lines) == Collect(delta, lines[..|lines| - 1]) + LineDelta(delta, lines[|lines| - 1]);
    }
  }

  /** Text left after the last newline when the stream ends is never processed:
      a final chunk without a newline changes nothing. */
  lemma TrailingTextIgnored(delta: DeltaReader, chunks: seq<string>, tail: string)
    requires NoNewline(tail)
    ensures Decoded(delta, chunks + [tail]) == Decoded(delta, chunks)
  {
    var text := Received(chunks);
    assert (chunks + [tail])[..|chunks|] == chunks;
    ChunkStep(delta, text, tail);
    BufferIsTail(text);
    var t := Pending(text) + tail;
    assert NoNewline(t);
    SplitLinesOfLine(t);
    assert CompleteLines(text) + [] == CompleteLines(text);
  }

  /** A `data: ` line whose trimmed payload is not `[DONE]` contributes its delta. */
  lemma DataLineDelta(delta: DeltaReader, payload: string)
    requires Trim(payload) != DONE_MARKER
    ensures LineDelta(delta, DATA_PREFIX + payload)
         == match delta(Trim(payload)) case None => "" case Some(c) => c
  {
    assert (DATA_PREFIX + payload)[|DATA_PREFIX|..] == payload;
  }

  /** A stream made of one newline-terminated line decodes that line alone. */
  lemma OneLineStream(delta: DeltaReader, line: string)
    requires NoNewline(line)
    ensures Decoded(delta, [line + "\n"]) == LineDelta(delta, line)
  {
    var x := line + "\n";
    assert [x][..0] == [];
    assert Received([x]) == x;
    assert line + "\n" + "" == x;
    SplitLinesAfterLine(line, "");
    assert SplitLines(x) == [line, ""];
    assert CompleteLines(x) == [line];
    assert [line][..0] == [];
    assert Collect(delta, [line]) == "" + LineDelta(delta, line);
    assert "" + LineDelta(delta, line) == LineDelta(delta, line);
  }

  /** A single well-formed event line, newline-terminated, yields its delta. */
  lemma OneDataLine(delta: DeltaReader, payload: string, content: string)
    requires delta(Trim(payload)) == Some(content)
    requires Trim(payload) != DONE_MARKER
    requires content != "" && NoNewline(payload)
    ensures Decode(delta, [DATA_PREFIX + payload + "\n"], "empty") == Ok(content)
  {
    var line := DATA_PREFIX + payload;
    assert NoNewline(line);
    OneLineStream(delta, line);
    DataLineDelta(delta, payload);
  }
}
