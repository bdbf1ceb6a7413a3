/** The bounded line pump between a child's stdout and the client: it forwards whole frames only,
    and none longer than the bound.  */
module LinePump {
  type Byte = bv8
  type Bytes = seq<Byte>

  const NEWLINE: Byte := 10

  // --- what a framed stream is -------------------------------------------------------------

  predicate FrameStart(p: Bytes, s: nat)
    requires s < |p|
  {
    s == 0 || p[s - 1] == NEWLINE
  }

  // The frame that starts at `s` ends within `max` bytes.
  ghost predicate EndsInTime(p: Bytes, s: nat, max: nat) {
    exists j :: s <= j < |p| && j < s + max && p[j] == NEWLINE
  }

  // Whole newline-terminated frames of at most `max` bytes each, terminator included.
  ghost predicate Framed(p: Bytes, max: nat) {
    && (p != [] ==> p[|p| - 1] == NEWLINE)
    && (forall s :: 0 <= s < |p| && FrameStart(p, s) ==> EndsInTime(p, s, max))
  }

  ghost predicate LongestFramed(input: Bytes, max: nat, output: Bytes) {
    && output <= input && Framed(output, max)
    && (forall q: Bytes :: q <= input && Framed(q, max) ==> |q| <= |output|)
  }

  lemma LongestIsUnique(input: Bytes, max: nat, a: Bytes, b: Bytes)
    requires LongestFramed(input, max, a) && LongestFramed(input, max, b)
    ensures a == b
  {
    assert |a| == |b|;
    assert a == input[..|a|] && b == input[..|b|];
  }

  predicate NoNewline(frame: Bytes) { forall i :: 0 <= i < |frame| ==> frame[i] != NEWLINE }

  // Nothing framed reaches into a stretch that starts after whole frames, has no newline, and is
  // cut off by the bound or by the end of the input.
  lemma NothingLonger(output: Bytes, frame: Bytes, rest: Bytes, max: nat, q: Bytes)
    requires Framed(output, max) && NoNewline(frame) && (|frame| == max || rest == [])
    requires q <= output + frame + rest && Framed(q, max)
    ensures |q| <= |output|
  {
    var input := output + frame + rest;
    if |q| > |output| {
      var s := |output|;
      assert forall i :: 0 <= i < |q| ==> q[i] == input[i];
      assert FrameStart(q, s);
    }
  }

  lemma FrameAppended(output: Bytes, frame: Bytes, max: nat)
    requires Framed(output, max) && NoNewline(frame) && |frame| < max
    ensures Framed(output + frame + [NEWLINE], max)
  {
    var p := output + frame + [NEWLINE];
    forall s | 0 <= s < |p| && FrameStart(p, s) ensures EndsInTime(p, s, max) {
      if s < |output| {
        assert FrameStart(output, s);
        var j :| s <= j < |output| && j < s + max && output[j] == NEWLINE;
        assert p[j] == NEWLINE;
      } else {
        assert p[|p| - 1] == NEWLINE;
      }
    }
  }

  // --- the pump ----------------------------------------------------------------------------

  // What the reader sees: chunks until an empty read, which is the end of the stream.
  function Flatten(chunks: seq<Bytes>): Bytes {
    if chunks == [] || chunks[0] == [] then [] else chunks[0] + Flatten(chunks[1..])
  }

  // The inner loop over one chunk.  `rest` is what it had not looked at when a frame got too long.
  method PumpChunk(written: Bytes, begun: Bytes, chunk: Bytes, max: nat)
    returns (output: Bytes, frame: Bytes, tooLong: bool, rest: Bytes)
    requires Framed(written, max) && NoNewline(begun) && |begun| <= max
    ensures Framed(output, max) && NoNewline(frame) && |frame| <= max
    ensures output + frame + rest == written + begun + chunk
    ensures tooLong <==> rest != []
    ensures tooLong ==> |frame| == max
  {
    output, frame := written, begun;
    for i := 0 to |chunk|
      invariant Framed(output, max) && NoNewline(frame) && |frame| <= max
      invariant output + frame == written + begun + chunk[..i]
    {
      var byte := chunk[i];
      assert chunk[..i + 1] == chunk[..i] + [byte];
      if |frame| == max {
        assert chunk == chunk[..i] + chunk[i..];
        return output, frame, true, chunk[i..];
      }
      assert output + (frame + [byte]) == (output + frame) + [byte];
      assert (written + begun + chunk[..i]) + [byte] == written + begun + chunk[..i + 1];
      if byte == NEWLINE {
        FrameAppended(output, frame, max);
        assert output + frame + [NEWLINE] == output + (frame + [byte]);
        output, frame := output + (frame + [byte]), [];
      } else {
        frame := frame + [byte];
      }
    }
    assert chunk[..|chunk|] == chunk;
    return output, frame, false, [];
  }

  // Where the pump stops, its output is the longest framed prefix.
  lemma StopsAtLongest(input: Bytes, output: Bytes, frame: Bytes, rest: Bytes, max: nat)
    requires input == output + frame + rest
    requires Framed(output, max) && NoNewline(frame) && (|frame| == max || rest == [])
    ensures LongestFramed(input, max, output)
  {
    assert output == input[..|output|];
    forall q: Bytes | q <= input && Framed(q, max) ensures |q| <= |output| {
      NothingLonger(output, frame, rest, max, q);
    }
  }

  // `pump_lines` without stream errors: for every way the input is cut into chunks, the output is
  // the longest framed prefix, and the result is good exactly when that is the whole input.
  method PumpLines(chunks: seq<Bytes>, max: nat) returns (output: Bytes, ok: bool)
    ensures LongestFramed(Flatten(chunks), max, output)
    ensures ok <==> output == Flatten(chunks)
  {
    ghost var input := Flatten(chunks);
    var frame: Bytes := [];
    output := [];
    var next := 0;
    while true
      invariant 0 <= next <= |chunks|
      invariant Framed(output, max) && NoNewline(frame) && |frame| <= max
      invariant output + frame + Flatten(chunks[next..]) == input
      decreases |chunks| - next
    {
      if next == |chunks| || |chunks[next]| == 0 {
        StopsAtLongest(input, output, frame, [], max);
        return output, frame == [];
      }
      ghost var later := Flatten(chunks[next + 1..]);
      assert chunks[next..][1..] == chunks[next + 1..];
      ghost var before := output + frame;
      var tooLong, rest;
      output, frame, tooLong, rest := PumpChunk(output, frame, chunks[next], max);
      assert input == (before + chunks[next]) + later == output + frame + (rest + later);
      if tooLong {
        StopsAtLongest(input, output, frame, rest + later, max);
        return output, false;
      }
      next := next + 1;
    }
  }

  // So two ways of cutting the same bytes into chunks are pumped alike.
  lemma {:induction false} ChunkingDoesNotMatter(a: seq<Bytes>, b: seq<Bytes>, max: nat, outA: Bytes, outB: Bytes)
    requires Flatten(a) == Flatten(b)
    requires LongestFramed(Flatten(a), max, outA) && LongestFramed(Flatten(b), max, outB)
    ensures outA == outB
  {
    LongestIsUnique(Flatten(a), max, outA, outB);
  }
}
