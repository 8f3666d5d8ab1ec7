/** The gossip event stream: the server's frames, the incremental reader that cuts them out of
    arbitrary chunks, and what it delivers. */
module Sse {
  import opened Wrappers

  /** The first position of a blank line, that is of two newlines in a row. */
  function FindBlank(s: string): (r: Option<nat>)
    ensures r.Some? ==> r.value + 1 < |s|
  {
    if |s| < 2 then None
    else if s[0] == '\n' && s[1] == '\n' then Some(0)
    else
      match FindBlank(s[1..])
      case None => None
      case Some(i) => Some(i + 1)
  }

  /** The complete frames of a stream, and what is left after them. */
  function Frames(s: string): seq<string>
    decreases |s|
  {
    match FindBlank(s)
    case None => []
    case Some(i) => [s[..i]] + Frames(s[i + 2..])
  }

  function Rest(s: string): string
    decreases |s|
  {
    match FindBlank(s)
    case None => s
    case Some(i) => Rest(s[i + 2..])
  }

  function Concat(chunks: seq<string>): string {
    if chunks == [] then "" else Concat(chunks[..|chunks| - 1]) + chunks[|chunks| - 1]
  }

  // ---- The reader -------------------------------------------------------------------------

  /** What handling a frame does: a message for the subscribers, which one of them may reject,
      nothing, or an exception. */
  datatype Handled = Deliver(message: string, rejected: bool) | Ignore | Throw

  /** The messages of frames up to the first whose handling throws, a rejected message included,
      and whether one does. */
  datatype Outcome = Outcome(delivered: seq<string>, threw: bool)

  function HandleAll(frames: seq<string>, handle: string -> Handled): Outcome {
    if frames == [] then Outcome([], false)
    else
      match handle(frames[0])
      case Throw => Outcome([], true)
      case Ignore => HandleAll(frames[1..], handle)
      case Deliver(m, true) => Outcome([m], true)
      case Deliver(m, false) =>
        var rest := HandleAll(frames[1..], handle);
        rest.(delivered := [m] + rest.delivered)
  }

  /** What is handled after `first`, if it did not throw. */
  function Then(first: Outcome, more: Outcome): Outcome {
    if first.threw then first else Outcome(first.delivered + more.delivered, more.threw)
  }

  /** `readSse`: whatever the chunks, the frames handled are those of the whole stream. */
  method ReadSse(chunks: seq<string>, handle: string -> Handled) returns (r: Outcome)
    ensures r == HandleAll(Frames(Concat(chunks)), handle)
  {
    r := Outcome([], false);
    var buf := "";
    var n := 0;
    while n < |chunks|
      invariant 0 <= n <= |chunks| && !r.threw
      invariant buf == Rest(Concat(chunks[..n])) && r == HandleAll(Frames(Concat(chunks[..n])), handle)
    {
      ghost var seen := Concat(chunks[..n]);
      assert chunks[..n + 1][..n] == chunks[..n];
      FramesOfMore(seen, chunks[n]);
      r, buf := HandleChunk(Frames(seen), buf + chunks[n], handle, r);
      if r.threw {
        MoreFrames(chunks, n + 1);
        ThrowEnds(Frames(Concat(chunks[..n + 1])), Frames(Concat(chunks)), handle);
        return;
      }
      n := n + 1;
    }
    assert chunks[..n] == chunks;
  }

  /** The inner loop: handle every frame the buffer completes. */
  method HandleChunk(ghost before: seq<string>, input: string, handle: string -> Handled, sofar: Outcome)
    returns (r: Outcome, buf: string)
    requires sofar == HandleAll(before, handle) && !sofar.threw
    ensures r == HandleAll(before + Frames(input), handle)
    ensures !r.threw ==> buf == Rest(input)
  {
    r, buf := sofar, input;
    ghost var done := before;
    assert before + Frames(input) == done + Frames(buf);
    var split := FindBlank(buf);
    while split.Some?
      invariant split == FindBlank(buf) && Rest(buf) == Rest(input)
      invariant before + Frames(input) == done + Frames(buf)
      invariant r == HandleAll(done, handle) && !r.threw
      decreases |buf|
    {
      var frame := buf[..split.value];
      ghost var later := Frames(buf[split.value + 2..]);
      assert done + ([frame] + later) == (done + [frame]) + later;
      buf := buf[split.value + 2..];
      HandleOneMore(done, frame, handle);
      match handle(frame) {
        case Throw =>
          r := r.(threw := true);
          HandleMore(done + [frame], later, handle);
          return;
        case Ignore =>
        case Deliver(m, rejected) =>
          r := Outcome(r.delivered + [m], rejected);
          if rejected {
            HandleMore(done + [frame], later, handle);
            return;
          }
      }
      done := done + [frame];
      split := FindBlank(buf);
    }
    assert done + Frames(buf) == done;
  }

  lemma {:induction false} HandleMore(xs: seq<string>, ys: seq<string>, handle: string -> Handled)
    ensures HandleAll(xs + ys, handle) == Then(HandleAll(xs, handle), HandleAll(ys, handle))
  {
    if xs == [] {
      assert xs + ys == ys;
    } else {
      assert (xs + ys)[0] == xs[0] && (xs + ys)[1..] == xs[1..] + ys;
      HandleMore(xs[1..], ys, handle);
      if handle(xs[0]).Deliver? {
        var m, ms, ns := handle(xs[0]).message, HandleAll(xs[1..], handle).delivered, HandleAll(ys, handle).delivered;
        assert [m] + (ms + ns) == ([m] + ms) + ns;
      }
    }
  }

  lemma {:induction false} HandleOneMore(xs: seq<string>, frame: string, handle: string -> Handled)
    requires !HandleAll(xs, handle).threw
    ensures var r := HandleAll(xs, handle);
            HandleAll(xs + [frame], handle) ==
            match handle(frame)
            case Throw => r.(threw := true)
            case Ignore => r
            case Deliver(m, rejected) => Outcome(r.delivered + [m], rejected)
  {
    HandleMore(xs, [frame], handle);
    assert [frame][1..] == [];
  }

  lemma ThrowEnds(xs: seq<string>, all: seq<string>, handle: string -> Handled)
    requires xs <= all && HandleAll(xs, handle).threw
    ensures HandleAll(all, handle) == HandleAll(xs, handle)
  {
    assert all == xs + all[|xs|..];
    HandleMore(xs, all[|xs|..], handle);
  }

  lemma {:induction false} BlankOfMore(s: string, t: string)
    requires FindBlank(s).Some?
    ensures FindBlank(s + t) == FindBlank(s)
  {
    if !(s[0] == '\n' && s[1] == '\n') {
      assert (s + t)[1..] == s[1..] + t;
      BlankOfMore(s[1..], t);
    }
  }

  /** Reading on from what is left of a prefix gives the rest of the whole. */
  lemma {:induction false} FramesOfMore(s: string, t: string)
    ensures Frames(s + t) == Frames(s) + Frames(Rest(s) + t) && Rest(s + t) == Rest(Rest(s) + t)
    decreases |s|
  {
    if FindBlank(s).Some? {
      var i := FindBlank(s).value;
      var tail := s[i + 2..];
      BlankOfMore(s, t);
      assert (s + t)[..i] == s[..i] && (s + t)[i + 2..] == tail + t;
      FramesOfMore(tail, t);
      assert [s[..i]] + (Frames(tail) + Frames(Rest(tail) + t)) == ([s[..i]] + Frames(tail)) + Frames(Rest(tail) + t);
    }
  }

  /** The frames of the first chunks are a prefix of those of all chunks. */
  lemma {:induction false} MoreFrames(chunks: seq<string>, n: nat)
    requires n <= |chunks|
    ensures Frames(Concat(chunks[..n])) <= Frames(Concat(chunks))
    decreases |chunks| - n
  {
    if n == |chunks| {
      assert chunks[..n] == chunks;
    } else {
      MoreFrames(chunks, n + 1);
      assert chunks[..n + 1][..n] == chunks[..n];
      FramesOfMore(Concat(chunks[..n]), chunks[n]);
    }
  }

  // ---- One frame --------------------------------------------------------------------------

  function Lines(s: string): (r: seq<string>)
    ensures |r| > 0
  {
    if s == "" then [""]
    else
      var rest := Lines(s[1..]);
      if s[0] == '\n' then [""] + rest else [[s[0]] + rest[0]] + rest[1..]
  }

  predicate IsData(line: string) {
    "data:" <= line
  }

  predicate IsSpace(c: char) {
    c == ' ' || c == '\t' || c == '\n' || c == '\r'
  }

  function TrimStart(s: string): string {
    if s != "" && IsSpace(s[0]) then TrimStart(s[1..]) else s
  }

  /** The data lines of a frame, trimmed and joined. */
  function Data(lines: seq<string>): seq<string> {
    if lines == [] then []
    else if IsData(lines[0]) then [TrimStart(lines[0][5..])] + Data(lines[1..])
    else Data(lines[1..])
  }

  function Join(parts: seq<string>): string {
    if parts == [] then "" else if |parts| == 1 then parts[0] else parts[0] + "\n" + Join(parts[1..])
  }

  function DataOf(frame: string): string {
    Join(Data(Lines(frame)))
  }

  /** `handleSseFrame`: no data is ignored; otherwise the envelope must parse and carry the topic. */
  datatype Parsed = Envelope(topic: string, message: string) | Malformed

  function HandleFrame(topic: string, parse: string -> Parsed, accepts: string -> bool): string -> Handled {
    frame =>
      if DataOf(frame) == "" then Ignore
      else
        match parse(DataOf(frame))
        case Malformed => Throw
        case Envelope(t, m) => if t == topic then Deliver(m, !accepts(m)) else Ignore
  }

  // ---- Server to reader -------------------------------------------------------------------

  /** What the server writes: a comment, then one data frame for each message. */
  function ServerStream(topic: string, json: string -> string, messages: seq<string>): string {
    if messages == [] then ": " + topic + "\n\n"
    else ServerStream(topic, json, messages[..|messages| - 1]) + ("data: " + json(messages[|messages| - 1]) + "\n\n")
  }

  predicate OneLine(s: string) {
    '\n' !in s
  }

  /** JSON of an envelope: one line, starting with a brace, read back by `parse`. */
  ghost predicate JsonOk(topic: string, json: string -> string, parse: string -> Parsed) {
    forall m :: OneLine(json(m)) && json(m) != "" && json(m)[0] == '{' && parse(json(m)) == Envelope(topic, m)
  }

  lemma {:induction false} BlankAfterLine(line: string)
    requires OneLine(line)
    ensures FindBlank(line + "\n\n") == Some(|line|)
  {
    if line == "" {
      assert line + "\n\n" == "\n\n";
    } else {
      assert (line + "\n\n")[1..] == line[1..] + "\n\n";
      assert (line + "\n\n")[0] == line[0] && line[0] in line;
      BlankAfterLine(line[1..]);
    }
  }

  lemma {:induction false} FrameOfLine(line: string)
    requires OneLine(line)
    ensures Frames(line + "\n\n") == [line] && Rest(line + "\n\n") == ""
  {
    BlankAfterLine(line);
    var s := line + "\n\n";
    assert s[..|line|] == line && s[|line| + 2..] == "";
  }

  lemma {:induction false} LinesOfLine(line: string)
    requires OneLine(line)
    ensures Lines(line) == [line]
  {
    if line != "" {
      assert line[0] in line;
      LinesOfLine(line[1..]);
      assert [line[0]] + line[1..] == line;
    }
  }

  lemma {:induction false} DataOfMessage(json: string)
    requires OneLine(json) && json != "" && json[0] == '{'
    ensures DataOf("data: " + json) == json
  {
    var line := "data: " + json;
    LinesOfLine(line);
    assert line[5..] == " " + json;
    assert (" " + json)[1..] == json;
    assert TrimStart(" " + json) == TrimStart(json) == json;
    assert Data([line]) == [json] + Data([line][1..]);
  }

  lemma {:induction false} DataOfComment(topic: string)
    requires OneLine(topic)
    ensures DataOf(": " + topic) == ""
  {
    var line := ": " + topic;
    LinesOfLine(line);
    assert line[0] == ':' && !IsData(line);
    assert Data([line]) == Data([line][1..]);
  }

  lemma {:induction false} MessageFrame(
    topic: string, json: string, parse: string -> Parsed, accepts: string -> bool, m: string)
    requires OneLine(json) && json != "" && json[0] == '{' && parse(json) == Envelope(topic, m)
    ensures Frames("data: " + json + "\n\n") == ["data: " + json] && Rest("data: " + json + "\n\n") == ""
    ensures HandleFrame(topic, parse, accepts)("data: " + json) == Deliver(m, !accepts(m))
  {
    FrameOfLine("data: " + json);
    DataOfMessage(json);
  }

  lemma {:induction false} CommentFrame(topic: string, parse: string -> Parsed, accepts: string -> bool)
    requires OneLine(topic)
    ensures Frames(": " + topic + "\n\n") == [": " + topic] && Rest(": " + topic + "\n\n") == ""
    ensures HandleFrame(topic, parse, accepts)(": " + topic) == Ignore
  {
    FrameOfLine(": " + topic);
    DataOfComment(topic);
  }

  lemma {:induction false} AppendFrame(s: string, line: string, handle: string -> Handled, m: string, rejected: bool)
    requires Rest(s) == "" && Frames(line + "\n\n") == [line] && Rest(line + "\n\n") == ""
    requires handle(line) == Deliver(m, rejected)
    ensures HandleAll(Frames(s + (line + "\n\n")), handle) == Then(HandleAll(Frames(s), handle), Outcome([m], rejected))
    ensures Rest(s + (line + "\n\n")) == ""
  {
    FramesOfMore(s, line + "\n\n");
    assert Rest(s) + (line + "\n\n") == line + "\n\n";
    HandleMore(Frames(s), [line], handle);
    HandleOneMore([], line, handle);
    assert [] + [line] == [line];
  }

  /** The published messages, one after the other, until a subscriber rejects one. */
  function Served(messages: seq<string>, accepts: string -> bool): Outcome {
    if messages == [] then Outcome([], false)
    else
      var k := |messages| - 1;
      Then(Served(messages[..k], accepts), Outcome([messages[k]], !accepts(messages[k])))
  }

  /** All of them if all are accepted; otherwise up to and including the first that is rejected,
      which ends the reader. */
  lemma {:induction false} ServedMeans(messages: seq<string>, accepts: string -> bool)
    ensures (forall k :: 0 <= k < |messages| ==> accepts(messages[k])) ==>
              Served(messages, accepts) == Outcome(messages, false)
    ensures forall k :: FirstRejected(messages, accepts, k) ==>
              Served(messages, accepts) == Outcome(messages[..k + 1], true)
    decreases |messages|
  {
    if messages != [] {
      var n := |messages| - 1;
      ServedMeans(messages[..n], accepts);
      assert messages == messages[..n] + [messages[n]];
      forall k | FirstRejected(messages, accepts, k)
        ensures Served(messages, accepts) == Outcome(messages[..k + 1], true)
      {
        if k < n {
          assert FirstRejected(messages[..n], accepts, k);
          assert messages[..n][..k + 1] == messages[..k + 1];
        }
      }
    }
  }

  predicate FirstRejected(messages: seq<string>, accepts: string -> bool, k: int) {
    0 <= k < |messages| && !accepts(messages[k]) && forall i :: 0 <= i < k ==> accepts(messages[i])
  }

  /** Reading the server's whole stream serves exactly the published messages, in order. */
  lemma {:induction false} StreamDelivers(
    topic: string, json: string -> string, parse: string -> Parsed, accepts: string -> bool, messages: seq<string>)
    requires OneLine(topic) && JsonOk(topic, json, parse)
    ensures var s := ServerStream(topic, json, messages);
            HandleAll(Frames(s), HandleFrame(topic, parse, accepts)) == Served(messages, accepts) && Rest(s) == ""
    decreases |messages|
  {
    var handle := HandleFrame(topic, parse, accepts);
    if messages == [] {
      CommentFrame(topic, parse, accepts);
      HandleOneMore([], ": " + topic, handle);
    } else {
      var k := |messages| - 1;
      var before, m := messages[..k], messages[k];
      StreamDelivers(topic, json, parse, accepts, before);
      MessageFrame(topic, json(m), parse, accepts, m);
      AppendFrame(ServerStream(topic, json, before), "data: " + json(m), handle, m, !accepts(m));
    }
  }

  /** However the network cuts the server's stream into chunks, the reader delivers exactly the
      published messages, in order: all of them, or those up to the first a subscriber rejects. */
  method Receive(topic: string, json: string -> string, parse: string -> Parsed, accepts: string -> bool,
                 chunks: seq<string>, ghost messages: seq<string>)
    returns (r: Outcome)
    requires OneLine(topic) && JsonOk(topic, json, parse) && Concat(chunks) == ServerStream(topic, json, messages)
    ensures (forall k :: 0 <= k < |messages| ==> accepts(messages[k])) ==> r == Outcome(messages, false)
    ensures forall k :: FirstRejected(messages, accepts, k) ==> r == Outcome(messages[..k + 1], true)
  {
    r := ReadSse(chunks, HandleFrame(topic, parse, accepts));
    StreamDelivers(topic, json, parse, accepts, messages);
    ServedMeans(messages, accepts);
  }
}
