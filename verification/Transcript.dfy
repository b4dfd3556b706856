/** The incremental reader of a growing transcript file. It remembers a byte offset a
    file and reads on from there; however appends and short or failed reads
    interleave, it delivers the messages of the lines before the offset once each. */
module Transcript {
  import opened Wrappers

  newtype byte = x: int | 0 <= x < 256
  const NEWLINE: byte := 0x0a

  datatype Block = TextBlock(text: string) | OtherBlock | BrokenBlock

  datatype Content = NoContent | Plain(text: string) | Blocks(blocks: seq<Block>)

  datatype Record = Record(assistant: bool, content: Content, timestamp: Option<string>, model: Option<string>)

  datatype Message = Message(text: string, timestamp: Option<string>, model: Option<string>)

  // Decoding one line, and the test for text that is empty once trimmed.
  datatype Parser = Parser(parse: seq<byte> -> Option<Record>, blankLine: seq<byte> -> bool, blank: string -> bool)

  // What the file system answers to one call: the size, then the bytes from the offset on.
  datatype Answer = StatFails | OpenFails(size: nat) | ReadFails(size: nat) | Reads(size: nat, bytes: seq<byte>)

  // ----------------------------------------------------------------- lines

  // The text between newlines, the last piece being what follows the last one.
  function Split(s: seq<byte>): (pieces: seq<seq<byte>>)
    ensures pieces != []
  {
    if s == [] then [[]]
    else
      Prepend(s[0], Split(s[1..]))
  }

  function Lines(s: seq<byte>): seq<seq<byte>> {
    Split(s)[..|Split(s)| - 1]
  }

  function Unfinished(s: seq<byte>): seq<byte> {
    Split(s)[|Split(s)| - 1]
  }

  function Glue(pieces: seq<seq<byte>>): seq<byte>
    requires pieces != []
  {
    if |pieces| == 1 then pieces[0] else pieces[0] + [NEWLINE] + Glue(pieces[1..])
  }

  // At the start, or just past a newline.
  predicate Boundary(s: seq<byte>, at: nat) {
    at <= |s| && (at == 0 || s[at - 1] == NEWLINE)
  }

  // The pieces hold no newline, and with one between any two they are the text again.
  lemma {:induction false} SplitRoundTrip(s: seq<byte>)
    ensures Glue(Split(s)) == s
    ensures forall piece | piece in Split(s) :: NEWLINE !in piece
  {
    if s != [] {
      var rest := Split(s[1..]);
      SplitRoundTrip(s[1..]);
      assert s == [s[0]] + s[1..];
      if s[0] == NEWLINE {
        assert ([[]] + rest)[1..] == rest;
        assert [] + [NEWLINE] + Glue(rest) == [NEWLINE] + Glue(rest);
      } else {
        GluePrefix(s[0], rest);
      }
    }
  }

  lemma GluePrefix(b: byte, pieces: seq<seq<byte>>)
    requires pieces != []
    ensures Glue([[b] + pieces[0]] + pieces[1..]) == [b] + Glue(pieces)
  {
    var longer := [[b] + pieces[0]] + pieces[1..];
    assert longer[1..] == pieces[1..];
    if |pieces| > 1 {
      assert longer[0] + [NEWLINE] + Glue(pieces[1..]) == [b] + (pieces[0] + [NEWLINE] + Glue(pieces[1..]));
    }
  }

  // Cutting at a newline cuts between two lines.
  lemma {:induction false} LinesCut(a: seq<byte>, b: seq<byte>)
    requires Boundary(a, |a|)
    ensures Split(a + b) == Lines(a) + Split(b)
  {
    if a == [] {
      assert a + b == b;
    } else {
      assert (a + b)[1..] == a[1..] + b;
      if |a| == 1 {
        assert a[1..] + b == b && Split(a[1..]) == [[]];
      } else {
        assert a[1..][|a[1..]| - 1] == a[|a| - 1];
        LinesCut(a[1..], b);
        LastPieceEmpty(a[1..]);
        PrependAppend(a[0], Lines(a[1..]), Split(b));
        PrependAppend(a[0], Lines(a[1..]), [Unfinished(a[1..])]);
        assert Split(a[1..]) == Lines(a[1..]) + [Unfinished(a[1..])];
        assert Lines(a) == Prepend(a[0], Lines(a[1..]));
      }
    }
  }

  function Prepend(c: byte, pieces: seq<seq<byte>>): seq<seq<byte>>
    requires pieces != []
  {
    if c == NEWLINE then [[]] + pieces else [[c] + pieces[0]] + pieces[1..]
  }

  lemma PrependAppend(c: byte, lines: seq<seq<byte>>, more: seq<seq<byte>>)
    requires lines != []
    ensures Prepend(c, lines + more) == Prepend(c, lines) + more
  {
    if c == NEWLINE {
      assert [[]] + (lines + more) == ([[]] + lines) + more;
    } else {
      assert (lines + more)[1..] == lines[1..] + more;
      assert [[c] + lines[0]] + (lines[1..] + more) == ([[c] + lines[0]] + lines[1..]) + more;
    }
  }

  lemma {:induction false} SplitThenNewline(s: seq<byte>)
    ensures Split(s + [NEWLINE]) == Split(s) + [[]]
  {
    var t := s + [NEWLINE];
    if s == [] {
      assert t[1..] == [] && t[0] == NEWLINE;
      assert Split(t) == Prepend(NEWLINE, Split([]));
    } else {
      assert t[1..] == s[1..] + [NEWLINE] && t[0] == s[0];
      SplitThenNewline(s[1..]);
      PrependAppend(s[0], Split(s[1..]), [[]]);
    }
  }

  lemma LastPieceEmpty(a: seq<byte>)
    requires a != [] && Boundary(a, |a|)
    ensures |Split(a)| >= 2 && Unfinished(a) == []
  {
    SplitThenNewline(a[..|a| - 1]);
    assert a == a[..|a| - 1] + [NEWLINE];
  }

  // -------------------------------------------------------------- messages

  function TextParts(blocks: seq<Block>, p: Parser): seq<string> {
    if blocks == [] then []
    else
      var b := blocks[|blocks| - 1];
      TextParts(blocks[..|blocks| - 1], p) + if b.TextBlock? && !p.blank(b.text) then [b.text] else []
  }

  function Joined(parts: seq<string>): string {
    if parts == [] then "" else if |parts| == 1 then parts[0] else parts[0] + "\n" + Joined(parts[1..])
  }

  // A block that cannot be read, like a line that cannot be parsed, silences its line.
  function MessageOf(line: seq<byte>, p: Parser): Option<Message> {
    if p.parse(line).None? then None
    else
      var r := p.parse(line).value;
      if !r.assistant then None
      else
        match r.content
        case NoContent => None
        case Plain(text) => if p.blank(text) then None else Some(Message(text, r.timestamp, r.model))
        case Blocks(blocks) =>
          if BrokenBlock in blocks || TextParts(blocks, p) == [] then None
          else Some(Message(Joined(TextParts(blocks, p)), r.timestamp, r.model))
  }

  predicate BlankLine(line: seq<byte>, p: Parser) {
    line == [] || p.blankLine(line)
  }

  function MessagesOf(lines: seq<seq<byte>>, p: Parser): seq<Message> {
    if lines == [] then []
    else
      var line := lines[|lines| - 1];
      MessagesOf(lines[..|lines| - 1], p) +
      if !BlankLine(line, p) && MessageOf(line, p).Some? then [MessageOf(line, p).value] else []
  }

  lemma {:induction false} MessagesOfBoth(a: seq<seq<byte>>, b: seq<seq<byte>>, p: Parser)
    ensures MessagesOf(a + b, p) == MessagesOf(a, p) + MessagesOf(b, p)
  {
    if b == [] {
      assert a + b == a;
    } else {
      assert (a + b)[..|a + b| - 1] == a + b[..|b| - 1];
      MessagesOfBoth(a, b[..|b| - 1], p);
    }
  }

  method ExtractMessages(lines: seq<seq<byte>>, p: Parser) returns (messages: seq<Message>)
    ensures messages == MessagesOf(lines, p)
  {
    messages := [];
    for i := 0 to |lines|
      invariant messages == MessagesOf(lines[..i], p)
    {
      assert lines[..i + 1][..i] == lines[..i];
      if !BlankLine(lines[i], p) {
        var m := MessageOf(lines[i], p);
        if m.Some? { messages := messages + [m.value]; }
      }
    }
    assert lines[..|lines|] == lines;
  }

  // ---------------------------------------------------------- one read

  // How much of a chunk is complete lines.
  function Complete(chunk: seq<byte>): (n: nat)
    ensures Boundary(chunk, n) && NEWLINE !in chunk[n..]
  {
    if chunk == [] then 0
    else if chunk[|chunk| - 1] == NEWLINE then |chunk|
    else Complete(chunk[..|chunk| - 1])
  }

  datatype Outcome = Threw | Returned(messages: seq<Message>)

  // The new offset, and what the caller gets.
  function ReadStep(offset: nat, answer: Answer, p: Parser): (nat, Outcome) {
    if answer.StatFails? || answer.size <= offset || answer.OpenFails? then (offset, Returned([]))
    else if answer.ReadFails? then (offset, Threw)
    else
      var n := Complete(answer.bytes);
      (offset + n, Returned(MessagesOf(Lines(answer.bytes[..n]), p)))
  }

  class TranscriptReader {
    const parser: Parser
    var offsets: map<string, nat>

    constructor (parser: Parser)
      ensures this.parser == parser && offsets == map[]
    {
      this.parser, offsets := parser, map[];
    }

    function GetOffset(path: string): nat
      reads this
    {
      if path in offsets then offsets[path] else 0
    }

    method ReadNewAssistantMessages(path: string, answer: Answer) returns (outcome: Outcome)
      modifies this`offsets
      ensures (GetOffset(path), outcome) == ReadStep(old(GetOffset(path)), answer, parser)
      ensures forall other | other != path :: GetOffset(other) == old(GetOffset(other))
    {
      var offset := GetOffset(path);
      match answer {
        case StatFails => return Returned([]);
        case OpenFails(_) => return Returned([]);
        case ReadFails(size) => return if size <= offset then Returned([]) else Threw;
        case Reads(size, bytes) =>
          if size <= offset { return Returned([]); }
          var n, messages := ReadChunk(bytes, parser);
          if n > 0 { offsets := offsets[path := offset + n]; }
          return Returned(messages);
      }
    }
  }

  method ReadChunk(bytes: seq<byte>, p: Parser) returns (n: nat, messages: seq<Message>)
    ensures n == Complete(bytes) && messages == MessagesOf(Lines(bytes[..n]), p)
  {
    var lastNewline := LastNewline(bytes);
    if lastNewline == -1 {
      NothingComplete(bytes, p);
      return 0, [];
    }
    var chunk := bytes[..lastNewline + 1];
    LastPieceBlank(chunk, p);
    messages := ExtractMessages(Split(chunk), p);
    n := lastNewline + 1;
  }

  method LastNewline(bytes: seq<byte>) returns (at: int)
    ensures at + 1 == Complete(bytes)
  {
    at := |bytes| - 1;
    assert bytes[..|bytes|] == bytes;
    while at >= 0 && bytes[at] != NEWLINE
      invariant -1 <= at < |bytes|
      invariant Complete(bytes[..at + 1]) == Complete(bytes)
    {
      assert bytes[..at + 1][..at] == bytes[..at];
      at := at - 1;
    }
  }

  lemma NothingComplete(bytes: seq<byte>, p: Parser)
    ensures MessagesOf(Lines(bytes[..0]), p) == []
  {
    assert bytes[..0] == [];
    assert Lines([]) == [];
  }

  lemma LastPieceBlank(chunk: seq<byte>, p: Parser)
    requires chunk != [] && Boundary(chunk, |chunk|)
    ensures MessagesOf(Split(chunk), p) == MessagesOf(Lines(chunk), p)
  {
    LastPieceEmpty(chunk);
    assert Split(chunk)[|Split(chunk)| - 1] == [];
  }

  // ------------------------------------------------------ any schedule

  // One file, the reader's offset in it, and all messages delivered from it.
  datatype World = World(content: seq<byte>, offset: nat, delivered: seq<Message>)

  // A read may see an old size and may stop short of it.
  datatype Step = Grow(bytes: seq<byte>) | StatFailure | OpenFailure(size: nat) | ReadFailure(size: nat)
                | Read(size: nat, stop: nat)

  const START := World([], 0, [])

  ghost predicate Possible(w: World, s: Step) {
    s.Read? && w.offset < s.size ==> w.offset <= s.stop <= s.size <= |w.content|
  }

  function AnswerTo(w: World, s: Step): Answer {
    match s
    case Grow(_) => StatFails
    case StatFailure => StatFails
    case OpenFailure(size) => OpenFails(size)
    case ReadFailure(size) => ReadFails(size)
    case Read(size, stop) =>
      Reads(size, if w.offset <= stop <= |w.content| then w.content[w.offset..stop] else [])
  }

  function After(w: World, s: Step, p: Parser): World {
    if s.Grow? then w.(content := w.content + s.bytes)
    else
      var (offset, outcome) := ReadStep(w.offset, AnswerTo(w, s), p);
      World(w.content, offset, w.delivered + if outcome.Returned? then outcome.messages else [])
  }

  ghost predicate Schedule(steps: seq<Step>, p: Parser) {
    steps == [] ||
    (Schedule(steps[..|steps| - 1], p) && Possible(Run(steps[..|steps| - 1], p), steps[|steps| - 1]))
  }

  function Run(steps: seq<Step>, p: Parser): World {
    if steps == [] then START else After(Run(steps[..|steps| - 1], p), steps[|steps| - 1], p)
  }

  // The messages of all lines before the offset.
  function Due(content: seq<byte>, at: nat, p: Parser): seq<Message>
    requires at <= |content|
  {
    MessagesOf(Lines(content[..at]), p)
  }

  // The offset never splits a line, and the lines before it were each delivered once.
  ghost predicate Faithful(w: World, p: Parser) {
    Boundary(w.content, w.offset) && w.delivered == Due(w.content, w.offset, p)
  }

  lemma MessagesCut(a: seq<byte>, b: seq<byte>, p: Parser)
    requires Boundary(a, |a|)
    ensures MessagesOf(Lines(a + b), p) == MessagesOf(Lines(a), p) + MessagesOf(Lines(b), p)
  {
    LinesCut(a, b);
    assert Lines(a + b) == Lines(a) + Lines(b);
    MessagesOfBoth(Lines(a), Lines(b), p);
  }

  lemma ReadIsFaithful(w: World, stop: nat, p: Parser)
    requires Faithful(w, p) && w.offset <= stop <= |w.content|
    ensures var chunk := w.content[w.offset..stop];
            var n := Complete(chunk);
            Faithful(World(w.content, w.offset + n, w.delivered + MessagesOf(Lines(chunk[..n]), p)), p)
  {
    BoundaryMoves(w.content, w.offset, stop);
    DueMore(w.content, w.offset, stop, p);
  }

  lemma DueMore(content: seq<byte>, at: nat, stop: nat, p: Parser)
    requires Boundary(content, at) && at <= stop <= |content|
    ensures var chunk := content[at..stop];
            var n := Complete(chunk);
            Due(content, at + n, p) == Due(content, at, p) + MessagesOf(Lines(chunk[..n]), p)
  {
    var chunk := content[at..stop];
    var n := Complete(chunk);
    assert content[..at + n] == content[..at] + chunk[..n];
    assert Boundary(content[..at], |content[..at]|);
    MessagesCut(content[..at], chunk[..n], p);
  }

  lemma BoundaryMoves(s: seq<byte>, at: nat, stop: nat)
    requires Boundary(s, at) && at <= stop <= |s|
    ensures Boundary(s, at + Complete(s[at..stop]))
  {
    var n := Complete(s[at..stop]);
    if n > 0 { assert s[at..stop][n - 1] == s[at + n - 1]; }
  }

  lemma StepIsFaithful(w: World, s: Step, p: Parser)
    requires Faithful(w, p) && Possible(w, s)
    ensures Faithful(After(w, s, p), p)
  {
    if s.Grow? {
      GrownIsFaithful(w, s.bytes, p);
    } else if s.Read? && w.offset < s.size {
      ReadIsFaithful(w, s.stop, p);
    } else {
      assert After(w, s, p) == World(w.content, w.offset, w.delivered);
    }
  }

  lemma GrownIsFaithful(w: World, bytes: seq<byte>, p: Parser)
    requires Faithful(w, p)
    ensures Faithful(w.(content := w.content + bytes), p)
  {
    assert (w.content + bytes)[..w.offset] == w.content[..w.offset];
  }

  lemma {:induction false} RunIsFaithful(steps: seq<Step>, p: Parser)
    requires Schedule(steps, p)
    ensures Faithful(Run(steps, p), p)
  {
    if steps != [] {
      RunIsFaithful(steps[..|steps| - 1], p);
      StepIsFaithful(Run(steps[..|steps| - 1], p), steps[|steps| - 1], p);
    } else {
      assert Lines([]) == [];
    }
  }

  // After a read that is not cut short, every complete line has been delivered,
  // whatever happened before.
  lemma FullReadCatchesUp(steps: seq<Step>, p: Parser)
    requires Schedule(steps, p)
    ensures var w := Run(steps, p);
            After(w, Read(|w.content|, |w.content|), p).delivered == MessagesOf(Lines(w.content), p)
  {
    RunIsFaithful(steps, p);
    var w := Run(steps, p);
    StepIsFaithful(w, Read(|w.content|, |w.content|), p);
    FullReadLeavesNoLine(w, p);
    CaughtUp(After(w, Read(|w.content|, |w.content|), p), p);
  }

  lemma FullReadLeavesNoLine(w: World, p: Parser)
    requires w.offset <= |w.content|
    ensures var v := After(w, Read(|w.content|, |w.content|), p);
            v.content == w.content && v.offset <= |w.content| && NEWLINE !in w.content[v.offset..]
  {
    var n := |w.content|;
    if w.offset < n {
      var chunk := w.content[w.offset..n];
      assert AnswerTo(w, Read(n, n)) == Reads(n, chunk);
      assert w.content[w.offset + Complete(chunk)..] == chunk[Complete(chunk)..];
    }
  }

  lemma CaughtUp(w: World, p: Parser)
    requires Faithful(w, p) && NEWLINE !in w.content[w.offset..]
    ensures w.delivered == MessagesOf(Lines(w.content), p)
  {
    var before, tail := w.content[..w.offset], w.content[w.offset..];
    assert before + tail == w.content;
    NoLines(tail);
    LinesCut(before, tail);
    assert Lines(w.content) == Lines(before);
  }

  lemma {:induction false} NoLines(s: seq<byte>)
    requires NEWLINE !in s
    ensures Split(s) == [s]
  {
    if s != [] {
      NoLines(s[1..]);
      assert [s[0]] + s[1..] == s;
    }
  }
}
