/** Reading a server-sent event stream in chunks, and the events that come out.
    The format is that of sections 9.2.5 and 9.2.6 of the WHATWG HTML Standard. */
module SseParsing {
  import opened Sequences
  import opened Text
  import opened Wrappers

  datatype SseEvent = SseEvent(id: Option<string>, event: Option<string>, data: string)

  /** The fields seen so far in a block. */
  datatype Fields = Fields(id: Option<string>, event: Option<string>, data: seq<string>)

  function FieldValue(raw: string): string {
    if raw != "" && raw[0] == ' ' then raw[1..] else raw
  }

  /** The position of the first colon, or -1. */
  function Colon(line: string): (index: int)
    ensures -1 <= index < |line|
    ensures index == -1 ==> ':' !in line
    ensures index != -1 ==> line[index] == ':' && ':' !in line[..index]
  {
    if line == "" then -1
    else if line[0] == ':' then 0
    else
      var rest := Colon(line[1..]);
      if rest == -1 then -1 else
        assert line[..rest + 1] == [line[0]] + line[1..][..rest];
        rest + 1
  }

  function ParseLine(fields: Fields, line: string): Fields {
    if line == "" || line[0] == ':' then fields
    else
      var separator := Colon(line);
      var field := if separator < 0 then line else line[..separator];
      var value := if separator < 0 then "" else FieldValue(line[separator + 1..]);
      match field
      case "id" => fields.(id := Some(value))
      case "event" => fields.(event := Some(value))
      case "data" => fields.(data := fields.data + [value])
      case _ => fields
  }

  /** The line sets a field: its name alone, or its name, a colon, and a value behind at most one blank. */
  ghost predicate Sets(line: string, name: string, value: string) {
    || (line == name && value == "")
    || line == name + ":" + " " + value
    || (line == name + ":" + value && (value == "" || value[0] != ' '))
  }

  lemma NamedLineSets(line: string, name: string, separator: int)
    requires separator == Colon(line) && name == if separator < 0 then line else line[..separator]
    ensures Sets(line, name, if separator < 0 then "" else FieldValue(line[separator + 1..]))
  {
    if separator >= 0 {
      var raw := line[separator + 1..];
      assert line == name + ":" + raw;
      if raw != "" && raw[0] == ' ' {
        assert raw == " " + raw[1..];
      }
    }
  }

  /** A line that sets one of three fields does so; data lines add up. */
  lemma LineSets(fields: Fields, line: string, name: string, value: string)
    requires name in {"id", "event", "data"} && Sets(line, name, value)
    ensures ParseLine(fields, line) == match name
      case "id" => fields.(id := Some(value))
      case "event" => fields.(event := Some(value))
      case _ => fields.(data := fields.data + [value])
  {
    if line == name && value == "" {
      assert Colon(line) == -1;
    } else if line == name + ":" + " " + value {
      assert line == FieldLine(name, value, true);
      ParseFieldLine(fields, name, value, true);
    } else {
      assert line == FieldLine(name, value, false);
      ParseFieldLine(fields, name, value, false);
    }
  }

  /** Any other line, and a line that begins with a colon, changes nothing. */
  lemma OtherLinesAreIgnored(fields: Fields, line: string)
    requires forall value :: !Sets(line, "id", value)
    requires forall value :: !Sets(line, "event", value)
    requires forall value :: !Sets(line, "data", value)
    ensures ParseLine(fields, line) == fields
  {
    if line != "" && line[0] != ':' {
      var separator := Colon(line);
      NamedLineSets(line, if separator < 0 then line else line[..separator], separator);
    }
  }

  function ParseLines(fields: Fields, lines: seq<string>): Fields
    decreases |lines|
  {
    if lines == [] then fields else ParseLines(ParseLine(fields, lines[0]), lines[1..])
  }

  /** A block without data is no event; neither is one whose data is a single empty line. */
  function ParseBlock(block: string): Option<SseEvent> {
    var fields := ParseLines(Fields(None, None, []), Split(ReplaceAll(block, "\r", ""), '\n'));
    var data := Join(fields.data, '\n');
    if data == "" then None else Some(SseEvent(fields.id, fields.event, data))
  }

  method ParseSseBlock(block: string) returns (parsed: Option<SseEvent>)
    ensures parsed == ParseBlock(block)
  {
    var lines := Split(ReplaceAll(block, "\r", ""), '\n');
    var fields := Fields(None, None, []);
    for i := 0 to |lines|
      invariant ParseLines(Fields(None, None, []), lines) == ParseLines(fields, lines[i..])
    {
      fields := ParseLine(fields, lines[i]);
      assert lines[i..][1..] == lines[i + 1..];
    }
    var data := Join(fields.data, '\n');
    parsed := if data == "" then None else Some(SseEvent(fields.id, fields.event, data));
  }

  // ----- The read loop -----

  /** Where the first blank line begins, or -1. */
  function Boundary(text: string): (index: int)
    ensures index == -1 || 0 <= index <= |text| - 2
  {
    IndexOf(text, "\n\n")
  }

  datatype Buffered = Buffered(blocks: seq<string>, rest: string)

  /** The complete blocks of a text, and what is left behind the last blank line. */
  function SplitBlocks(text: string): Buffered
    decreases |text|
  {
    var boundary := Boundary(text);
    if boundary < 0 then Buffered([], text)
    else
      var later := SplitBlocks(text[boundary + 2..]);
      Buffered([text[..boundary]] + later.blocks, later.rest)
  }

  function Events(blocks: seq<string>): seq<SseEvent> {
    Collect(blocks, ParseBlock)
  }

  function Normalize(chunk: string): string {
    ReplaceAll(chunk, "\r\n", "\n")
  }

  function NormalizeAll(chunks: seq<string>): seq<string> {
    if chunks == [] then [] else [Normalize(chunks[0])] + NormalizeAll(chunks[1..])
  }

  lemma FirstOccurrenceKept(text: string, more: string, target: string)
    requires IndexOf(text, target) != -1
    ensures IndexOf(text + more, target) == IndexOf(text, target)
  {
    var i := IndexOf(text, target);
    assert (text + more)[i..i + |target|] == text[i..i + |target|];
    assert OccursAt(text + more, target, i);
    var j := IndexOf(text + more, target);
    if j < i {
      assert (text + more)[j..j + |target|] == text[j..j + |target|];
      assert OccursAt(text, target, j);
    }
  }

  lemma BoundaryKept(text: string, more: string)
    requires Boundary(text) != -1
    ensures Boundary(text + more) == Boundary(text)
  {
    FirstOccurrenceKept(text, more, "\n\n");
  }

  /** Cutting a text anywhere and splitting the pieces in turn changes nothing. */
  lemma {:induction false} SplitBlocksAppend(text: string, more: string)
    ensures var first := SplitBlocks(text);
      var second := SplitBlocks(first.rest + more);
      SplitBlocks(text + more) == Buffered(first.blocks + second.blocks, second.rest)
    decreases |text|
  {
    var boundary := Boundary(text);
    if boundary >= 0 {
      var tail := text[boundary + 2..];
      BoundaryKept(text, more);
      assert (text + more)[..boundary] == text[..boundary];
      assert (text + more)[boundary + 2..] == tail + more;
      SplitBlocksAppend(tail, more);
      var first := SplitBlocks(tail);
      Associate([text[..boundary]], first.blocks, SplitBlocks(first.rest + more).blocks);
    } else {
      var second := SplitBlocks(text + more);
      assert [] + second.blocks == second.blocks;
    }
  }

  /** The inner loop: emit every complete block of the buffer. */
  method Drain(buffer: string) returns (events: seq<SseEvent>, rest: string)
    ensures events == Events(SplitBlocks(buffer).blocks) && rest == SplitBlocks(buffer).rest
  {
    events, rest := [], buffer;
    ghost var done := [];
    var boundary := Boundary(rest);
    while boundary >= 0
      invariant boundary == Boundary(rest)
      invariant SplitBlocks(buffer) == Buffered(done + SplitBlocks(rest).blocks, SplitBlocks(rest).rest)
      invariant events == Events(done)
      decreases |rest|
    {
      DrainOne(done, rest);
      EventsSnoc(done, rest[..boundary]);
      var item := ParseSseBlock(rest[..boundary]);
      done := done + [rest[..boundary]];
      rest := rest[boundary + 2..];
      if item.Some? {
        events := events + [item.value];
      }
      boundary := Boundary(rest);
    }
    assert done + [] == done;
  }

  lemma DrainOne(done: seq<string>, rest: string)
    requires Boundary(rest) >= 0
    ensures var block, tail := rest[..Boundary(rest)], SplitBlocks(rest[Boundary(rest) + 2..]);
      && done + SplitBlocks(rest).blocks == done + [block] + tail.blocks
      && SplitBlocks(rest).rest == tail.rest
  {
    var block, tail := rest[..Boundary(rest)], SplitBlocks(rest[Boundary(rest) + 2..]);
    Associate(done, [block], tail.blocks);
  }

  lemma EventsSnoc(done: seq<string>, block: string)
    ensures Events(done + [block]) == Events(done) + if ParseBlock(block).Some? then [ParseBlock(block).value] else []
  {
    CollectAppend(done, [block], ParseBlock);
    CollectOne(block, ParseBlock);
  }

  /** The outer loop over the chunks of one response. */
  method StreamEvents(chunks: seq<string>) returns (events: seq<SseEvent>, rest: string)
    ensures var whole := SplitBlocks(Concat(NormalizeAll(chunks)));
      events == Events(whole.blocks) && rest == whole.rest
  {
    events, rest := [], "";
    ghost var read := [];
    NormalizeAllLength(chunks);
    for i := 0 to |chunks|
      invariant |NormalizeAll(chunks)| == |chunks| && read == NormalizeAll(chunks)[..i]
      invariant events == Events(SplitBlocks(Concat(read)).blocks) && rest == SplitBlocks(Concat(read)).rest
    {
      NormalizeAllAt(chunks, i);
      var chunk := Normalize(chunks[i]);
      ConcatLast(read, chunk);
      SplitBlocksAppend(Concat(read), chunk);
      CollectAppend(SplitBlocks(Concat(read)).blocks, SplitBlocks(rest + chunk).blocks, ParseBlock);
      var more;
      more, rest := Drain(rest + chunk);
      events := events + more;
      read := read + [chunk];
    }
    assert read == NormalizeAll(chunks);
  }

  lemma {:induction false} NormalizeAllLength(chunks: seq<string>)
    ensures |NormalizeAll(chunks)| == |chunks|
  {
    if chunks != [] {
      NormalizeAllLength(chunks[1..]);
    }
  }

  lemma {:induction false} NormalizeAllAt(chunks: seq<string>, i: nat)
    requires i < |chunks|
    ensures |NormalizeAll(chunks)| == |chunks| && NormalizeAll(chunks)[i] == Normalize(chunks[i])
  {
    NormalizeAllLength(chunks);
    if i > 0 {
      NormalizeAllAt(chunks[1..], i - 1);
    }
  }

  // ----- Chunk invariance -----

  /** A chunk boundary that falls between a CR and its LF. */
  predicate CutsCrlf(before: string, after: string) {
    before != "" && after != "" && before[|before| - 1] == '\r' && after[0] == '\n'
  }

  /** How many of the chunk boundaries do so. */
  function Cuts(chunks: seq<string>): nat {
    if chunks == [] then 0
    else (if CutsCrlf(chunks[0], Concat(chunks[1..])) then 1 else 0) + Cuts(chunks[1..])
  }

  lemma {:induction false} NormalizeAppend(before: string, after: string)
    ensures !CutsCrlf(before, after) ==> Normalize(before + after) == Normalize(before) + Normalize(after)
    ensures CutsCrlf(before, after) ==> |Normalize(before)| + |Normalize(after)| == |Normalize(before + after)| + 1
    decreases |before|
  {
    var both := before + after;
    if before == "" {
      assert both == after;
    } else if |before| >= 2 && before[..2] == "\r\n" {
      assert both[..2] == "\r\n" && both[2..] == before[2..] + after;
      NormalizeAppend(before[2..], after);
      Associate("\n", Normalize(before[2..]), Normalize(after));
    } else if CutsCrlf(before, after) && |before| == 1 {
      assert both[..2] == "\r\n" && both[2..] == after[1..];
      NormalizeStep(after);
    } else {
      assert |both| >= 2 ==> both[..2] != "\r\n" by {
        if |both| >= 2 {
          assert both[0] == before[0] && both[1] == if |before| >= 2 then before[1] else after[0];
        }
      }
      assert both[1..] == before[1..] + after;
      NormalizeStep(both);
      NormalizeStep(before);
      NormalizeAppend(before[1..], after);
      Associate([before[0]], Normalize(before[1..]), Normalize(after));
    }
  }

  lemma NormalizeStep(s: string)
    requires s != "" && (|s| >= 2 ==> s[..2] != "\r\n")
    ensures Normalize(s) == [s[0]] + Normalize(s[1..])
  {
  }

  lemma {:induction false} NormalizeLf(text: string)
    requires '\r' !in text
    ensures Normalize(text) == text
  {
    if text != "" {
      assert text[0] in text && forall c :: c in text[1..] ==> c in text;
      NormalizeStep(text);
      NormalizeLf(text[1..]);
    }
  }

  lemma {:induction false} NormalizeAllConcat(chunks: seq<string>)
    ensures Cuts(chunks) == 0 ==> Concat(NormalizeAll(chunks)) == Normalize(Concat(chunks))
    ensures |Concat(NormalizeAll(chunks))| == |Normalize(Concat(chunks))| + Cuts(chunks)
  {
    if chunks != [] {
      NormalizeAllConcat(chunks[1..]);
      NormalizeAppend(chunks[0], Concat(chunks[1..]));
      assert NormalizeAll(chunks)[1..] == NormalizeAll(chunks[1..]);
    }
  }

  /** What the loop reads is the normalised text exactly when no chunk ends inside a CRLF. */
  lemma ReadsNormalizedTextIff(chunks: seq<string>)
    ensures Concat(NormalizeAll(chunks)) == Normalize(Concat(chunks)) <==> Cuts(chunks) == 0
  {
    NormalizeAllConcat(chunks);
  }

  /** The text that split into these blocks and this remainder. */
  function Unsplit(blocks: seq<string>, rest: string): string {
    if blocks == [] then rest else blocks[0] + "\n\n" + Unsplit(blocks[1..], rest)
  }

  /** Splitting loses nothing. */
  lemma {:induction false} SplitIsUndone(text: string)
    ensures Unsplit(SplitBlocks(text).blocks, SplitBlocks(text).rest) == text
    decreases |text|
  {
    var boundary := Boundary(text);
    if boundary >= 0 {
      SplitIsUndone(text[boundary + 2..]);
      assert SplitBlocks(text).blocks[1..] == SplitBlocks(text[boundary + 2..]).blocks;
      assert text == text[..boundary] + text[boundary..boundary + 2] + text[boundary + 2..];
      assert OccursAt(text, "\n\n", boundary);
    }
  }

  /** However a text is cut into chunks, the loop ends with the blocks and the remainder of the whole text
      exactly when no cut falls inside a CRLF. */
  lemma ChunkingIsInvisible(chunks: seq<string>, text: string)
    requires Concat(chunks) == text
    ensures SplitBlocks(Concat(NormalizeAll(chunks))) == SplitBlocks(Normalize(text)) <==> Cuts(chunks) == 0
  {
    ReadsNormalizedTextIff(chunks);
    SplitIsUndone(Concat(NormalizeAll(chunks)));
    SplitIsUndone(Normalize(text));
  }

  lemma {:induction false} NoCutsWithoutCr(chunks: seq<string>)
    requires '\r' !in Concat(chunks)
    ensures Cuts(chunks) == 0
  {
    if chunks != [] {
      var first, rest := chunks[0], Concat(chunks[1..]);
      assert forall c :: c in first || c in rest ==> c in first + rest;
      NoCutsWithoutCr(chunks[1..]);
    }
  }

  /** For LF text every way of cutting it gives the events of splitting the whole text. */
  lemma LfChunkingIsInvisible(chunks: seq<string>, text: string)
    requires Concat(chunks) == text && '\r' !in text
    ensures SplitBlocks(Concat(NormalizeAll(chunks))) == SplitBlocks(text)
  {
    NoCutsWithoutCr(chunks);
    NormalizeAllConcat(chunks);
    NormalizeLf(text);
  }

  lemma NoBlankLine(block: string, seen: string)
    requires '\n' !in block && seen == block + "\n\r" + "\n"
    ensures Boundary(seen) == -1
  {
    forall i: nat | i + 2 <= |seen|
      ensures !OccursAt(seen, "\n\n", i)
    {
      assert seen[i..i + 2] == [seen[i], seen[i + 1]];
      assert i < |block| ==> seen[i] == block[i] && block[i] in block;
    }
  }

  lemma NormalizeTails()
    ensures Normalize("\r\n\r") == "\n\r" && Normalize("\r\n\r\n") == "\n\n" && Normalize("\n") == "\n"
  {
    assert "\r\n\r"[2..] == "\r" && "\r\n\r\n"[2..] == "\r\n" && "\r\n"[2..] == "";
    assert Normalize("\r\n\r") == "\n" + "\r" && Normalize("\r\n\r\n") == "\n" + Normalize("\r\n");
    assert "\n"[1..] == "";
  }

  lemma NormalizeBehind(block: string, tail: string)
    requires '\r' !in block
    ensures Normalize(block + tail) == block + Normalize(tail)
  {
    assert block != "" ==> block[|block| - 1] in block;
    NormalizeLf(block);
    NormalizeAppend(block, tail);
  }

  lemma ConcatTwo(first: string, second: string)
    ensures Concat([first, second]) == first + second
    ensures NormalizeAll([first, second]) == [Normalize(first), Normalize(second)]
    ensures Cuts([first, second]) == if CutsCrlf(first, second) then 1 else 0
  {
    assert [first, second][1..] == [second] && [second][1..] == [];
    assert Concat([second]) == second;
    assert NormalizeAll([second]) == [Normalize(second)];
    assert Cuts([second]) == 0;
  }

  lemma OneBlock(block: string)
    requires block != "" && '\n' !in block
    ensures SplitBlocks(block + "\n\n") == Buffered([block], "")
  {
    assert block[0] in block && block[|block| - 1] in block;
    BoundaryAfter(block, "");
    var text := block + "\n\n" + "";
    assert text == block + "\n\n" && text[..|block|] == block && text[|block| + 2..] == "";
  }

  /** With a cut inside a CRLF a blank line can be missed, and its block with it. */
  lemma CutCrlfMissesABlock(block: string, chunks: seq<string>)
    requires block != "" && '\r' !in block && '\n' !in block
    requires chunks == [block + "\r\n\r", "\n"]
    ensures Cuts(chunks) == 1
    ensures SplitBlocks(Concat(NormalizeAll(chunks))).blocks == []
    ensures SplitBlocks(Normalize(Concat(chunks))).blocks == [block]
  {
    var first := block + "\r\n\r";
    ConcatTwo(first, "\n");
    assert first + "\n" == block + "\r\n\r\n";
    NormalizeTails();
    NormalizeBehind(block, "\r\n\r");
    NormalizeBehind(block, "\r\n\r\n");
    var seen := block + "\n\r" + "\n";
    ConcatTwo(block + "\n\r", "\n");
    NoBlankLine(block, seen);
    OneBlock(block);
  }

  /** A line without line breaks ends at the blank line behind it. */
  lemma BoundaryAfter(block: string, rest: string)
    requires block != "" && block[0] != '\n' && block[|block| - 1] != '\n' && Boundary(block) == -1
    ensures Boundary(block + "\n\n" + rest) == |block|
  {
    var text := block + "\n\n" + rest;
    assert text[|block|..|block| + 2] == "\n\n";
    assert OccursAt(text, "\n\n", |block|);
    forall i: nat | i < |block|
      ensures !OccursAt(text, "\n\n", i)
    {
      assert |text| >= i + 2 && text[i..i + 2][0] == block[i];
      if i < |block| - 1 {
        assert text[i..i + 2] == block[i..i + 2];
        assert !OccursAt(block, "\n\n", i);
      }
    }
  }

  // ----- Writing events and reading them back -----

  /** A field line; the space behind the colon is optional in the format. */
  function FieldLine(name: string, value: string, spaced: bool): string {
    name + ":" + (if spaced then " " else "") + value
  }

  function DataLines(values: seq<string>, spaced: bool): seq<string> {
    if values == [] then [] else [FieldLine("data", values[0], spaced)] + DataLines(values[1..], spaced)
  }

  function EventLines(event: SseEvent, spaced: bool): seq<string> {
    (if event.id.Some? then [FieldLine("id", event.id.value, spaced)] else [])
    + (if event.event.Some? then [FieldLine("event", event.event.value, spaced)] else [])
    + DataLines(Split(event.data, '\n'), spaced)
  }

  function WriteEvent(event: SseEvent, spaced: bool): string {
    Join(EventLines(event, spaced), '\n') + "\n\n"
  }

  function WriteEvents(events: seq<SseEvent>, spaced: bool): string {
    if events == [] then "" else WriteEvent(events[0], spaced) + WriteEvents(events[1..], spaced)
  }

  predicate OneLine(value: string) {
    '\r' !in value && '\n' !in value
  }

  /** Written without the space, a value must not begin with one: the reader would drop it. */
  predicate Unambiguous(value: string, spaced: bool) {
    spaced || value == "" || value[0] != ' '
  }

  ghost predicate Writable(event: SseEvent, spaced: bool) {
    && '\r' !in event.data
    && (event.id.Some? ==> OneLine(event.id.value) && Unambiguous(event.id.value, spaced))
    && (event.event.Some? ==> OneLine(event.event.value) && Unambiguous(event.event.value, spaced))
    && forall i :: 0 <= i < |Split(event.data, '\n')| ==> Unambiguous(Split(event.data, '\n')[i], spaced)
  }

  lemma ColonOfField(name: string, rest: string)
    requires ':' !in name
    ensures Colon(name + ":" + rest) == |name|
  {
    var line := name + ":" + rest;
    assert line[|name|] == ':' && line[..|name|] == name;
    assert forall i :: 0 <= i < |name| ==> line[i] == name[i] && name[i] in name;
  }

  lemma ParseFieldLine(fields: Fields, name: string, value: string, spaced: bool)
    requires name in {"id", "event", "data"} && Unambiguous(value, spaced)
    ensures ParseLine(fields, FieldLine(name, value, spaced)) == match name
      case "id" => fields.(id := Some(value))
      case "event" => fields.(event := Some(value))
      case _ => fields.(data := fields.data + [value])
  {
    var rest := (if spaced then " " else "") + value;
    var line := name + ":" + rest;
    assert FieldLine(name, value, spaced) == line;
    ColonOfField(name, rest);
    assert line[..|name|] == name && line[|name| + 1..] == rest;
    assert FieldValue(rest) == value by {
      if spaced {
        assert rest[1..] == value;
      } else {
        assert rest == value;
      }
    }
  }

  lemma ParseLinesCons(fields: Fields, line: string, lines: seq<string>)
    ensures ParseLines(fields, [line] + lines) == ParseLines(ParseLine(fields, line), lines)
  {
    assert ([line] + lines)[1..] == lines;
  }

  lemma {:induction false} ParseDataLines(fields: Fields, values: seq<string>, spaced: bool)
    requires forall i :: 0 <= i < |values| ==> Unambiguous(values[i], spaced)
    ensures ParseLines(fields, DataLines(values, spaced)) == fields.(data := fields.data + values)
    decreases |values|
  {
    if values == [] {
      assert fields.data + [] == fields.data;
    } else {
      var line, next := FieldLine("data", values[0], spaced), fields.(data := fields.data + [values[0]]);
      ParseFieldLine(fields, "data", values[0], spaced);
      ParseDataLines(next, values[1..], spaced);
      ParseLinesCons(fields, line, DataLines(values[1..], spaced));
      assert next.data + values[1..] == fields.data + values;
    }
  }

  lemma ParseEventLines(event: SseEvent, spaced: bool)
    requires Writable(event, spaced)
    ensures ParseLines(Fields(None, None, []), EventLines(event, spaced))
         == Fields(event.id, event.event, Split(event.data, '\n'))
  {
    var none := Fields(None, None, []);
    var data := DataLines(Split(event.data, '\n'), spaced);
    var named := if event.event.Some? then [FieldLine("event", event.event.value, spaced)] + data else data;
    assert EventLines(event, spaced)
        == if event.id.Some? then [FieldLine("id", event.id.value, spaced)] + named else named;
    var first := none.(id := event.id);
    if event.id.Some? {
      ParseFieldLine(none, "id", event.id.value, spaced);
      ParseLinesCons(none, FieldLine("id", event.id.value, spaced), named);
    }
    var second := first.(event := event.event);
    if event.event.Some? {
      ParseFieldLine(first, "event", event.event.value, spaced);
      ParseLinesCons(first, FieldLine("event", event.event.value, spaced), data);
    }
    ParseDataLines(second, Split(event.data, '\n'), spaced);
    assert [] + Split(event.data, '\n') == Split(event.data, '\n');
  }

  predicate CleanLine(line: string) {
    line != "" && '\n' !in line && '\r' !in line
  }

  ghost predicate CleanLines(lines: seq<string>) {
    forall i :: 0 <= i < |lines| ==> CleanLine(lines[i])
  }

  lemma {:induction false} JoinCleanLines(lines: seq<string>)
    requires lines != [] && CleanLines(lines)
    ensures var block := Join(lines, '\n');
      && block != "" && block[0] != '\n' && block[|block| - 1] != '\n'
      && Boundary(block) == -1 && '\r' !in block
  {
    var block := Join(lines, '\n');
    assert CleanLine(lines[0]);
    assert lines[0][0] in lines[0] && lines[0][|lines[0]| - 1] in lines[0];
    if |lines| > 1 {
      var rest := Join(lines[1..], '\n');
      JoinCleanLines(lines[1..]);
      assert block == lines[0] + ['\n'] + rest;
      BoundaryOfJoin(lines[0], rest);
    } else {
      NoBoundaryInLine(block);
    }
  }

  lemma NoBoundaryInLine(line: string)
    requires '\n' !in line
    ensures Boundary(line) == -1
  {
    forall i: nat | i + 2 <= |line|
      ensures !OccursAt(line, "\n\n", i)
    {
      assert line[i..i + 2][0] == line[i] && line[i] in line;
    }
  }

  lemma BoundaryOfJoin(line: string, rest: string)
    requires '\n' !in line && rest != "" && rest[0] != '\n' && Boundary(rest) == -1
    ensures Boundary(line + ['\n'] + rest) == -1
  {
    var text := line + ['\n'] + rest;
    forall i: nat | i + 2 <= |text|
      ensures !OccursAt(text, "\n\n", i)
    {
      assert text[i..i + 2] == [text[i], text[i + 1]];
      if i < |line| {
        assert text[i] == line[i] && line[i] in line;
      } else if i > |line| {
        var j: nat := i - |line| - 1;
        assert rest[j..j + 2] == text[i..i + 2];
        assert !OccursAt(rest, "\n\n", j);
      }
    }
  }

  lemma {:induction false} DataLinesClean(values: seq<string>, spaced: bool)
    requires forall i :: 0 <= i < |values| ==> OneLine(values[i])
    ensures CleanLines(DataLines(values, spaced)) && |DataLines(values, spaced)| == |values|
  {
    if values != [] {
      DataLinesClean(values[1..], spaced);
    }
  }

  lemma EventLinesClean(event: SseEvent, spaced: bool)
    requires Writable(event, spaced)
    ensures EventLines(event, spaced) != [] && CleanLines(EventLines(event, spaced))
  {
    JoinSplit(event.data, '\n');
    var values := Split(event.data, '\n');
    assert forall i :: 0 <= i < |values| ==> OneLine(values[i]);
    DataLinesClean(values, spaced);
  }

  lemma {:induction false} ReplaceCrInCleanText(text: string)
    requires '\r' !in text
    ensures ReplaceAll(text, "\r", "") == text
  {
    if text != "" {
      assert text[0] in text && forall c :: c in text[1..] ==> c in text;
      assert text[..1] != "\r" by {
        assert text[..1][0] == text[0];
      }
      ReplaceCrInCleanText(text[1..]);
      assert text == [text[0]] + text[1..];
    }
  }

  /** A written block parses to its event; without data it parses to nothing. */
  lemma WrittenBlockParses(event: SseEvent, spaced: bool)
    requires Writable(event, spaced)
    ensures ParseBlock(Join(EventLines(event, spaced), '\n')) == if event.data == "" then None else Some(event)
  {
    var lines := EventLines(event, spaced);
    EventLinesClean(event, spaced);
    JoinCleanLines(lines);
    ReplaceCrInCleanText(Join(lines, '\n'));
    SplitJoin(lines, '\n');
    ParseEventLines(event, spaced);
    JoinSplit(event.data, '\n');
  }

  lemma WrittenEventSplits(event: SseEvent, spaced: bool, rest: string)
    requires Writable(event, spaced)
    ensures var later := SplitBlocks(rest);
      SplitBlocks(WriteEvent(event, spaced) + rest)
      == Buffered([Join(EventLines(event, spaced), '\n')] + later.blocks, later.rest)
  {
    var block := Join(EventLines(event, spaced), '\n');
    EventLinesClean(event, spaced);
    JoinCleanLines(EventLines(event, spaced));
    BoundaryAfter(block, rest);
    var text := block + "\n\n" + rest;
    assert text[..|block|] == block && text[|block| + 2..] == rest;
  }

  /** The events a reader can see: those that have data. */
  function Visible(events: seq<SseEvent>): seq<SseEvent> {
    if events == [] then []
    else (if events[0].data != "" then [events[0]] else []) + Visible(events[1..])
  }

  lemma WrittenEventRead(event: SseEvent, spaced: bool, rest: string)
    requires Writable(event, spaced)
    ensures var whole, later := SplitBlocks(WriteEvent(event, spaced) + rest), SplitBlocks(rest);
      && Events(whole.blocks) == (if event.data != "" then [event] else []) + Events(later.blocks)
      && whole.rest == later.rest
    ensures '\r' !in WriteEvent(event, spaced)
  {
    var block := Join(EventLines(event, spaced), '\n');
    WrittenEventSplits(event, spaced, rest);
    WrittenBlockParses(event, spaced);
    CollectCons(block, SplitBlocks(rest).blocks, ParseBlock);
    EventLinesClean(event, spaced);
    JoinCleanLines(EventLines(event, spaced));
  }

  lemma {:induction false} WrittenEventsRead(events: seq<SseEvent>, spaced: bool)
    requires forall i :: 0 <= i < |events| ==> Writable(events[i], spaced)
    ensures var whole := SplitBlocks(WriteEvents(events, spaced));
      Events(whole.blocks) == Visible(events) && whole.rest == ""
    ensures '\r' !in WriteEvents(events, spaced)
  {
    if events != [] {
      WrittenEventsRead(events[1..], spaced);
      WrittenEventRead(events[0], spaced, WriteEvents(events[1..], spaced));
    }
  }

  lemma {:induction false} VisibleIsAllIff(events: seq<SseEvent>)
    ensures |Visible(events)| <= |events|
    ensures Visible(events) == events <==> forall i :: 0 <= i < |events| ==> events[i].data != ""
  {
    if events != [] {
      VisibleIsAllIff(events[1..]);
      if events[0].data != "" {
        assert events == [events[0]] + events[1..];
        assert Visible(events)[1..] == Visible(events[1..]);
        assert forall i :: 1 <= i < |events| ==> events[i] == events[1..][i - 1];
      }
    }
  }

  /** Events written as blocks, cut into chunks in any way and read back, are the same events in
      the same order exactly when none of them lacks data. */
  lemma RoundTrip(events: seq<SseEvent>, spaced: bool, chunks: seq<string>)
    requires forall i :: 0 <= i < |events| ==> Writable(events[i], spaced)
    requires Concat(chunks) == WriteEvents(events, spaced)
    ensures var whole := SplitBlocks(Concat(NormalizeAll(chunks)));
      && whole.rest == ""
      && (Events(whole.blocks) == events <==> forall i :: 0 <= i < |events| ==> events[i].data != "")
  {
    WrittenEventsRead(events, spaced);
    LfChunkingIsInvisible(chunks, WriteEvents(events, spaced));
    VisibleIsAllIff(events);
  }
}
