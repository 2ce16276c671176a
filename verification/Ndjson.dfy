/**
 The NDJSON reader: text arrives in chunks, complete lines are parsed as they appear, the
 unfinished line is kept.  Text is a sequence of code points; the JSON parser is a parameter.
 */
module Ndjson {
  import opened Basics
  import U = Utf8

  type Text = seq<nat>
  type Parser<T> = Text -> Option<T>

  const LF: nat := 0x0A
  const CR: nat := 0x0D

  /** The white space and line terminators of section 12.2 and 12.3 of ECMA-262. */
  predicate IsSpace(c: nat) {
    || 0x09 <= c <= 0x0D || c == 0x20 || c == 0xA0 || c == 0x1680 || 0x2000 <= c <= 0x200A
    || c == 0x2028 || c == 0x2029 || c == 0x202F || c == 0x205F || c == 0x3000 || c == 0xFEFF
  }

  predicate Blank(line: Text) {
    forall i | 0 <= i < |line| :: IsSpace(line[i])
  }

  function StripCr(line: Text): Text {
    if line != [] && line[|line| - 1] == CR then line[..|line| - 1] else line
  }

  // ---- The reference --------------------------------------------------------

  /** The terminated lines, without their terminators, and what follows the last one. */
  datatype Lines = Lines(complete: seq<Text>, rest: Text)

  /** One more character in front. */
  function Prepend(c: nat, lines: Lines): Lines {
    if c == LF then Lines([[]] + lines.complete, lines.rest)
    else if lines.complete == [] then Lines([], [c] + lines.rest)
    else Lines([[c] + lines.complete[0]] + lines.complete[1..], lines.rest)
  }

  function Split(text: Text): Lines {
    if text == [] then Lines([], []) else Prepend(text[0], Split(text[1..]))
  }

  function Joined(lines: seq<Text>): Text {
    if lines == [] then [] else lines[0] + [LF] + Joined(lines[1..])
  }

  /** Splitting loses nothing and leaves no terminator inside a line. */
  lemma {:induction false} SplitIsFaithful(text: Text)
    ensures Joined(Split(text).complete) + Split(text).rest == text
    ensures forall i | 0 <= i < |Split(text).complete| :: LF !in Split(text).complete[i]
    ensures LF !in Split(text).rest
    decreases |text|
  {
    if text != [] {
      SplitIsFaithful(text[1..]);
      var tail := Split(text[1..]);
      assert text == [text[0]] + text[1..];
      if text[0] == LF {
        assert ([[]] + tail.complete)[1..] == tail.complete;
        assert [] + [LF] + Joined(tail.complete) == [LF] + Joined(tail.complete);
      } else if tail.complete != [] {
        var lines := [[text[0]] + tail.complete[0]] + tail.complete[1..];
        assert lines[1..] == tail.complete[1..];
        assert Joined(lines) == [text[0]] + Joined(tail.complete);
      }
    }
  }

  function NonBlank(lines: seq<Text>): seq<Text> {
    if lines == [] then []
    else
      var record := StripCr(lines[0]);
      (if Blank(record) then [] else [record]) + NonBlank(lines[1..])
  }

  /** The records of a whole text; an unterminated last line keeps a trailing CR. */
  function Records(text: Text): seq<Text> {
    NonBlank(Split(text).complete) + if Blank(Split(text).rest) then [] else [Split(text).rest]
  }

  /** What the consumer sees: records until the first that does not parse. */
  datatype Outcome<T> = Outcome(yielded: seq<T>, failed: bool)

  function ParseAll<T>(parse: Parser<T>, records: seq<Text>): Outcome<T> {
    if records == [] then Outcome([], false)
    else match parse(records[0])
      case None => Outcome([], true)
      case Some(value) =>
        var rest := ParseAll(parse, records[1..]);
        Outcome([value] + rest.yielded, rest.failed)
  }

  // ---- Laws of the reference ------------------------------------------------

  lemma {:induction false} SplitAppend(a: Text, b: Text)
    ensures Split(a + b) == Followed(Split(a), b)
    decreases |a|
  {
    if a == [] {
      assert a + b == b && [] + b == b;
      var none: seq<Text> := [];
      assert none + Split(b).complete == Split(b).complete;
    } else {
      assert (a + b)[0] == a[0] && (a + b)[1..] == a[1..] + b;
      SplitAppend(a[1..], b);
      hide Prepend;
      PrependAppend(a[0], Split(a[1..]), b);
    }
  }

  function Followed(lines: Lines, b: Text): Lines {
    Lines(lines.complete + Split(lines.rest + b).complete, Split(lines.rest + b).rest)
  }

  /** Where a line is complete already, what follows is out of reach. */
  lemma PrependFar(c: nat, lines: Lines, more: seq<Text>, rest: Text)
    requires c == LF || lines.complete != []
    ensures Prepend(c, Lines(lines.complete + more, rest)) == Lines(Prepend(c, lines).complete + more, rest)
    ensures Prepend(c, lines).rest == lines.rest
  {
    if c == LF {
      assert [[]] + (lines.complete + more) == [[]] + lines.complete + more;
    } else {
      assert (lines.complete + more)[0] == lines.complete[0];
      assert (lines.complete + more)[1..] == lines.complete[1..] + more;
    }
  }

  lemma PrependNear(c: nat, rest: Text, b: Text)
    ensures Split([c] + rest + b) == Prepend(c, Split(rest + b))
  {
    hide Prepend;
    assert ([c] + rest + b)[0] == c && ([c] + rest + b)[1..] == rest + b;
  }

  lemma PrependAppend(c: nat, tail: Lines, b: Text)
    ensures Prepend(c, Followed(tail, b)) == Followed(Prepend(c, tail), b)
  {
    hide Split;
    var after := Split(tail.rest + b);
    if c == LF || tail.complete != [] {
      PrependFar(c, tail, after.complete, after.rest);
    } else {
      PrependNear(c, tail.rest, b);
      assert tail.complete + after.complete == after.complete;
      assert [] + Prepend(c, after).complete == Prepend(c, after).complete;
    }
  }

  lemma {:induction false} NonBlankAppend(a: seq<Text>, b: seq<Text>)
    ensures NonBlank(a + b) == NonBlank(a) + NonBlank(b)
    decreases |a|
  {
    if a == [] {
      assert a + b == b;
    } else {
      assert (a + b)[0] == a[0] && (a + b)[1..] == a[1..] + b;
      NonBlankAppend(a[1..], b);
    }
  }

  lemma {:induction false} ParseAppend<T>(parse: Parser<T>, a: seq<Text>, b: seq<Text>)
    ensures var first := ParseAll(parse, a);
            ParseAll(parse, a + b) ==
            if first.failed then first
            else Outcome(first.yielded + ParseAll(parse, b).yielded, ParseAll(parse, b).failed)
    decreases |a|
  {
    if a == [] {
      assert a + b == b;
    } else {
      assert (a + b)[0] == a[0] && (a + b)[1..] == a[1..] + b;
      ParseAppend(parse, a[1..], b);
    }
  }

  // ---- The reader -----------------------------------------------------------

  method ParseLines<T>(parse: Parser<T>, lines: seq<Text>) returns (r: Outcome<T>)
    ensures r == ParseAll(parse, NonBlank(lines))
  {
    r := Outcome([], false);
    for i := 0 to |lines|
      invariant r == ParseAll(parse, NonBlank(lines[..i])) && !r.failed
    {
      var record := StripCr(lines[i]);
      assert lines[..i + 1] == lines[..i] + [lines[i]];
      assert lines == lines[..i + 1] + lines[i + 1..];
      NonBlankAppend(lines[..i], [lines[i]]);
      NonBlankAppend(lines[..i + 1], lines[i + 1..]);
      ParseAppend(parse, NonBlank(lines[..i]), NonBlank([lines[i]]));
      ParseAppend(parse, NonBlank(lines[..i + 1]), NonBlank(lines[i + 1..]));
      OneLine(parse, lines[i]);
      if !Blank(record) {
        var value := parse(record);
        if value.None? {
          return Outcome(r.yielded, true);
        }
        r := Outcome(r.yielded + [value.value], false);
      }
    }
    assert lines[..|lines|] == lines;
  }

  lemma OneLine<T>(parse: Parser<T>, line: Text)
    ensures NonBlank([line]) == if Blank(StripCr(line)) then [] else [StripCr(line)]
    ensures !Blank(StripCr(line)) ==>
              ParseAll(parse, NonBlank([line])) ==
              match parse(StripCr(line)) case None => Outcome([], true) case Some(v) => Outcome([v], false)
  {
    assert [line][1..] == [];
    assert [StripCr(line)][1..] == [];
  }

  /**
   However the text is cut into chunks, the reader yields what the whole text yields and
   fails at the same record.
   */
  method ParseStream<T>(parse: Parser<T>, chunks: seq<Text>) returns (r: Outcome<T>)
    ensures r == ParseAll(parse, Records(Concat(chunks)))
  {
    hide Split, NonBlank, ParseAll, Blank;
    var buffer: Text := [];
    r := Outcome([], false);
    StartOfText(parse);
    for i := 0 to |chunks|
      invariant buffer == Split(Concat(chunks[..i])).rest
      invariant r == ParseAll(parse, NonBlank(Split(Concat(chunks[..i])).complete)) && !r.failed
    {
      var whole := buffer + chunks[i];
      var lines := Split(whole);
      ReadChunk(parse, chunks, i);
      var more := ParseLines(parse, lines.complete);
      r := Outcome(r.yielded + more.yielded, more.failed);
      if more.failed {
        return;
      }
      buffer := lines.rest;
    }
    assert chunks[..|chunks|] == chunks;
    if !Blank(buffer) {
      LastLine(parse, Concat(chunks));
      var value := parse(buffer);
      r := if value.None? then Outcome(r.yielded, true) else Outcome(r.yielded + [value.value], false);
    } else {
      assert Records(Concat(chunks)) == NonBlank(Split(Concat(chunks)).complete);
    }
  }

  lemma StartOfText<T>(parse: Parser<T>)
    ensures Split(Concat<nat>([])) == Lines([], []) && ParseAll(parse, NonBlank([])) == Outcome([], false)
  {
  }

  lemma LastLine<T>(parse: Parser<T>, text: Text)
    requires !Blank(Split(text).rest)
    ensures var before := ParseAll(parse, NonBlank(Split(text).complete));
            !before.failed ==>
              ParseAll(parse, Records(text)) ==
              match parse(Split(text).rest)
              case None => Outcome(before.yielded, true)
              case Some(v) => Outcome(before.yielded + [v], false)
  {
    var last := Split(text).rest;
    ParseAppend(parse, NonBlank(Split(text).complete), [last]);
    var one: seq<Text> := [last];
    assert one[1..] == [];
  }

  /** What one more chunk adds, and that a failure in it is final. */
  lemma ReadChunk<T>(parse: Parser<T>, chunks: seq<Text>, i: nat)
    requires i < |chunks|
    ensures var sofar, next := Split(Concat(chunks[..i])), Split(Concat(chunks[..i + 1]));
            var lines := Split(sofar.rest + chunks[i]);
            var before, more := ParseAll(parse, NonBlank(sofar.complete)), ParseAll(parse, NonBlank(lines.complete));
            && next.rest == lines.rest
            && (!before.failed ==>
                  && ParseAll(parse, NonBlank(next.complete)) == Outcome(before.yielded + more.yielded, more.failed)
                  && (more.failed ==>
                        ParseAll(parse, Records(Concat(chunks))) == Outcome(before.yielded + more.yielded, true)))
  {
    hide Split, NonBlank, ParseAll, Records, Concat;
    var a, b := Concat(chunks[..i]), chunks[i];
    assert chunks[..i + 1] == chunks[..i] + [b];
    ConcatSnoc(chunks[..i], b);
    SplitAppend(a, b);
    var sofar := Split(a);
    var lines := Split(sofar.rest + b);
    NonBlankAppend(sofar.complete, lines.complete);
    ParseAppend(parse, NonBlank(sofar.complete), NonBlank(lines.complete));
    FailureIsFinal(parse, chunks, i + 1);
  }

  lemma FailureIsFinal<T>(parse: Parser<T>, chunks: seq<Text>, i: nat)
    requires i <= |chunks|
    ensures var before := ParseAll(parse, NonBlank(Split(Concat(chunks[..i])).complete));
            before.failed ==> ParseAll(parse, Records(Concat(chunks))) == before
  {
    hide Split, NonBlank, Blank, ParseAll, Concat;
    var a, b := Concat(chunks[..i]), Concat(chunks[i..]);
    assert chunks == chunks[..i] + chunks[i..];
    ConcatAppend(chunks[..i], chunks[i..]);
    SplitAppend(a, b);
    var lines := Split(Split(a).rest + b);
    NonBlankAppend(Split(a).complete, lines.complete);
    var tail := if Blank(lines.rest) then [] else [lines.rest];
    var first := NonBlank(Split(a).complete);
    assert Records(a + b) == first + (NonBlank(lines.complete) + tail);
    ParseAppend(parse, first, NonBlank(lines.complete) + tail);
  }

  // ---- Bytes ----------------------------------------------------------------

  const BYTE_ORDER_MARK: nat := 0xFEFF

  function WithoutMark(text: Text): Text {
    if text != [] && text[0] == BYTE_ORDER_MARK then text[1..] else text
  }

  /**
   The text each read contributes; the last one flushes the decoder.  A byte order mark at the
   very start of the stream is dropped, in whichever read it becomes complete.
   */
  function DecodedChunks(pending: seq<byte>, started: bool, parts: seq<seq<byte>>): seq<Text>
    requires U.Pending(pending)
    decreases |parts|
  {
    if parts == [] then [if started then U.Flush(pending) else WithoutMark(U.Flush(pending))]
    else
      var d := U.Decode(pending, parts[0]);
      [if started then d.text else WithoutMark(d.text)] + DecodedChunks(d.pending, started || d.text != [], parts[1..])
  }

  lemma NoMoreParts(pending: seq<byte>, started: bool)
    requires U.Pending(pending)
    ensures Concat(DecodedChunks(pending, started, [])) == U.Flush(pending)
    ensures U.Decode(pending, Concat<byte>([])) == U.Decoded(pending, [])
  {
    assert [U.Flush(pending)][1..] == [];
  }

  lemma MarkIsFirst(first: Text, rest: Text)
    ensures first != [] ==> WithoutMark(first + rest) == WithoutMark(first) + rest
    ensures first == [] ==> first + rest == rest && WithoutMark(first) == []
  {
  }

  /** Nor does it matter where the bytes are cut, even inside a character or the mark. */
  lemma {:induction false} CutsInBytesDoNotMatter(pending: seq<byte>, started: bool, parts: seq<seq<byte>>)
    requires U.Pending(pending)
    ensures var d := U.Decode(pending, Concat(parts));
            var whole := d.text + U.Flush(d.pending);
            Concat(DecodedChunks(pending, started, parts)) == if started then whole else WithoutMark(whole)
    decreases |parts|
  {
    hide U.Decode, U.Pending, U.Flush, WithoutMark;
    if parts == [] {
      NoMoreParts(pending, started);
      assert [] + U.Flush(pending) == U.Flush(pending);
      FlushHasNoMark(pending);
    } else {
      var d := U.Decode(pending, parts[0]);
      var later := started || d.text != [];
      CutsInBytesDoNotMatter(d.pending, later, parts[1..]);
      U.DecodeAppend(pending, parts[0], Concat(parts[1..]));
      var first := if started then d.text else WithoutMark(d.text);
      var rest := DecodedChunks(d.pending, later, parts[1..]);
      assert ([first] + rest)[1..] == rest;
      var after := U.Decode(d.pending, Concat(parts[1..]));
      var tail := after.text + U.Flush(after.pending);
      MarkIsFirst(d.text, tail);
      assert d.text + after.text + U.Flush(after.pending) == d.text + tail;
    }
  }

  lemma FlushHasNoMark(pending: seq<byte>)
    ensures WithoutMark(U.Flush(pending)) == U.Flush(pending)
  {
  }
}
