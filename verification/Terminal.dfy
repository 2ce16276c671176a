/**
 The terminal normalizer: control sequences in the form of section 5.4 of ECMA-48 and
 operating-system commands are stripped, carriage returns become line feeds, device
 status reports are answered, and a backspace edits the text of the current call.
 */
module Terminal {
  import opened Basics
  import U = Utf8

  const LF: nat := 0x0A
  const TAB: nat := 0x09

  datatype Mode = TextMode | Escape | Csi | Osc | DiscardCsi | DiscardOsc

  datatype Parser = Parser(
    limit: nat,
    mode: Mode,
    sawCr: bool,
    escape: seq<byte>,
    discardSawEscape: bool,
    pending: seq<byte>,           // the decoder's unfinished sequence
    responses: seq<seq<byte>>,
    controlTruncated: bool)

  /** What one byte does to the fragment: characters are added, then one may be erased. */
  datatype Edit = Edit(added: U.Text, erases: bool)

  const NOTHING := Edit([], false)

  function New(limit: nat): Parser {
    Parser(limit, TextMode, false, [], false, [], [], false)
  }

  predicate DecoderOk(t: Parser) {
    U.Pending(t.pending)
  }

  // ---- One byte -------------------------------------------------------------

  function Answer(sequence: seq<byte>): seq<seq<byte>> {
    if sequence == [0x1B, 0x5B, 0x35, 0x6E] then [[0x1B, 0x5B, 0x30, 0x6E]]
    else if sequence == [0x1B, 0x5B, 0x36, 0x6E] then [[0x1B, 0x5B, 0x31, 0x3B, 0x31, 0x52]]
    else if sequence == [0x1B, 0x5B, 0x3F, 0x36, 0x6E] then [[0x1B, 0x5B, 0x3F, 0x31, 0x3B, 0x31, 0x52]]
    else []
  }

  /** `_consume_text_byte`. */
  function TextByte(t: Parser, b: byte): (Parser, Edit)
    requires DecoderOk(t)
  {
    var flushed := t.(pending := []);
    var pending := U.Flush(t.pending);
    if b == 0x0A || b == 0x0D then (flushed.(sawCr := b == 0x0D || t.sawCr), Edit(pending + [LF], false))
    else if b == 0x08 then (flushed, Edit(pending, true))
    else if b == 0x09 then (flushed, Edit(pending + [TAB], false))
    else if b < 0x20 || b == 0x7F then (flushed, Edit(pending, false))
    else
      var d := U.Step(t.pending, b);
      (t.(pending := d.pending), Edit(d.text, false))
  }

  predicate CsiFinal(b: byte) {
    0x40 <= b <= 0x7E
  }

  /** A byte of a control sequence that is being collected. */
  function ControlByte(t: Parser, b: byte): Parser {
    var grown := t.escape + [b];
    if |grown| > t.limit then
      t.(mode := if t.mode.Osc? then DiscardOsc else DiscardCsi, escape := [], controlTruncated := true)
    else if t.mode.Escape? then
      if b == 0x5B then t.(mode := Csi, escape := grown)
      else if b == 0x5D then t.(mode := Osc, escape := grown)
      else t.(mode := TextMode, escape := [])
    else if t.mode.Csi? then
      if CsiFinal(b) then t.(mode := TextMode, escape := [], responses := t.responses + Answer(grown))
      else t.(escape := grown)
    else if b == 0x07 || (b == 0x5C && t.escape != [] && t.escape[|t.escape| - 1] == 0x1B) then
      t.(mode := TextMode, escape := [])
    else t.(escape := grown)
  }

  function Byte(t: Parser, b: byte): (Parser, Edit)
    requires DecoderOk(t)
  {
    match t.mode
    case TextMode =>
      var seen := t.(sawCr := false);
      if t.sawCr && b == 0x0A then (seen, NOTHING)
      else if b == 0x1B then
        (seen.(pending := [], mode := Escape, escape := [b]), Edit(U.Flush(t.pending), false))
      else TextByte(seen, b)
    case DiscardCsi => (if CsiFinal(b) then t.(mode := TextMode) else t, NOTHING)
    case DiscardOsc =>
      (if b == 0x07 || (t.discardSawEscape && b == 0x5C) then t.(mode := TextMode, discardSawEscape := false)
       else t.(discardSawEscape := b == 0x1B), NOTHING)
    case _ => (ControlByte(t, b), NOTHING)
  }

  lemma ByteKeepsDecoder(t: Parser, b: byte)
    requires DecoderOk(t)
    ensures DecoderOk(Byte(t, b).0)
  {
  }

  // ---- A whole call ---------------------------------------------------------

  function Apply(fragment: U.Text, e: Edit): U.Text {
    var longer := fragment + e.added;
    if e.erases && longer != [] && longer[|longer| - 1] != LF then longer[..|longer| - 1] else longer
  }

  function After(t: Parser, data: seq<byte>): (r: Parser)
    requires DecoderOk(t)
    ensures DecoderOk(r)
    decreases |data|
  {
    if data == [] then t else (ByteKeepsDecoder(t, data[0]); After(Byte(t, data[0]).0, data[1..]))
  }

  /** The fragment a call leaves, starting from `fragment`. */
  function Fragment(t: Parser, data: seq<byte>, fragment: U.Text): U.Text
    requires DecoderOk(t)
    decreases |data|
  {
    if data == [] then fragment
    else
      ByteKeepsDecoder(t, data[0]);
      Fragment(Byte(t, data[0]).0, data[1..], Apply(fragment, Byte(t, data[0]).1))
  }

  function Text(t: Parser, data: seq<byte>): U.Text
    requires DecoderOk(t)
  {
    Fragment(t, data, [])
  }

  // ---- Splitting the input --------------------------------------------------

  /** Parser state, truncation flag and answers do not depend on where the input is cut. */
  lemma {:induction false} SplitState(t: Parser, a: seq<byte>, b: seq<byte>)
    requires DecoderOk(t)
    ensures After(t, a + b) == After(After(t, a), b)
    decreases |a|
  {
    if a == [] {
      assert a + b == b;
    } else {
      assert (a + b)[0] == a[0] && (a + b)[1..] == a[1..] + b;
      ByteKeepsDecoder(t, a[0]);
      SplitState(Byte(t, a[0]).0, a[1..], b);
    }
  }

  lemma {:induction false} SplitFragment(t: Parser, a: seq<byte>, b: seq<byte>, fragment: U.Text)
    requires DecoderOk(t)
    ensures Fragment(t, a + b, fragment) == Fragment(After(t, a), b, Fragment(t, a, fragment))
    decreases |a|
  {
    if a == [] {
      assert a + b == b;
    } else {
      assert (a + b)[0] == a[0] && (a + b)[1..] == a[1..] + b;
      ByteKeepsDecoder(t, a[0]);
      SplitFragment(Byte(t, a[0]).0, a[1..], b, Apply(fragment, Byte(t, a[0]).1));
    }
  }

  /** Some erasure of the call finds nothing of the call's own left to erase. */
  predicate Underflows(t: Parser, data: seq<byte>, own: U.Text)
    requires DecoderOk(t)
    decreases |data|
  {
    data != [] &&
    var (next, e) := Byte(t, data[0]);
    ByteKeepsDecoder(t, data[0]);
    || (e.erases && own + e.added == [])
    || Underflows(next, data[1..], Apply(own, e))
  }

  predicate Erasable(text: U.Text) {
    text != [] && text[|text| - 1] != LF
  }

  /** How much of earlier text survives when the call's erasures may reach into it. */
  function Surviving(t: Parser, data: seq<byte>, earlier: U.Text, own: U.Text): (k: nat)
    requires DecoderOk(t)
    ensures k <= |earlier|
    decreases |data|
  {
    if data == [] then |earlier|
    else
      var (next, e) := Byte(t, data[0]);
      ByteKeepsDecoder(t, data[0]);
      if e.erases && own + e.added == [] && Erasable(earlier) then
        Surviving(next, data[1..], earlier[..|earlier| - 1], [])
      else Surviving(next, data[1..], earlier, Apply(own, e))
  }

  lemma ApplyAfter(earlier: U.Text, own: U.Text, e: Edit)
    ensures Apply(earlier + own, e) ==
            if e.erases && own + e.added == [] && Erasable(earlier) then earlier[..|earlier| - 1]
            else earlier + Apply(own, e)
  {
    assert earlier + own + e.added == earlier + (own + e.added);
    if own + e.added == [] {
      assert earlier + [] == earlier;
    } else {
      var longer := own + e.added;
      assert (earlier + longer)[..|earlier| + |longer| - 1] == earlier + longer[..|longer| - 1];
    }
  }

  lemma {:induction false} FragmentAfter(t: Parser, data: seq<byte>, earlier: U.Text, own: U.Text)
    requires DecoderOk(t)
    ensures Fragment(t, data, earlier + own) == earlier[..Surviving(t, data, earlier, own)] + Fragment(t, data, own)
    ensures Surviving(t, data, earlier, own) == |earlier| <==> !Erasable(earlier) || !Underflows(t, data, own)
    decreases |data|
  {
    if data == [] {
      assert earlier[..|earlier|] == earlier;
    } else {
      var (next, e) := Byte(t, data[0]);
      ByteKeepsDecoder(t, data[0]);
      ApplyAfter(earlier, own, e);
      hide Byte, DecoderOk, Apply;
      if e.erases && own + e.added == [] && Erasable(earlier) {
        var shorter := earlier[..|earlier| - 1];
        FragmentAfter(next, data[1..], shorter, []);
        assert shorter + [] == shorter;
        assert Apply(own, e) == [] by { ApplyNothing(own, e); }
        var k := Surviving(next, data[1..], shorter, []);
        assert shorter[..k] == earlier[..k];
      } else {
        FragmentAfter(next, data[1..], earlier, Apply(own, e));
      }
    }
  }

  lemma ApplyNothing(own: U.Text, e: Edit)
    requires own + e.added == []
    ensures Apply(own, e) == []
  {
  }

  /**
   The text of one call is what two calls give, less the earlier characters that the
   second call's erasures would reach; nothing is lost exactly when the first call's text
   is empty or ends a line, or no erasure of the second finds its own text exhausted.
   */
  lemma SplitText(t: Parser, a: seq<byte>, b: seq<byte>)
    requires DecoderOk(t)
    ensures var first := Text(t, a);
            var k := Surviving(After(t, a), b, first, []);
            Text(t, a + b) == first[..k] + Text(After(t, a), b)
    ensures Text(t, a + b) == Text(t, a) + Text(After(t, a), b)
        <==> !Erasable(Text(t, a)) || !Underflows(After(t, a), b, [])
  {
    var first := Text(t, a);
    SplitFragment(t, a, b, []);
    assert first + [] == first;
    FragmentAfter(After(t, a), b, first, []);
    var k := Surviving(After(t, a), b, first, []);
    assert k == |first| ==> first[..k] == first;
    assert |first[..k] + Text(After(t, a), b)| == k + |Text(After(t, a), b)|;
  }

  /** One byte's call. */
  lemma OneByte(t: Parser, b: byte, fragment: U.Text)
    requires DecoderOk(t)
    ensures After(t, [b]) == Byte(t, b).0 && Fragment(t, [b], fragment) == Apply(fragment, Byte(t, b).1)
  {
    hide Byte, DecoderOk, Apply;
    ByteKeepsDecoder(t, b);
    var one: seq<byte> := [b];
    assert one[0] == b && one[1..] == [];
  }

  lemma LetterAndBackspace(t: Parser, c: byte)
    requires DecoderOk(t) && t.mode.TextMode? && t.pending == [] && 0x20 <= c < 0x7F
    ensures Byte(t, c) == (t.(sawCr := false), Edit([c as nat], false))
    ensures Byte(t.(sawCr := false), 0x08) == (t.(sawCr := false), Edit([], true))
  {
    hide U.Pending;
    assert [] + [c as nat] == [c as nat];
  }

  /** A letter of one call survives a backspace in the next, and not one in the same. */
  lemma BackspaceAfterASplit(t: Parser, c: byte)
    requires DecoderOk(t) && t.mode.TextMode? && t.pending == [] && 0x20 <= c < 0x7F
    ensures Text(t, [c] + [0x08]) == []
    ensures Text(t, [c]) + Text(After(t, [c]), [0x08]) == [c as nat]
  {
    hide Byte, After, Fragment, DecoderOk;
    LetterAndBackspace(t, c);
    OneByte(t, c, []);
    OneByte(After(t, [c]), 0x08, [c as nat]);
    OneByte(After(t, [c]), 0x08, []);
    SplitFragment(t, [c], [0x08], []);
    assert [] + [c as nat] == [c as nat] && [c as nat] + [] == [c as nat];
  }

  /** No byte of the call is a backspace met in text mode. */
  predicate NoBackspace(t: Parser, data: seq<byte>)
    requires DecoderOk(t)
    decreases |data|
  {
    data == [] ||
    (ByteKeepsDecoder(t, data[0]);
     !(t.mode.TextMode? && data[0] == 0x08) && NoBackspace(Byte(t, data[0]).0, data[1..]))
  }

  lemma {:induction false} NoBackspaceNoUnderflow(t: Parser, data: seq<byte>, own: U.Text)
    requires DecoderOk(t) && NoBackspace(t, data)
    ensures !Underflows(t, data, own)
    decreases |data|
  {
    if data != [] {
      ByteKeepsDecoder(t, data[0]);
      NoBackspaceNoUnderflow(Byte(t, data[0]).0, data[1..], Apply(own, Byte(t, data[0]).1));
    }
  }

  /** The text of a sequence of calls, each starting a fragment of its own. */
  function TextOfCalls(t: Parser, calls: seq<seq<byte>>): U.Text
    requires DecoderOk(t)
    decreases |calls|
  {
    if calls == [] then [] else Text(t, calls[0]) + TextOfCalls(After(t, calls[0]), calls[1..])
  }

  lemma {:induction false} NoBackspaceLater(t: Parser, a: seq<byte>, b: seq<byte>)
    requires DecoderOk(t) && NoBackspace(t, a + b)
    ensures NoBackspace(After(t, a), b)
    decreases |a|
  {
    if a == [] {
      assert a + b == b;
    } else {
      assert (a + b)[0] == a[0] && (a + b)[1..] == a[1..] + b;
      ByteKeepsDecoder(t, a[0]);
      NoBackspaceLater(Byte(t, a[0]).0, a[1..], b);
    }
  }

  /** Without text-mode backspaces any cutting of the input into calls gives the same text. */
  lemma {:induction false} AnySplit(t: Parser, calls: seq<seq<byte>>)
    requires DecoderOk(t) && NoBackspace(t, Concat(calls))
    ensures TextOfCalls(t, calls) == Text(t, Concat(calls))
    decreases |calls|
  {
    if calls != [] {
      var rest := Concat(calls[1..]);
      NoBackspaceLater(t, calls[0], rest);
      NoBackspaceNoUnderflow(After(t, calls[0]), rest, []);
      SplitText(t, calls[0], rest);
      AnySplit(After(t, calls[0]), calls[1..]);
    }
  }

  // ---- Bounds and clean output ----------------------------------------------

  function Max(a: nat, b: nat): nat {
    if a > b then a else b
  }

  /** Control bytes are held only while a sequence is being collected, within the limit. */
  predicate Bounded(t: Parser) {
    if t.mode.Escape? || t.mode.Csi? || t.mode.Osc? then |t.escape| <= Max(t.limit, 1) else t.escape == []
  }

  lemma ByteBounded(t: Parser, b: byte)
    requires DecoderOk(t) && Bounded(t)
    ensures Bounded(Byte(t, b).0) && Byte(t, b).0.limit == t.limit
  {
    hide U.Step, U.Pending, U.Flush, Answer;
  }

  predicate Printable(c: nat) {
    (c >= 0x20 && c != 0x7F) || c == LF || c == TAB
  }

  predicate Clean(text: U.Text) {
    forall c | c in text :: Printable(c)
  }

  lemma ByteClean(t: Parser, b: byte)
    requires DecoderOk(t)
    ensures Clean(Byte(t, b).1.added)
  {
  }

  /** After any input: pending control bytes within the limit, and no control in the text but LF and TAB. */
  lemma {:induction false} StaysBoundedAndClean(t: Parser, data: seq<byte>, fragment: U.Text)
    requires DecoderOk(t) && Bounded(t) && Clean(fragment)
    ensures Bounded(After(t, data)) && |After(t, data).escape| <= Max(t.limit, 1)
    ensures Clean(Fragment(t, data, fragment))
    decreases |data|
  {
    if data != [] {
      ByteKeepsDecoder(t, data[0]);
      ByteBounded(t, data[0]);
      ByteClean(t, data[0]);
      var (next, e) := Byte(t, data[0]);
      hide Byte, DecoderOk;
      assert Clean(Apply(fragment, e));
      StaysBoundedAndClean(next, data[1..], Apply(fragment, e));
    }
  }

  /** The escape byte is stored before any length is looked at. */
  lemma EscapeIsNotCounted(limit: nat)
    ensures After(New(limit), [0x1B]).escape == [0x1B]
  {
    var one: seq<byte> := [0x1B];
    assert one[1..] == [];
  }

  ghost predicate WithinLimit(limit: nat) {
    forall data: seq<byte> :: |After(New(limit), data).escape| <= limit
  }

  /** The limit bounds the pending control bytes of every input, unless it is zero. */
  lemma LimitHoldsExactly(limit: nat)
    ensures WithinLimit(limit) <==> limit >= 1
  {
    EscapeIsNotCounted(limit);
    if limit == 0 {
      assert |After(New(limit), [0x1B]).escape| == 1;
    } else {
      forall data: seq<byte> ensures |After(New(limit), data).escape| <= limit {
        StaysBoundedAndClean(New(limit), data, []);
      }
    }
  }

  // ---- Printable text passes unchanged --------------------------------------

  predicate Plain(data: seq<byte>) {
    forall i | 0 <= i < |data| :: data[i] >= 0x20 && data[i] != 0x7F
  }

  lemma PlainByte(t: Parser, b: byte)
    requires DecoderOk(t) && t.mode.TextMode? && b >= 0x20 && b != 0x7F
    ensures var d := U.Step(t.pending, b);
            Byte(t, b) == (t.(sawCr := false, pending := d.pending), Edit(d.text, false))
  {
  }

  lemma {:induction false} PlainBytes(t: Parser, data: seq<byte>, fragment: U.Text)
    requires DecoderOk(t) && t.mode.TextMode? && Plain(data)
    ensures After(t, data) == t.(sawCr := t.sawCr && data == [], pending := U.Decode(t.pending, data).pending)
    ensures Fragment(t, data, fragment) == fragment + U.Decode(t.pending, data).text
    decreases |data|
  {
    hide Byte, U.Step;
    if data == [] {
      assert fragment + [] == fragment;
    } else {
      PlainByte(t, data[0]);
      var d := U.Step(t.pending, data[0]);
      var next := t.(sawCr := false, pending := d.pending);
      PlainBytes(next, data[1..], fragment + d.text);
      PlainDecode(t.pending, data, fragment);
    }
  }

  lemma PlainDecode(pending: seq<byte>, data: seq<byte>, fragment: U.Text)
    requires U.Pending(pending) && data != []
    ensures var d := U.Step(pending, data[0]);
            var rest := U.Decode(d.pending, data[1..]);
            && U.Decode(pending, data).pending == rest.pending
            && fragment + U.Decode(pending, data).text == fragment + d.text + rest.text
  {
    hide U.Step, U.Pending;
    var d := U.Step(pending, data[0]);
    var rest := U.Decode(d.pending, data[1..]);
    assert fragment + (d.text + rest.text) == fragment + d.text + rest.text;
  }

  /** Scalar values that no control sequence is made of. */
  predicate PrintableText(text: U.Text) {
    U.Scalars(text) && forall i | 0 <= i < |text| :: text[i] >= 0x20 && text[i] != 0x7F
  }

  lemma EncodedIsPlain(c: nat)
    requires U.Scalar(c) && c >= 0x20 && c != 0x7F
    ensures Plain(U.Encode(c))
  {
  }

  lemma {:induction false} EncodeAllPlain(text: U.Text)
    requires PrintableText(text)
    ensures Plain(U.EncodeAll(text))
    decreases |text|
  {
    if text != [] {
      EncodedIsPlain(text[0]);
      EncodeAllPlain(text[1..]);
    }
  }

  /** Printable characters, encoded, come out as they are from any parser that is in text mode. */
  lemma PrintableTextPasses(t: Parser, text: U.Text)
    requires DecoderOk(t) && t.mode.TextMode? && t.pending == [] && PrintableText(text)
    ensures Text(t, U.EncodeAll(text)) == text
  {
    EncodeAllPlain(text);
    PlainBytes(t, U.EncodeAll(text), []);
    U.DecodeEncodedAll(text);
    assert [] + text == text;
  }

  // ---- Line ends and control sequences --------------------------------------

  /** After a CR the parser differs only in that it would skip an LF. */
  lemma AfterCr(t: Parser, b: byte)
    requires DecoderOk(t) && t.mode.TextMode? && !t.sawCr && b != 0x0A
    ensures Byte(t.(sawCr := true), b) == Byte(t, b)
  {
  }

  lemma LineEnd(t: Parser, fragment: U.Text)
    requires DecoderOk(t) && t.mode.TextMode? && !t.sawCr
    ensures var ended, text := t.(pending := []), fragment + (U.Flush(t.pending) + [LF]);
            && After(t, [0x0A]) == ended && Fragment(t, [0x0A], fragment) == text
            && After(t, [0x0D]) == ended.(sawCr := true) && Fragment(t, [0x0D], fragment) == text
            && After(t, [0x0D, 0x0A]) == ended && Fragment(t, [0x0D, 0x0A], fragment) == text
  {
    var cr: seq<byte> := [0x0D, 0x0A];
    var lf: seq<byte> := [0x0A];
    assert cr[1..] == lf && lf[1..] == [];
    assert fragment + (U.Flush(t.pending) + [LF]) + [] == fragment + (U.Flush(t.pending) + [LF]);
  }

  /**
   Whatever follows, a line ended by CR LF leaves state and text as one ended by LF; so does
   one ended by CR, unless an LF comes next, which belongs to it.
   */
  lemma EveryLineEndIsOneNewline(t: Parser, rest: seq<byte>)
    requires DecoderOk(t) && t.mode.TextMode? && !t.sawCr
    ensures After(t, [0x0D, 0x0A] + rest) == After(t, [0x0A] + rest)
    ensures Text(t, [0x0D, 0x0A] + rest) == Text(t, [0x0A] + rest)
    ensures rest != [] && rest[0] != 0x0A ==> After(t, [0x0D] + rest) == After(t, [0x0A] + rest)
    ensures rest == [] || rest[0] != 0x0A ==> Text(t, [0x0D] + rest) == Text(t, [0x0A] + rest)
  {
    LineEnd(t, []);
    SplitState(t, [0x0D, 0x0A], rest);
    SplitState(t, [0x0A], rest);
    SplitState(t, [0x0D], rest);
    SplitFragment(t, [0x0D, 0x0A], rest, []);
    SplitFragment(t, [0x0A], rest, []);
    SplitFragment(t, [0x0D], rest, []);
    if rest != [] && rest[0] != 0x0A {
      AfterCr(t.(pending := []), rest[0]);
    }
    hide Byte;
  }

  predicate NoFinal(body: seq<byte>) {
    forall i | 0 <= i < |body| :: !CsiFinal(body[i])
  }

  /** Once too long, a control sequence is skipped to its final byte. */
  lemma {:induction false} RestIsDiscarded(t: Parser, body: seq<byte>, final: byte, fragment: U.Text)
    requires DecoderOk(t) && t.mode.DiscardCsi? && NoFinal(body) && CsiFinal(final)
    ensures After(t, body + [final]) == t.(mode := TextMode)
    ensures Fragment(t, body + [final], fragment) == fragment
    decreases |body|
  {
    assert fragment + [] == fragment;
    if body == [] {
      assert body + [final] == [final] && [final][1..] == [];
    } else {
      assert (body + [final])[0] == body[0] && (body + [final])[1..] == body[1..] + [final];
      RestIsDiscarded(t, body[1..], final, fragment);
    }
  }

  predicate Fits(t: Parser, body: seq<byte>) {
    |t.escape| + |body| + 1 <= t.limit
  }

  /**
   What remains of a parser when the control sequence it was collecting is over.  A final
   byte that is itself the first one over the limit is dropped before it is looked at.
   */
  function Finished(t: Parser, body: seq<byte>, final: byte): Parser {
    t.(mode := if |t.escape| + |body| == t.limit then DiscardCsi else TextMode, escape := [],
       responses := t.responses + (if Fits(t, body) then Answer(t.escape + body + [final]) else []),
       controlTruncated := t.controlTruncated || !Fits(t, body))
  }

  lemma {:induction false} RestIsCollected(t: Parser, body: seq<byte>, final: byte, fragment: U.Text)
    requires DecoderOk(t) && t.mode.Csi? && |t.escape| <= t.limit && NoFinal(body) && CsiFinal(final)
    ensures After(t, body + [final]) == Finished(t, body, final)
    ensures Fragment(t, body + [final], fragment) == fragment
    decreases |body|
  {
    assert fragment + [] == fragment;
    if body == [] {
      assert body + [final] == [final] && [final][1..] == [];
      assert t.escape + body + [final] == t.escape + [final];
      assert t.responses + [] == t.responses;
    } else {
      var rest := body[1..];
      assert (body + [final])[0] == body[0] && (body + [final])[1..] == rest + [final];
      var next := ControlByte(t, body[0]);
      assert Byte(t, body[0]) == (next, NOTHING);
      if |t.escape| + 1 > t.limit {
        RestIsDiscarded(next, rest, final, fragment);
        assert t.responses + [] == t.responses;
      } else {
        assert t.escape + [body[0]] + rest + [final] == t.escape + body + [final];
        RestIsCollected(next, rest, final, fragment);
      }
    }
  }

  /** The state behind the two opening bytes; a limit below two is exceeded there already. */
  function Opened(t: Parser): Parser {
    var quiet := t.(sawCr := false, pending := []);
    if t.limit >= 2 then quiet.(mode := Csi, escape := [0x1B, 0x5B])
    else quiet.(mode := DiscardCsi, escape := [], controlTruncated := true)
  }

  lemma SequenceOpens(t: Parser, rest: seq<byte>, fragment: U.Text)
    requires DecoderOk(t) && t.mode.TextMode?
    ensures var started := Opened(t);
            && After(t, [0x1B, 0x5B] + rest) == After(started, rest)
            && Fragment(t, [0x1B, 0x5B] + rest, fragment) == Fragment(started, rest, fragment + U.Flush(t.pending))
  {
    var data := [0x1B, 0x5B] + rest;
    assert data[0] == 0x1B && data[1..][0] == 0x5B && data[1..][1..] == rest;
    var escaped := Byte(t, 0x1B).0;
    assert escaped.escape + [0x5B] == [0x1B, 0x5B];
    assert fragment + U.Flush(t.pending) + [] == fragment + U.Flush(t.pending);
  }

  /**
   A control sequence of any length shows nothing but an unfinished character before it; the
   flag is set exactly when it is longer than the limit, a status report within the limit is
   answered, and text mode resumes behind its final byte, unless the sequence is longer
   than the limit by exactly one: then text is swallowed up to the next final byte.
   */
  lemma ControlSequenceIsStripped(t: Parser, body: seq<byte>, final: byte)
    requires DecoderOk(t) && t.mode.TextMode? && NoFinal(body) && CsiFinal(final)
    ensures var data := [0x1B, 0x5B] + (body + [final]);
            && Text(t, data) == U.Flush(t.pending)
            && After(t, data) == t.(
                 mode := if |data| == t.limit + 1 then DiscardCsi else TextMode,
                 sawCr := false, pending := [], escape := [],
                 responses := t.responses + (if |data| <= t.limit then Answer(data) else []),
                 controlTruncated := t.controlTruncated || |data| > t.limit)
  {
    hide After, Fragment, Answer, U.Flush;
    var shown := U.Flush(t.pending);
    SequenceOpens(t, body + [final], []);
    assert [] + shown == shown;
    if t.limit >= 2 {
      RestIsCollected(Opened(t), body, final, shown);
    } else {
      RestIsDiscarded(Opened(t), body, final, shown);
      assert t.responses + [] == t.responses;
    }
    assert [0x1B, 0x5B] + body + [final] == [0x1B, 0x5B] + (body + [final]);
  }

  // ---- Operating-system commands --------------------------------------------

  const BEL: seq<byte> := [0x07]
  const ST: seq<byte> := [0x1B, 0x5C]

  /** Neither BEL nor ST is in `body`. */
  predicate NoTerminator(body: seq<byte>) {
    && (forall i | 0 <= i < |body| :: body[i] != 0x07)
    && (forall i | 0 < i < |body| :: !(body[i - 1] == 0x1B && body[i] == 0x5C))
  }

  /** The first byte of `body` does not complete an ST whose escape has gone before. */
  predicate NoSplitSt(escaped: bool, body: seq<byte>) {
    !(escaped && body != [] && body[0] == 0x5C)
  }

  /** Only the skipping of a command remembers an escape. */
  predicate Settled(t: Parser) {
    t.discardSawEscape ==> t.mode.DiscardOsc?
  }

  lemma {:induction false} StaysSettled(t: Parser, data: seq<byte>)
    requires DecoderOk(t) && Settled(t)
    ensures Settled(After(t, data))
    decreases |data|
  {
    if data != [] {
      hide U.Step, U.Pending, U.Flush, Answer;
      ByteKeepsDecoder(t, data[0]);
      StaysSettled(Byte(t, data[0]).0, data[1..]);
    }
  }

  lemma ThenBytes(t: Parser, b: byte, rest: seq<byte>, fragment: U.Text)
    requires DecoderOk(t) && Byte(t, b).1 == NOTHING && DecoderOk(Byte(t, b).0)
    ensures After(t, [b] + rest) == After(Byte(t, b).0, rest)
    ensures Fragment(t, [b] + rest, fragment) == Fragment(Byte(t, b).0, rest, fragment)
  {
    hide Byte, DecoderOk;
    assert ([b] + rest)[0] == b && ([b] + rest)[1..] == rest;
    assert Apply(fragment, NOTHING) == fragment by { assert fragment + [] == fragment; }
  }

  lemma Ends(t: Parser, fragment: U.Text)
    requires DecoderOk(t)
    ensures After(t, []) == t && Fragment(t, [], fragment) == fragment
  {
  }

  /** Once too long, a command is skipped to its terminator. */
  lemma {:induction false} CommandIsDiscarded(t: Parser, body: seq<byte>, end: seq<byte>, fragment: U.Text)
    requires DecoderOk(t) && t.mode.DiscardOsc? && NoTerminator(body) && NoSplitSt(t.discardSawEscape, body)
    requires end == BEL || end == ST
    ensures After(t, body + end) == t.(mode := TextMode, discardSawEscape := false)
    ensures Fragment(t, body + end, fragment) == fragment
    decreases |body|
  {
    hide After, Fragment;
    if body != [] {
      var next := Byte(t, body[0]).0;
      assert body + end == [body[0]] + (body[1..] + end);
      ThenBytes(t, body[0], body[1..] + end, fragment);
      CommandIsDiscarded(next, body[1..], end, fragment);
    } else if end == BEL {
      assert body + end == [0x07] + [];
      ThenBytes(t, 0x07, [], fragment);
      Ends(Byte(t, 0x07).0, fragment);
    } else {
      assert body + end == [0x1B] + ([0x5C] + []);
      ThenBytes(t, 0x1B, [0x5C] + [], fragment);
      ThenBytes(Byte(t, 0x1B).0, 0x5C, [], fragment);
      Ends(Byte(Byte(t, 0x1B).0, 0x5C).0, fragment);
    }
  }

  /** The length check takes the last byte of the command, or the escape of its ST. */
  predicate LosesTerminator(length: nat, limit: nat, end: seq<byte>) {
    length == limit + 1 || (end == ST && length == limit + 2)
  }

  /** What remains of a parser when the command it was collecting, `length` bytes in all, is over. */
  function CommandOver(t: Parser, length: nat, end: seq<byte>): Parser {
    t.(mode := if LosesTerminator(length, t.limit, end) then DiscardOsc else TextMode, escape := [],
       controlTruncated := t.controlTruncated || length > t.limit)
  }

  predicate EndsInEscape(s: seq<byte>) {
    s != [] && s[|s| - 1] == 0x1B
  }

  lemma TerminatorIsRead(t: Parser, end: seq<byte>, fragment: U.Text)
    requires DecoderOk(t) && t.mode.Osc? && |t.escape| <= t.limit && !t.discardSawEscape
    requires end == BEL || end == ST
    ensures After(t, end) == CommandOver(t, |t.escape| + |end|, end)
    ensures Fragment(t, end, fragment) == fragment
  {
    hide After, Fragment;
    if end == BEL {
      assert end == [0x07] + [];
      ThenBytes(t, 0x07, [], fragment);
      Ends(Byte(t, 0x07).0, fragment);
    } else {
      assert end == [0x1B] + ([0x5C] + []);
      ThenBytes(t, 0x1B, [0x5C] + [], fragment);
      ThenBytes(Byte(t, 0x1B).0, 0x5C, [], fragment);
      Ends(Byte(Byte(t, 0x1B).0, 0x5C).0, fragment);
    }
  }

  lemma {:induction false} CommandIsCollected(t: Parser, body: seq<byte>, end: seq<byte>, fragment: U.Text)
    requires DecoderOk(t) && t.mode.Osc? && |t.escape| <= t.limit && !t.discardSawEscape
    requires NoTerminator(body) && NoSplitSt(EndsInEscape(t.escape), body) && (end == BEL || end == ST)
    ensures After(t, body + end) == CommandOver(t, |t.escape| + |body| + |end|, end)
    ensures Fragment(t, body + end, fragment) == fragment
    decreases |body|
  {
    hide After, Fragment;
    if body == [] {
      assert body + end == end;
      TerminatorIsRead(t, end, fragment);
    } else {
      var rest := body[1..];
      var next := Byte(t, body[0]).0;
      assert body + end == [body[0]] + (rest + end);
      ThenBytes(t, body[0], rest + end, fragment);
      if |t.escape| + 1 > t.limit {
        CommandIsDiscarded(next, rest, end, fragment);
      } else {
        CommandIsCollected(next, rest, end, fragment);
      }
    }
  }

  lemma CommandOpens(t: Parser, rest: seq<byte>, fragment: U.Text)
    requires DecoderOk(t) && t.mode.TextMode? && t.limit >= 2
    ensures var started := t.(sawCr := false, pending := [], mode := Osc, escape := [0x1B, 0x5D]);
            && After(t, [0x1B, 0x5D] + rest) == After(started, rest)
            && Fragment(t, [0x1B, 0x5D] + rest, fragment) == Fragment(started, rest, fragment + U.Flush(t.pending))
  {
    var data := [0x1B, 0x5D] + rest;
    assert data[0] == 0x1B && data[1..][0] == 0x5D && data[1..][1..] == rest;
    var escaped := Byte(t, 0x1B).0;
    assert escaped.escape + [0x5D] == [0x1B, 0x5D];
    assert fragment + U.Flush(t.pending) + [] == fragment + U.Flush(t.pending);
  }

  /**
   An operating-system command of any length shows nothing but an unfinished character before
   it, and the flag is set exactly when it is longer than the limit.  Text mode resumes behind
   its terminator, unless the length check takes the terminator: a command one byte too
   long, or two when it ends in ST, swallows text up to the next terminator.
   */
  lemma CommandIsStripped(t: Parser, body: seq<byte>, end: seq<byte>)
    requires DecoderOk(t) && t.mode.TextMode? && Settled(t) && t.limit >= 2
    requires NoTerminator(body) && (end == BEL || end == ST)
    ensures var data := [0x1B, 0x5D] + (body + end);
            && Text(t, data) == U.Flush(t.pending)
            && After(t, data) == CommandOver(t.(sawCr := false, pending := []), |data|, end)
  {
    hide After, Fragment, U.Flush;
    var shown := U.Flush(t.pending);
    CommandOpens(t, body + end, []);
    assert [] + shown == shown;
    CommandIsCollected(t.(sawCr := false, pending := [], mode := Osc, escape := [0x1B, 0x5D]), body, end, shown);
  }

  /** With a limit below two a command is taken for a control sequence from its second byte on. */
  lemma CommandBelowTwo(t: Parser, rest: seq<byte>)
    requires DecoderOk(t) && t.mode.TextMode? && t.limit < 2
    ensures After(t, [0x1B, 0x5D] + rest) == After(t, [0x1B, 0x5B] + rest)
    ensures Text(t, [0x1B, 0x5D] + rest) == Text(t, [0x1B, 0x5B] + rest)
  {
    var first: seq<byte> := [0x1B];
    assert first[1..] == [];
    var escaped := After(t, first);
    assert escaped == Byte(t, 0x1B).0;
    assert |escaped.escape + [0x5D]| == |escaped.escape + [0x5B]| == 2;
    assert Byte(escaped, 0x5D) == Byte(escaped, 0x5B);
    SecondByte(t, 0x5D, rest);
    SecondByte(t, 0x5B, rest);
  }

  lemma SecondByte(t: Parser, b: byte, rest: seq<byte>)
    requires DecoderOk(t) && Byte(After(t, [0x1B]), b).1 == NOTHING && DecoderOk(Byte(After(t, [0x1B]), b).0)
    ensures After(t, [0x1B, b] + rest) == After(Byte(After(t, [0x1B]), b).0, rest)
    ensures Text(t, [0x1B, b] + rest) == Fragment(Byte(After(t, [0x1B]), b).0, rest, Text(t, [0x1B]))
  {
    hide Byte, After, Fragment, DecoderOk;
    assert [0x1B, b] + rest == [0x1B] + ([b] + rest);
    SplitState(t, [0x1B], [b] + rest);
    SplitFragment(t, [0x1B], [b] + rest, []);
    ThenBytes(After(t, [0x1B]), b, rest, Text(t, [0x1B]));
  }

  /** Both ways of losing a terminator, at a limit of three. */
  lemma CommandsThatLoseTheirTerminator()
    ensures After(New(3), [0x1B, 0x5D] + ([0x61] + BEL)).mode.DiscardOsc?
    ensures After(New(3), [0x1B, 0x5D] + ([0x61] + ST)).mode.DiscardOsc?
  {
    hide After;
    CommandIsStripped(New(3), [0x61], BEL);
    CommandIsStripped(New(3), [0x61], ST);
  }

  // ---- Device status reports ------------------------------------------------

  /** A status report is answered once, with its own answer, if it is within the limit. */
  lemma StatusReportsAreAnswered(t: Parser)
    requires DecoderOk(t) && t.mode.TextMode?
    ensures After(t, [0x1B, 0x5B, 0x35, 0x6E]).responses
         == t.responses + if t.limit >= 4 then [[0x1B, 0x5B, 0x30, 0x6E]] else []
    ensures After(t, [0x1B, 0x5B, 0x36, 0x6E]).responses
         == t.responses + if t.limit >= 4 then [[0x1B, 0x5B, 0x31, 0x3B, 0x31, 0x52]] else []
    ensures After(t, [0x1B, 0x5B, 0x3F, 0x36, 0x6E]).responses
         == t.responses + if t.limit >= 5 then [[0x1B, 0x5B, 0x3F, 0x31, 0x3B, 0x31, 0x52]] else []
  {
    hide After;
    Report(t, [0x35], [0x1B, 0x5B, 0x35, 0x6E]);
    Report(t, [0x36], [0x1B, 0x5B, 0x36, 0x6E]);
    Report(t, [0x3F, 0x36], [0x1B, 0x5B, 0x3F, 0x36, 0x6E]);
  }

  lemma Report(t: Parser, body: seq<byte>, sequence: seq<byte>)
    requires DecoderOk(t) && t.mode.TextMode? && NoFinal(body)
    requires sequence == [0x1B, 0x5B] + (body + [0x6E])
    ensures After(t, sequence).responses == t.responses + if |sequence| <= t.limit then Answer(sequence) else []
  {
    hide After, Answer;
    ControlSequenceIsStripped(t, body, 0x6E);
  }
}
