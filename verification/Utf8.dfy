/**
 The incremental UTF-8 decoder with replacement: ill-formed input becomes U+FFFD once
 per maximal subpart, as in section 3.9 of the Unicode Standard.  Text is a sequence of
 code points.
 */
module Utf8 {
  import opened Basics

  type Text = seq<nat>

  const REPLACEMENT: nat := 0xFFFD

  /** How many continuation bytes a lead byte asks for; none for a byte that leads nothing. */
  function Wanted(lead: byte): nat {
    if 0xC2 <= lead <= 0xDF then 1
    else if 0xE0 <= lead <= 0xEF then 2
    else if 0xF0 <= lead <= 0xF4 then 3
    else 0
  }

  /** Whether `b` may follow the unfinished sequence `pending`. */
  predicate Continues(pending: seq<byte>, b: byte)
    requires pending != []
  {
    var low := if |pending| > 1 then 0x80 else if pending[0] == 0xE0 then 0xA0
               else if pending[0] == 0xF0 then 0x90 else 0x80;
    var high := if |pending| > 1 then 0xBF else if pending[0] == 0xED then 0x9F
                else if pending[0] == 0xF4 then 0x8F else 0xBF;
    low <= b <= high
  }

  /** A proper prefix of a well-formed multi-byte sequence. */
  predicate Unfinished(pending: seq<byte>) {
    && 0 < |pending| <= Wanted(pending[0])
    && forall i | 1 <= i < |pending| :: Continues(pending[..i], pending[i])
  }

  function CodePoint(s: seq<byte>): nat
    requires |s| > 1 && Unfinished(s[..|s| - 1]) && Continues(s[..|s| - 1], s[|s| - 1]) && |s| == Wanted(s[0]) + 1
    ensures CodePoint(s) >= 0x80
  {
    var lead: int := s[0];
    var second: int := s[1] - 0x80;
    if |s| == 2 then (lead - 0xC0) * 64 + second
    else
      assert Continues(s[..|s| - 1][..1], s[1]);
      var third: int := s[2] - 0x80;
      if |s| == 3 then ((lead - 0xE0) * 64 + second) * 64 + third
      else
        assert Continues(s[..|s| - 1][..2], s[2]);
        var fourth: int := s[3] - 0x80;
        (((lead - 0xF0) * 64 + second) * 64 + third) * 64 + fourth
  }

  datatype Decoded = Decoded(pending: seq<byte>, text: Text)

  /** One byte with nothing pending. */
  function Lead(b: byte): Decoded {
    if b < 0x80 then Decoded([], [b as nat])
    else if Wanted(b) > 0 then Decoded([b], [])
    else Decoded([], [REPLACEMENT])
  }

  predicate Pending(p: seq<byte>) {
    p == [] || Unfinished(p)
  }

  function Step(pending: seq<byte>, b: byte): (r: Decoded)
    requires Pending(pending)
    ensures Pending(r.pending)
    ensures b >= 0x20 && b != 0x7F ==> forall c | c in r.text :: c >= 0x20 && c != 0x7F
  {
    if pending == [] then Lead(b)
    else if !Continues(pending, b) then
      var next := Lead(b);
      Decoded(next.pending, [REPLACEMENT] + next.text)
    else
      var longer := pending + [b];
      assert longer[..|longer| - 1] == pending;
      if |pending| == Wanted(pending[0]) then Decoded([], [CodePoint(longer)])
      else
        assert forall i | 1 <= i < |pending| :: longer[..i] == pending[..i];
        Decoded(longer, [])
  }

  /** End of stream: an unfinished sequence is one error. */
  function Flush(pending: seq<byte>): Text {
    if pending == [] then [] else [REPLACEMENT]
  }

  function Decode(pending: seq<byte>, data: seq<byte>): (r: Decoded)
    requires Pending(pending)
    ensures Pending(r.pending)
    decreases |data|
  {
    if data == [] then Decoded(pending, [])
    else
      var first := Step(pending, data[0]);
      var rest := Decode(first.pending, data[1..]);
      Decoded(rest.pending, first.text + rest.text)
  }

  /** A scalar value: a code point that is not a surrogate. */
  predicate Scalar(c: nat) {
    c < 0xD800 || 0xE000 <= c < 0x110000
  }

  /** The encoding of section 3 of RFC 3629. */
  function Encode(c: nat): seq<byte>
    requires Scalar(c)
  {
    if c < 0x80 then [c as byte]
    else if c < 0x800 then [(0xC0 + c / 64) as byte, (0x80 + c % 64) as byte]
    else if c < 0x10000 then
      [(0xE0 + c / 4096) as byte, (0x80 + c / 64 % 64) as byte, (0x80 + c % 64) as byte]
    else
      [(0xF0 + c / 262144) as byte, (0x80 + c / 4096 % 64) as byte,
       (0x80 + c / 64 % 64) as byte, (0x80 + c % 64) as byte]
  }

  lemma Digits(c: nat)
    ensures c / 64 / 64 == c / 4096 && c / 4096 / 64 == c / 262144
    ensures c == c / 64 * 64 + c % 64
    ensures c / 64 == c / 4096 * 64 + c / 64 % 64
    ensures c / 4096 == c / 262144 * 64 + c / 4096 % 64
  {
  }

  lemma StepThrough(pending: seq<byte>, b: byte, rest: seq<byte>)
    requires Pending(pending)
    ensures var first := Step(pending, b);
            var after := Decode(first.pending, rest);
            Decode(pending, [b] + rest) == Decoded(after.pending, first.text + after.text)
  {
    assert ([b] + rest)[1..] == rest;
  }

  lemma TwoBytes(c: nat)
    requires Scalar(c) && |Encode(c)| == 2
    ensures Decode([], Encode(c)) == Decoded([], [c])
  {
    var e := Encode(c);
    assert e == [e[0]] + [e[1]];
    Digits(c);
    assert Step([e[0]], e[1]) == Decoded([], [c]) by { assert ([e[0]] + [e[1]])[..1] == [e[0]]; }
    StepThrough([e[0]], e[1], []);
    assert [e[1]] + [] == [e[1]];
    StepThrough([], e[0], [e[1]]);
  }

  lemma ThreeBytes(c: nat)
    requires Scalar(c) && |Encode(c)| == 3
    ensures Decode([], Encode(c)) == Decoded([], [c])
  {
    var e := Encode(c);
    Digits(c);
    var one, two := [e[0]], [e[0], e[1]];
    assert one + [e[1]] == two && two[..1] == one;
    assert Step(one, e[1]) == Decoded(two, []);
    assert two + [e[2]] == e && e[..2] == two;
    assert Step(two, e[2]) == Decoded([], [c]);
    StepThrough(two, e[2], []);
    assert [e[2]] + [] == [e[2]];
    StepThrough(one, e[1], [e[2]]);
    StepThrough([], e[0], [e[1]] + [e[2]]);
    assert e == [e[0]] + ([e[1]] + [e[2]]);
  }

  lemma FourBytes(c: nat)
    requires Scalar(c) && |Encode(c)| == 4
    ensures Decode([], Encode(c)) == Decoded([], [c])
  {
    var e := Encode(c);
    Digits(c);
    var one, two, three := [e[0]], [e[0], e[1]], [e[0], e[1], e[2]];
    assert one + [e[1]] == two && two[..1] == one;
    assert Step(one, e[1]) == Decoded(two, []);
    assert two + [e[2]] == three && three[..1] == one && three[..2] == two;
    assert Step(two, e[2]) == Decoded(three, []);
    assert three + [e[3]] == e && e[..3] == three;
    assert Step(three, e[3]) == Decoded([], [c]);
    StepThrough(three, e[3], []);
    assert [e[3]] + [] == [e[3]];
    StepThrough(two, e[2], [e[3]]);
    StepThrough(one, e[1], [e[2]] + [e[3]]);
    StepThrough([], e[0], [e[1]] + ([e[2]] + [e[3]]));
    assert e == [e[0]] + ([e[1]] + ([e[2]] + [e[3]]));
  }

  /** Decoding what RFC 3629 encodes gives every scalar value back, with nothing pending. */
  lemma DecodeEncoded(c: nat)
    requires Scalar(c)
    ensures Decode([], Encode(c)) == Decoded([], [c])
  {
    Digits(c);
    var e := Encode(c);
    if |e| == 1 {
    } else if |e| == 2 {
      TwoBytes(c);
    } else if |e| == 3 {
      ThreeBytes(c);
    } else {
      FourBytes(c);
    }
  }

  predicate Scalars(text: Text) {
    forall i | 0 <= i < |text| :: Scalar(text[i])
  }

  function EncodeAll(text: Text): seq<byte>
    requires Scalars(text)
  {
    if text == [] then [] else Encode(text[0]) + EncodeAll(text[1..])
  }

  lemma {:induction false} DecodeAppend(pending: seq<byte>, a: seq<byte>, b: seq<byte>)
    requires Pending(pending)
    ensures var first := Decode(pending, a);
            var rest := Decode(first.pending, b);
            Decode(pending, a + b) == Decoded(rest.pending, first.text + rest.text)
    decreases |a|
  {
    if a == [] {
      assert a + b == b;
    } else {
      assert (a + b)[0] == a[0] && (a + b)[1..] == a[1..] + b;
      hide Step, Pending;
      DecodeAppend(Step(pending, a[0]).pending, a[1..], b);
    }
  }

  lemma {:induction false} DecodeEncodedAll(text: Text)
    requires Scalars(text)
    ensures Decode([], EncodeAll(text)) == Decoded([], text)
    decreases |text|
  {
    if text != [] {
      DecodeEncoded(text[0]);
      DecodeEncodedAll(text[1..]);
      DecodeAppend([], Encode(text[0]), EncodeAll(text[1..]));
      assert [text[0]] + text[1..] == text;
    }
  }
}
