/** The normalizer object: one loop over the bytes of each call, its state kept between calls. */
module TerminalNormalizer {
  import opened Basics
  import T = Terminal
  import U = Utf8

  class TerminalNormalizer {
    const escapeLimit: nat
    var mode: T.Mode
    var sawCr: bool
    var escape: seq<byte>
    var discardSawEscape: bool
    var pending: seq<byte>
    var responses: seq<seq<byte>>
    var controlTruncated: bool

    function State(): T.Parser
      reads this
    {
      T.Parser(escapeLimit, mode, sawCr, escape, discardSawEscape, pending, responses, controlTruncated)
    }

    ghost predicate Valid()
      reads this
    {
      T.DecoderOk(State()) && T.Bounded(State())
    }

    constructor (escapeLimit: nat)
      ensures Valid() && State() == T.New(escapeLimit)
    {
      this.escapeLimit := escapeLimit;
      mode, sawCr, escape, discardSawEscape := T.TextMode, false, [], false;
      pending, responses, controlTruncated := [], [], false;
    }

    method Feed(data: seq<byte>) returns (fragment: U.Text)
      requires Valid()
      modifies this
      ensures Valid() && State() == T.After(old(State()), data)
      ensures fragment == T.Text(old(State()), data) && T.Clean(fragment)
    {
      T.StaysBoundedAndClean(State(), data, []);
      hide T.Byte, T.TextByte, T.ControlByte, T.Bounded, T.Clean;
      fragment := [];
      var index := 0;
      while index < |data|
        invariant index <= |data| && T.DecoderOk(State())
        invariant T.After(State(), data[index..]) == T.After(old(State()), data)
        invariant T.Fragment(State(), data[index..], fragment) == T.Text(old(State()), data)
      {
        var b := data[index];
        index := index + 1;
        assert data[index - 1..][0] == b && data[index - 1..][1..] == data[index..];
        fragment := FeedByte(b, fragment);
      }
    }

    method FeedByte(b: byte, before: U.Text) returns (fragment: U.Text)
      requires T.DecoderOk(State())
      modifies this
      ensures T.DecoderOk(State())
      ensures State() == T.Byte(old(State()), b).0 && fragment == T.Apply(before, T.Byte(old(State()), b).1)
    {
      T.ByteKeepsDecoder(State(), b);
      hide T.ControlByte, T.TextByte;
      fragment := before;
      if mode.TextMode? {
        var skips := sawCr && b == 0x0A;
        sawCr := false;
        if skips {
        } else if b == 0x1B {
          fragment := fragment + FlushPending();
          pending, mode, escape := [], T.Escape, [b];
        } else {
          fragment := ConsumeTextByte(b, fragment);
        }
      } else if mode.DiscardCsi? {
        if 0x40 <= b <= 0x7E {
          mode := T.TextMode;
        }
      } else if mode.DiscardOsc? {
        if b == 0x07 || (discardSawEscape && b == 0x5C) {
          mode, discardSawEscape := T.TextMode, false;
        } else {
          discardSawEscape := b == 0x1B;
        }
      } else {
        ConsumeControlByte(b);
      }
    }

    function FlushPending(): U.Text
      reads this
    {
      U.Flush(pending)
    }

    method ConsumeTextByte(b: byte, before: U.Text) returns (fragment: U.Text)
      requires T.DecoderOk(State()) && !sawCr
      modifies this`pending, this`sawCr
      ensures State() == T.TextByte(old(State()), b).0
      ensures fragment == T.Apply(before, T.TextByte(old(State()), b).1)
    {
      fragment := before;
      if b >= 0x20 && b != 0x7F {
        var decoded := U.Step(pending, b);
        pending := decoded.pending;
        return fragment + decoded.text;
      }
      fragment := fragment + FlushPending();
      pending := [];
      if b == 0x0A || b == 0x0D {
        assert fragment + [T.LF] == before + (U.Flush(old(pending)) + [T.LF]);
        fragment := fragment + [T.LF];
        if b == 0x0D {
          sawCr := true;
        }
      } else if b == 0x08 {
        if fragment != [] && fragment[|fragment| - 1] != T.LF {
          fragment := fragment[..|fragment| - 1];
        }
      } else if b == 0x09 {
        assert fragment + [T.TAB] == before + (U.Flush(old(pending)) + [T.TAB]);
        fragment := fragment + [T.TAB];
      }
    }

    method ConsumeControlByte(b: byte)
      requires mode.Escape? || mode.Csi? || mode.Osc?
      modifies this`escape, this`mode, this`responses, this`controlTruncated
      ensures State() == T.ControlByte(old(State()), b)
    {
      escape := escape + [b];
      if |escape| > escapeLimit {
        mode := if mode.Osc? then T.DiscardOsc else T.DiscardCsi;
        escape := [];
        controlTruncated := true;
      } else if mode.Escape? {
        if b == 0x5B {
          mode := T.Csi;
        } else if b == 0x5D {
          mode := T.Osc;
        } else {
          mode, escape := T.TextMode, [];
        }
      } else if mode.Csi? {
        if 0x40 <= b <= 0x7E {
          responses := responses + T.Answer(escape);
          mode, escape := T.TextMode, [];
        }
      } else if b == 0x07 {
        mode, escape := T.TextMode, [];
      } else if |escape| >= 2 && escape[|escape| - 2..] == [0x1B, 0x5C] {
        assert escape[|escape| - 2..][0] == old(escape)[|old(escape)| - 1];
        assert escape[|escape| - 2..][1] == b;
        mode, escape := T.TextMode, [];
      } else {
        assert |escape| >= 2 ==> escape[|escape| - 2..] == [old(escape)[|old(escape)| - 1], b];
      }
    }

    /** End of stream: an unfinished character becomes one replacement character. */
    method Flush() returns (text: U.Text)
      requires Valid()
      modifies this`pending
      ensures Valid() && State() == old(State()).(pending := [])
      ensures text == U.Flush(old(pending))
    {
      text := FlushPending();
      pending := [];
    }

    /** The answers so far, each handed over once. */
    method TakeResponses() returns (taken: seq<seq<byte>>)
      requires Valid()
      modifies this`responses
      ensures Valid() && State() == old(State()).(responses := []) && taken == old(responses)
    {
      taken := responses;
      responses := [];
    }
  }
}
