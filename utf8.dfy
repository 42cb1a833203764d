/**
 * The UTF-8 step of the text printer. It reads one character from a
 * NUL-terminated byte string and yields its 16-bit code point and how far
 * to advance. Recovery from errors is deliberately lopsided: a bad
 * continuation byte skips only the lead byte, while any four-byte lead
 * skips four bytes unchecked. A NUL inside a sequence ends the text.
 */
module Utf8 {
  /** The code point printed for anything that cannot be decoded. */
  const QUESTION_MARK: nat := 0x3F

  /**
   * Byte `i` of a C string held in `s`. The string ends at the first NUL
   * or at the end of `s`, whichever comes first, so reading past the end
   * yields the terminator.
   */
  function ByteAt(s: seq<bv8>, i: nat): bv8
  {
    if i < |s| then s[i] else 0
  }

  /** `b` is a continuation byte `10xxxxxx`. */
  predicate Continuation(b: bv8)
  {
    b & 0xC0 == 0x80
  }

  /** The outcome of one decoding step. */
  datatype Step =
    | Stop                              // an incomplete sequence: printing ends here
    | Char(cp: nat, advance: nat)       // a 16-bit code point and the bytes it used

  /**
   * Decodes one character from its lead byte `b0` and the three bytes after
   * it; a byte after the terminator is never looked at, because every test
   * for the terminator comes before the byte following it is read.
   */
  function DecodeBytes(b0: bv8, b1: bv8, b2: bv8, b3: bv8): Step
  {
    if b0 < 0x80 then
      Char(b0 as nat, 1)
    else if b0 & 0xE0 == 0xC0 then
      if b1 == 0 then Stop
      else if !Continuation(b1) then Char(QUESTION_MARK, 1)
      else Char((((b0 & 0x1F) as bv16 << 6) | (b1 & 0x3F) as bv16) as nat, 2)
    else if b0 & 0xF0 == 0xE0 then
      if b1 == 0 || b2 == 0 then Stop
      else if !Continuation(b1) || !Continuation(b2) then Char(QUESTION_MARK, 1)
      else Char((((b0 & 0x0F) as bv16 << 12) | ((b1 & 0x3F) as bv16 << 6) | (b2 & 0x3F) as bv16) as nat, 3)
    else if b0 & 0xF8 == 0xF0 then
      if b1 == 0 || b2 == 0 || b3 == 0 then Stop
      else Char(QUESTION_MARK, 4)
    else
      Char(QUESTION_MARK, 1)
  }

  /**
   * Decodes the character whose lead byte is `s[pos]`. A lead below 0x80
   * is itself, including NUL; the caller checks for the terminator first.
   */
  function Decode(s: seq<bv8>, pos: nat): (r: Step)
    requires pos < |s|
    ensures r.Char? ==> 1 <= r.advance <= 4 && pos + r.advance <= |s| && r.cp < 0x1_0000
    ensures s[pos] < 0x80 ==> r == Char(s[pos] as nat, 1)
    ensures (0x80 <= s[pos] < 0xC0 || 0xF8 <= s[pos]) ==> r == Char(QUESTION_MARK, 1)
    ensures 0xF0 <= s[pos] < 0xF8 ==>
      r == if ByteAt(s, pos + 1) == 0 || ByteAt(s, pos + 2) == 0 || ByteAt(s, pos + 3) == 0
           then Stop else Char(QUESTION_MARK, 4)
    ensures 0xC0 <= s[pos] < 0xE0 && ByteAt(s, pos + 1) != 0 && !Continuation(ByteAt(s, pos + 1)) ==>
      r == Char(QUESTION_MARK, 1)
    ensures r == Stop <==>
      (0xC0 <= s[pos] < 0xE0 && ByteAt(s, pos + 1) == 0) ||
      (0xE0 <= s[pos] < 0xF0 && (ByteAt(s, pos + 1) == 0 || ByteAt(s, pos + 2) == 0)) ||
      (0xF0 <= s[pos] < 0xF8 && (ByteAt(s, pos + 1) == 0 || ByteAt(s, pos + 2) == 0 || ByteAt(s, pos + 3) == 0))
  {
    DecodeBytes(s[pos], ByteAt(s, pos + 1), ByteAt(s, pos + 2), ByteAt(s, pos + 3))
  }

  /** Bytes after a terminator in the lookahead do not change the decoded character. */
  lemma {:induction false} DecodeIgnoresAfterNul(b0: bv8, b1: bv8, b2: bv8, b3: bv8, c1: bv8, c2: bv8, c3: bv8)
    requires b1 == c1
    requires b1 != 0 ==> b2 == c2
    requires b1 != 0 && b2 != 0 ==> b3 == c3
    ensures DecodeBytes(b0, b1, b2, b3) == DecodeBytes(b0, c1, c2, c3)
  {
    if b1 != 0 && b2 != 0 {
      assert b2 == c2 && b3 == c3;
    }
  }

  /** The shortest UTF-8 encoding of a 16-bit code point. */
  function Encode(c: bv16): (r: seq<bv8>)
    ensures 1 <= |r| <= 3
    ensures |r| == if c < 0x80 then 1 else if c < 0x800 then 2 else 3
  {
    if c < 0x80 then [c as bv8]
    else if c < 0x800 then [(0xC0 | (c >> 6)) as bv8, (0x80 | (c & 0x3F)) as bv8]
    else [(0xE0 | (c >> 12)) as bv8, (0x80 | ((c >> 6) & 0x3F)) as bv8, (0x80 | (c & 0x3F)) as bv8]
  }

  /** The two bytes of a two-byte encoding carry the lead and continuation tags and the code point's bits. */
  lemma {:induction false} TwoByteBits(c: bv16)
    requires 0x80 <= c < 0x800
    ensures var b0, b1 := (0xC0 | (c >> 6)) as bv8, (0x80 | (c & 0x3F)) as bv8;
      b0 >= 0x80 && b0 & 0xE0 == 0xC0 && b1 != 0 && Continuation(b1) &&
      ((b0 & 0x1F) as bv16 << 6) | (b1 & 0x3F) as bv16 == c
  {
  }

  /** The three bytes of a three-byte encoding carry the lead and continuation tags and the code point's bits. */
  lemma {:induction false} ThreeByteBits(c: bv16, b0: bv8, b1: bv8, b2: bv8)
    requires 0x800 <= c
    requires b0 == (0xE0 | (c >> 12)) as bv8
    requires b1 == (0x80 | ((c >> 6) & 0x3F)) as bv8
    requires b2 == (0x80 | (c & 0x3F)) as bv8
    ensures b0 >= 0x80 && b0 & 0xE0 != 0xC0 && b0 & 0xF0 == 0xE0
    ensures b1 != 0 && b2 != 0 && Continuation(b1) && Continuation(b2)
    ensures ((b0 & 0x0F) as bv16 << 12) | ((b1 & 0x3F) as bv16 << 6) | (b2 & 0x3F) as bv16 == c
  {
  }

  /** A well-formed three-byte sequence decodes to the bits it carries. */
  lemma {:induction false} DecodeThree(b0: bv8, b1: bv8, b2: bv8, b3: bv8)
    requires b0 >= 0x80 && b0 & 0xE0 != 0xC0 && b0 & 0xF0 == 0xE0
    requires b1 != 0 && b2 != 0 && Continuation(b1) && Continuation(b2)
    ensures DecodeBytes(b0, b1, b2, b3) ==
      Char((((b0 & 0x0F) as bv16 << 12) | ((b1 & 0x3F) as bv16 << 6) | (b2 & 0x3F) as bv16) as nat, 3)
  {
  }

  /** Three bytes laid out as the encoding of `c` decode to `c`. */
  lemma {:induction false} DecodeThreeOf(c: bv16, s: seq<bv8>)
    requires 0x800 <= c && |s| >= 3
    requires s[0] == (0xE0 | (c >> 12)) as bv8
    requires s[1] == (0x80 | ((c >> 6) & 0x3F)) as bv8
    requires s[2] == (0x80 | (c & 0x3F)) as bv8
    ensures Decode(s, 0) == Char(c as nat, 3)
  {
    assert Decode(s, 0) == DecodeBytes(s[0], s[1], s[2], ByteAt(s, 3));
    hide Decode;
    ThreeByteBits(c, s[0], s[1], s[2]);
    DecodeThree(s[0], s[1], s[2], ByteAt(s, 3));
  }

  /** The round trip for code points that need three bytes. */
  lemma {:induction false} DecodeEncodeThree(c: bv16, rest: seq<bv8>)
    requires 0x800 <= c
    ensures Decode(Encode(c) + rest, 0) == Char(c as nat, 3)
  {
    var s := Encode(c) + rest;
    assert s[..3] == [(0xE0 | (c >> 12)) as bv8, (0x80 | ((c >> 6) & 0x3F)) as bv8, (0x80 | (c & 0x3F)) as bv8];
    DecodeThreeOf(c, s);
  }

  /** Decoding the encoding of any 16-bit code point gives it back and consumes exactly its bytes. */
  lemma {:induction false} DecodeEncode(c: bv16, rest: seq<bv8>)
    ensures Decode(Encode(c) + rest, 0) == Char(c as nat, |Encode(c)|)
  {
    var s := Encode(c) + rest;
    if c < 0x80 {
      assert s[0] == c as bv8;
    } else if c < 0x800 {
      TwoByteBits(c);
      assert s[0] == Encode(c)[0] && ByteAt(s, 1) == Encode(c)[1];
    } else {
      DecodeEncodeThree(c, rest);
    }
  }

  /**
   * A two- or three-byte lead followed by a non-continuation byte is
   * replaced by '?' and only the lead byte is skipped, so the offending
   * byte is decoded again as the next character.
   */
  lemma {:induction false} BadContinuationSkipsLead(s: seq<bv8>, pos: nat)
    requires pos < |s| && 0xC0 <= s[pos] < 0xF0
    requires ByteAt(s, pos + 1) != 0 && !Continuation(ByteAt(s, pos + 1))
    requires 0xE0 <= s[pos] ==> ByteAt(s, pos + 2) != 0
    ensures Decode(s, pos) == Char(QUESTION_MARK, 1)
  {
    assert s[pos] & 0xE0 == 0xC0 <==> s[pos] < 0xE0;
    assert 0xE0 <= s[pos] ==> s[pos] & 0xF0 == 0xE0;
  }

  /**
   * Overlong forms are accepted: 0xC0 0x80 decodes to code point 0, which
   * the printer then treats as an ordinary character, not as the end.
   */
  lemma OverlongNul()
    ensures Decode([0xC0, 0x80], 0) == Char(0, 2)
  {
  }
}
