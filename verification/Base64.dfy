/**
 Unpadded base64url (sections 3.2 and 5 of RFC 4648) with the decoder's leniences: line breaks are skipped and the
 unused low bits of the last character are ignored.
 */
module Base64 {
  import opened Protocol
  import opened Bytes

  type Digit = n: int | 0 <= n < 64

  function Char(n: Digit): byte {
    if n < 26 then (n + 65) as byte
    else if n < 52 then (n - 26 + 97) as byte
    else if n < 62 then (n - 52 + 48) as byte
    else if n == 62 then 45 else 95
  }

  function Value(b: byte): Option<Digit> {
    if 65 <= b < 91 then Some(b as int - 65)
    else if 97 <= b < 123 then Some(b as int - 97 + 26)
    else if 48 <= b < 58 then Some(b as int - 48 + 52)
    else if b == 45 then Some(62)
    else if b == 95 then Some(63)
    else None
  }

  // The four digits of a group of three bytes; a missing byte counts as zero.
  function D0(b0: byte): Digit { b0 as int / 4 }
  function D1(b0: byte, b1: byte): Digit { b0 as int % 4 * 16 + b1 as int / 16 }
  function D2(b1: byte, b2: byte): Digit { b1 as int % 16 * 4 + b2 as int / 64 }
  function D3(b2: byte): Digit { b2 as int % 64 }

  function Encode(data: seq<byte>): Text {
    if data == [] then []
    else if |data| == 1 then [Char(D0(data[0])), Char(D1(data[0], 0))]
    else if |data| == 2 then [Char(D0(data[0])), Char(D1(data[0], data[1])), Char(D2(data[1], 0))]
    else
      [Char(D0(data[0])), Char(D1(data[0], data[1])), Char(D2(data[1], data[2])), Char(D3(data[2]))]
      + Encode(data[3..])
  }

  function SkipBreaks(s: Text): Text {
    if s == [] then []
    else if s[0] == 10 || s[0] == 13 then SkipBreaks(s[1..])
    else [s[0]] + SkipBreaks(s[1..])
  }

  function DecodeDigits(s: Text): Option<seq<byte>> {
    if s == [] then Some([])
    else if |s| == 1 then None
    else if Value(s[0]).None? || Value(s[1]).None? then None
    else
      var n0, n1 := Value(s[0]).value, Value(s[1]).value;
      var b0 := (n0 * 4 + n1 / 16) as byte;
      if |s| == 2 then Some([b0])
      else if Value(s[2]).None? then None
      else
        var n2 := Value(s[2]).value;
        var b1 := (n1 % 16 * 16 + n2 / 4) as byte;
        if |s| == 3 then Some([b0, b1])
        else if Value(s[3]).None? then None
        else
          var b2 := (n2 % 4 * 64 + Value(s[3]).value) as byte;
          match DecodeDigits(s[4..])
          case None => None
          case Some(rest) => Some([b0, b1, b2] + rest)
  }

  function Decode(s: Text): Option<seq<byte>> { DecodeDigits(SkipBreaks(s)) }

  lemma CharValue(n: Digit)
    ensures Value(Char(n)) == Some(n)
  {
  }

  predicate Clean(s: Text) { forall i :: 0 <= i < |s| ==> Value(s[i]).Some? }

  lemma {:induction false} CleanHasNoBreaks(s: Text)
    requires Clean(s)
    ensures SkipBreaks(s) == s
    decreases |s|
  {
    if s != [] {
      assert Clean(s[1..]);
      CleanHasNoBreaks(s[1..]);
    }
  }

  lemma {:induction false} EncodeIsClean(data: seq<byte>)
    ensures Clean(Encode(data))
    decreases |data|
  {
    if |data| >= 3 {
      EncodeIsClean(data[3..]);
    }
  }

  /** Four characters, and what follows them, decode to the three bytes they were split from. */
  lemma DecodeGroup(n0: Digit, n1: Digit, n2: Digit, n3: Digit, b0: byte, b1: byte, b2: byte, rest: Text, tail: seq<byte>)
    requires n0 * 4 + n1 / 16 == b0 as int && n1 % 16 * 16 + n2 / 4 == b1 as int && n2 % 4 * 64 + n3 == b2 as int
    requires DecodeDigits(rest) == Some(tail)
    ensures DecodeDigits([Char(n0), Char(n1), Char(n2), Char(n3)] + rest) == Some([b0, b1, b2] + tail)
  {
    var s := [Char(n0), Char(n1), Char(n2), Char(n3)] + rest;
    assert s[4..] == rest;
    CharValue(n0); CharValue(n1); CharValue(n2); CharValue(n3);
  }

  lemma DecodeOne(n0: Digit, n1: Digit, b0: byte)
    requires n0 * 4 + n1 / 16 == b0 as int
    ensures DecodeDigits([Char(n0), Char(n1)]) == Some([b0])
  {
    CharValue(n0); CharValue(n1);
  }

  lemma DecodeTwo(n0: Digit, n1: Digit, n2: Digit, b0: byte, b1: byte)
    requires n0 * 4 + n1 / 16 == b0 as int && n1 % 16 * 16 + n2 / 4 == b1 as int
    ensures DecodeDigits([Char(n0), Char(n1), Char(n2)]) == Some([b0, b1])
  {
    CharValue(n0); CharValue(n1); CharValue(n2);
  }

  /** Splitting three bytes into four digits loses nothing. */
  lemma Regroup(b0: byte, b1: byte, b2: byte)
    ensures D0(b0) * 4 + D1(b0, b1) / 16 == b0 as int
    ensures D1(b0, b1) % 16 * 16 + D2(b1, b2) / 4 == b1 as int
    ensures D2(b1, b2) % 4 * 64 + D3(b2) == b2 as int
  {
  }

  lemma {:induction false} DigitsRoundTrip(data: seq<byte>)
    ensures DecodeDigits(Encode(data)) == Some(data)
    decreases |data|
  {
    if |data| == 1 {
      Regroup(data[0], 0, 0);
      DecodeOne(D0(data[0]), D1(data[0], 0), data[0]);
      assert data == [data[0]];
    } else if |data| == 2 {
      Regroup(data[0], data[1], 0);
      DecodeTwo(D0(data[0]), D1(data[0], data[1]), D2(data[1], 0), data[0], data[1]);
      assert data == [data[0], data[1]];
    } else if |data| >= 3 {
      DigitsRoundTrip(data[3..]);
      Regroup(data[0], data[1], data[2]);
      DecodeGroup(D0(data[0]), D1(data[0], data[1]), D2(data[1], data[2]), D3(data[2]),
                  data[0], data[1], data[2], Encode(data[3..]), data[3..]);
      assert data == [data[0], data[1], data[2]] + data[3..];
    }
  }

  lemma RoundTrip(data: seq<byte>)
    ensures Decode(Encode(data)) == Some(data)
  {
    EncodeIsClean(data);
    CleanHasNoBreaks(Encode(data));
    DigitsRoundTrip(data);
  }

  lemma {:induction false} DigitsReject(s: Text, i: nat)
    requires i < |s| && Value(s[i]).None?
    ensures DecodeDigits(s).None?
    decreases |s|
  {
    if i >= 4 {
      DigitsReject(s[4..], i - 4);
    }
  }

  lemma {:induction false} BreaksSkipOnlyBreaks(s: Text, b: byte)
    requires b in s && b != 10 && b != 13
    ensures b in SkipBreaks(s)
    decreases |s|
  {
    if s[0] != b {
      BreaksSkipOnlyBreaks(s[1..], b);
    }
  }

  /** A character outside the alphabet, other than a line break, is never decoded. */
  lemma DecodeRejects(s: Text, b: byte)
    requires b in s && Value(b).None? && b != 10 && b != 13
    ensures Decode(s).None?
  {
    BreaksSkipOnlyBreaks(s, b);
    var i :| 0 <= i < |SkipBreaks(s)| && SkipBreaks(s)[i] == b;
    DigitsReject(SkipBreaks(s), i);
  }

  // ----- The alphabet and the order of the bits -----

  /** The URL-safe alphabet in its order, and nothing outside it has a value. */
  lemma AlphabetIs(n: Digit, b: byte)
    ensures Char(n) as int ==
            if n < 26 then 'A' as int + n
            else if n < 52 then 'a' as int + (n - 26)
            else if n < 62 then '0' as int + (n - 52)
            else if n == 62 then '-' as int else '_' as int
    ensures Value(b) == Some(n) <==> b == Char(n)
  {
  }

  /** Three bytes and their four digits are the same 24-bit number. */
  lemma SameBits(b0: byte, b1: byte, b2: byte)
    ensures D0(b0) * 262144 + D1(b0, b1) * 4096 + D2(b1, b2) * 64 + D3(b2)
            == b0 as int * 65536 + b1 as int * 256 + b2 as int
  {
    Regroup(b0, b1, b2);
  }

  /** No padding: the length is that of the bits, in digits of six. */
  lemma {:induction false} EncodeLength(data: seq<byte>)
    ensures |Encode(data)| == (8 * |data| + 5) / 6
    decreases |data|
  {
    if |data| >= 3 {
      EncodeLength(data[3..]);
    }
  }

  /** The digits of the encoding, place by place; a byte past the end counts as zero. */
  function ByteAt(data: seq<byte>, i: nat): byte { if i < |data| then data[i] else 0 }

  lemma {:induction false} EncodeAt(data: seq<byte>, g: nat, k: nat)
    requires k < 4 && 4 * g + k < |Encode(data)|
    ensures var b0, b1, b2 := ByteAt(data, 3 * g), ByteAt(data, 3 * g + 1), ByteAt(data, 3 * g + 2);
            Encode(data)[4 * g + k] ==
            Char(if k == 0 then D0(b0) else if k == 1 then D1(b0, b1) else if k == 2 then D2(b1, b2) else D3(b2))
    decreases g
  {
    if g > 0 {
      assert |data| > 3;
      EncodeAt(data[3..], g - 1, k);
    }
  }
}
