/** Base64 as the browser's `atob` decodes it: the forgiving-base64 decode
    of the WHATWG Infra standard (its section "Forgiving base64"), which
    accepts the alphabet of section 4 of RFC 4648 with ASCII whitespace
    anywhere and optional padding. The RFC 4648 encoder is given as its
    partner. */
module Base64 {
  import opened Bytes
  import opened Results

  /** ASCII whitespace: TAB, LF, FF, CR and SPACE. */
  predicate IsAsciiWhitespace(c: char)
  {
    c == '\t' || c == '\n' || c == '\U{000C}' || c == '\r' || c == ' '
  }

  /** The 64 characters of the base64 alphabet (section 4 of RFC 4648). */
  predicate IsAlphabetChar(c: char)
  {
    ('A' <= c <= 'Z') || ('a' <= c <= 'z') || ('0' <= c <= '9') || c == '+' || c == '/'
  }

  predicate AllAlphabet(s: string)
  {
    forall i | 0 <= i < |s| :: IsAlphabetChar(s[i])
  }

  predicate AllSextets(vs: seq<int>)
  {
    forall i | 0 <= i < |vs| :: 0 <= vs[i] < 64
  }

  /** The 6-bit value an alphabet character stands for. */
  function CharValue(c: char): (v: int)
    requires IsAlphabetChar(c)
    ensures 0 <= v < 64
  {
    if 'A' <= c <= 'Z' then c as int - 'A' as int
    else if 'a' <= c <= 'z' then c as int - 'a' as int + 26
    else if '0' <= c <= '9' then c as int - '0' as int + 52
    else if c == '+' then 62
    else 63
  }

  /** The alphabet character that stands for a 6-bit value. */
  function ValueChar(v: int): (c: char)
    requires 0 <= v < 64
    ensures IsAlphabetChar(c)
    ensures CharValue(c) == v
  {
    if v < 26 then ('A' as int + v) as char
    else if v < 52 then ('a' as int + v - 26) as char
    else if v < 62 then ('0' as int + v - 52) as char
    else if v == 62 then '+'
    else '/'
  }

  /** Step 1 of forgiving-base64 decode: remove all ASCII whitespace. */
  function StripWhitespace(s: string): (r: string)
    ensures |r| <= |s|
    ensures forall i | 0 <= i < |r| :: !IsAsciiWhitespace(r[i])
  {
    if s == [] then []
    else (if IsAsciiWhitespace(s[0]) then [] else [s[0]]) + StripWhitespace(s[1..])
  }

  /** Text without whitespace passes step 1 unchanged. */
  lemma {:induction false} StripWhitespaceOfClean(s: string)
    requires forall i | 0 <= i < |s| :: !IsAsciiWhitespace(s[i])
    ensures StripWhitespace(s) == s
    decreases |s|
  {
    if s != [] {
      assert forall i | 0 <= i < |s[1..]| :: s[1..][i] == s[i + 1];
      StripWhitespaceOfClean(s[1..]);
      assert s == [s[0]] + s[1..];
    }
  }

  /** Step 2: when the length is a multiple of four, drop one or two
      trailing '=' characters. */
  function RemovePadding(s: string): string
  {
    if |s| % 4 == 0 && |s| >= 2 && s[|s| - 2..] == "==" then s[..|s| - 2]
    else if |s| % 4 == 0 && |s| >= 1 && s[|s| - 1] == '=' then s[..|s| - 1]
    else s
  }

  /** Steps 5 onward: four sextets make three bytes; a final two sextets
      (12 bits) make one byte and a final three (18 bits) make two, the
      surplus low bits being discarded. */
  function DecodeSextets(vs: seq<int>): (bs: seq<byte>)
    requires AllSextets(vs) && |vs| % 4 != 1
    ensures |bs| == 3 * |vs| / 4
  {
    if |vs| == 0 then []
    else if |vs| == 2 then DecodeTwo(vs[0], vs[1])
    else if |vs| == 3 then DecodeThree(vs[0], vs[1], vs[2])
    else DecodeFour(vs[0], vs[1], vs[2], vs[3]) + DecodeSextets(vs[4..])
  }

  /** A final two sextets: the top eight of their twelve bits. */
  function DecodeTwo(a: int, b: int): (bs: seq<byte>)
    requires 0 <= a < 64 && 0 <= b < 64
    ensures |bs| == 1
  {
    [(a * 64 + b) / 16]
  }

  /** A final three sextets: the top sixteen of their eighteen bits. */
  function DecodeThree(a: int, b: int, c: int): (bs: seq<byte>)
    requires 0 <= a < 64 && 0 <= b < 64 && 0 <= c < 64
    ensures |bs| == 2
  {
    var n := (a * 4096 + b * 64 + c) / 4;
    [n / 256, n % 256]
  }

  /** Four sextets: twenty-four bits, most significant byte first. */
  function DecodeFour(a: int, b: int, c: int, d: int): (bs: seq<byte>)
    requires 0 <= a < 64 && 0 <= b < 64 && 0 <= c < 64 && 0 <= d < 64
    ensures |bs| == 3
  {
    var n := a * 262144 + b * 4096 + c * 64 + d;
    [n / 65536, (n / 256) % 256, n % 256]
  }

  /** The input after whitespace and padding removal. */
  function Payload(s: string): string
  {
    RemovePadding(StripWhitespace(s))
  }

  /** Forgiving-base64 decode; `None` is the failure on which `atob` throws
      an "InvalidCharacterError". It fails exactly when the remaining
      length leaves remainder 1 modulo 4 or a character outside the alphabet
      remains, and otherwise yields three bytes per four characters. */
  function ForgivingDecode(s: string): (r: Option<seq<byte>>)
    ensures r.Some? <==> |Payload(s)| % 4 != 1 && AllAlphabet(Payload(s))
    ensures r.Some? ==> |r.value| == 3 * |Payload(s)| / 4
  {
    var t := Payload(s);
    if |t| % 4 == 1 || !AllAlphabet(t) then None
    else Some(DecodeSextets(seq(|t|, i requires 0 <= i < |t| => CharValue(t[i]))))
  }

  /** Section 4 of RFC 4648: three bytes make four sextets; a final single
      byte makes two and a final pair makes three, the missing low bits
      zero. */
  function EncodeSextets(bs: seq<byte>): (vs: seq<int>)
    ensures AllSextets(vs)
    ensures |vs| == (4 * |bs| + 2) / 3
  {
    if |bs| == 0 then []
    else if |bs| == 1 then EncodeOne(bs[0])
    else if |bs| == 2 then EncodeTwo(bs[0], bs[1])
    else EncodeThree(bs[0], bs[1], bs[2]) + EncodeSextets(bs[3..])
  }

  /** A final lone byte: its 8 bits and 4 zero bits. */
  function EncodeOne(a: byte): (vs: seq<int>)
    ensures |vs| == 2 && AllSextets(vs)
  {
    [a / 4, (a % 4) * 16]
  }

  /** A final pair: its 16 bits and 2 zero bits. */
  function EncodeTwo(a: byte, b: byte): (vs: seq<int>)
    ensures |vs| == 3 && AllSextets(vs)
  {
    var n := a as int * 256 + b;
    [n / 1024, (n / 16) % 64, (n % 16) * 4]
  }

  /** Three bytes: their 24 bits, most significant sextet first. */
  function EncodeThree(a: byte, b: byte, c: byte): (vs: seq<int>)
    ensures |vs| == 4 && AllSextets(vs)
  {
    var n := a as int * 65536 + b as int * 256 + c;
    [n / 262144, (n / 4096) % 64, (n / 64) % 64, n % 64]
  }

  /** The '=' characters that pad an encoding to a multiple of four. */
  function Padding(n: nat): string
  {
    if n % 3 == 1 then "==" else if n % 3 == 2 then "=" else ""
  }

  /** An encoding of `n` bytes has `(4n + 2) / 3` alphabet characters, never
      one more than a multiple of four, and padding up to a multiple of
      four. */
  lemma EncodedLength(n: nat)
    ensures (4 * n + 2) / 3 + |Padding(n)| == 4 * ((n + 2) / 3)
    ensures ((4 * n + 2) / 3) % 4 != 1
    ensures (4 * ((n + 2) / 3)) % 4 == 0
  {
    var k := n / 3;
    if n % 3 == 0 {
      assert n == 3 * k;
    } else if n % 3 == 1 {
      assert n == 3 * k + 1;
    } else {
      assert n == 3 * k + 2;
    }
  }

  /** Base64 encoding with padding (section 4 of RFC 4648). */
  function Encode(bs: seq<byte>): (s: string)
    ensures |s| == 4 * ((|bs| + 2) / 3)
  {
    EncodedLength(|bs|);
    EncodedChars(bs) + Padding(|bs|)
  }

  /** One byte: two sextets carry its 8 bits and 4 zero bits. */
  lemma DecodeEncodeOne(a: byte)
    ensures var vs := EncodeOne(a); DecodeTwo(vs[0], vs[1]) == [a]
  {
    var vs := EncodeOne(a);
    DivModUnique(a, a / 4, a % 4, 4);
    DivModUnique(vs[0] * 64 + vs[1], a, (a % 4) * 16 - (a % 4) * 16, 16);
  }

  /** Two bytes: three sextets carry their 16 bits and 2 zero bits. */
  lemma DecodeEncodeTwo(a: byte, b: byte)
    ensures var vs := EncodeTwo(a, b); DecodeThree(vs[0], vs[1], vs[2]) == [a, b]
  {
    var n := a as int * 256 + b;
    var vs := EncodeTwo(a, b);
    DivModUnique(n, (n / 16) / 64, (n / 16) % 64 * 16 + n % 16, 1024);
    var m := vs[0] * 4096 + vs[1] * 64 + vs[2];
    assert m == 4 * n;
    DivModUnique(m, n, 0, 4);
    DivModUnique(n, a, b, 256);
  }

  /** Three bytes: four sextets carry their 24 bits exactly. */
  lemma DecodeEncodeThree(a: byte, b: byte, c: byte)
    ensures var vs := EncodeThree(a, b, c); DecodeFour(vs[0], vs[1], vs[2], vs[3]) == [a, b, c]
  {
    var n := a as int * 65536 + b as int * 256 + c;
    var vs := EncodeThree(a, b, c);
    DivModUnique(n / 64, n / 4096, (n / 64) % 64, 64) by {
      DivModUnique(n, (n / 64) / 64, (n / 64) % 64 * 64 + n % 64, 4096);
    }
    DivModUnique(n / 4096, n / 262144, (n / 4096) % 64, 64) by {
      DivModUnique(n, (n / 4096) / 64, (n / 4096) % 64 * 4096 + n % 4096, 262144);
    }
    assert vs[0] * 262144 + vs[1] * 4096 + vs[2] * 64 + vs[3] == n;
    DivModUnique(n, a as int * 256 + b, c, 256);
    DivModUnique(n / 256, a, b, 256);
    DivModUnique(n, a, b as int * 256 + c, 65536);
  }

  /** Decoding the sextets of an encoding gives back the bytes. */
  lemma {:induction false} DecodeEncodeSextets(bs: seq<byte>)
    ensures |EncodeSextets(bs)| % 4 != 1
    ensures DecodeSextets(EncodeSextets(bs)) == bs
    decreases |bs|
  {
    EncodedLength(|bs|);
    if |bs| == 1 {
      assert bs == [bs[0]];
      DecodeEncodeOne(bs[0]);
    } else if |bs| == 2 {
      assert bs == [bs[0], bs[1]];
      DecodeEncodeTwo(bs[0], bs[1]);
    } else if |bs| >= 3 {
      DecodeEncodeSextets(bs[3..]);
      DecodeEncodeGroup(bs);
    }
  }

  /** The inductive step: the first three bytes become the first four
      sextets, and decoding those four gives the three bytes back. */
  lemma DecodeEncodeGroup(bs: seq<byte>)
    requires |bs| >= 3
    requires |EncodeSextets(bs[3..])| % 4 != 1
    requires DecodeSextets(EncodeSextets(bs[3..])) == bs[3..]
    ensures DecodeSextets(EncodeSextets(bs)) == bs
  {
    var vs := EncodeSextets(bs);
    var head := EncodeThree(bs[0], bs[1], bs[2]);
    assert vs == head + EncodeSextets(bs[3..]);
    assert vs[..4] == head && vs[4..] == EncodeSextets(bs[3..]);
    DecodeEncodeThree(bs[0], bs[1], bs[2]);
    assert bs == [bs[0], bs[1], bs[2]] + bs[3..];
  }

  /** The alphabet characters of an encoding, before padding. */
  function EncodedChars(bs: seq<byte>): (cs: string)
    ensures |cs| == |EncodeSextets(bs)|
    ensures AllAlphabet(cs)
  {
    var vs := EncodeSextets(bs);
    seq(|vs|, i requires 0 <= i < |vs| => ValueChar(vs[i]))
  }

  /** An encoding holds no whitespace, so step 1 leaves it unchanged. */
  lemma StripWhitespaceOfEncode(bs: seq<byte>)
    ensures StripWhitespace(Encode(bs)) == Encode(bs)
  {
    var cs := EncodedChars(bs);
    var s := Encode(bs);
    assert s == cs + Padding(|bs|);
    forall i | 0 <= i < |s|
      ensures !IsAsciiWhitespace(s[i])
    {
      if i < |cs| {
        assert IsAlphabetChar(cs[i]);
      } else {
        assert s[i] == '=';
      }
    }
    StripWhitespaceOfClean(s);
  }

  /** Padding removal undoes the padding of an encoding: two '=' after a
      final lone byte, one after a final pair, none otherwise. */
  lemma RemovePaddingOfEncoded(cs: string, n: nat)
    requires AllAlphabet(cs) && (|cs| + |Padding(n)|) % 4 == 0
    requires |Padding(n)| > 0 ==> |cs| >= 2
    ensures RemovePadding(cs + Padding(n)) == cs
  {
    var s := cs + Padding(n);
    if n % 3 == 1 {
      assert s[|s| - 2..] == "==";
      assert s[..|s| - 2] == cs;
    } else if n % 3 == 2 {
      assert s[|s| - 2] == cs[|cs| - 1];
      assert s[..|s| - 1] == cs;
    } else if |s| > 0 {
      assert s[|s| - 1] == cs[|cs| - 1];
    }
  }

  /** Whitespace and padding removal recover exactly the alphabet
      characters of an encoding. */
  lemma PayloadOfEncode(bs: seq<byte>)
    ensures Payload(Encode(bs)) == EncodedChars(bs)
  {
    StripWhitespaceOfEncode(bs);
    EncodedLength(|bs|);
    RemovePaddingOfEncoded(EncodedChars(bs), |bs|);
  }

  /** Round trip: forgiving-base64 decode inverts the RFC 4648 encoding. */
  lemma {:induction false} DecodeOfEncode(bs: seq<byte>)
    ensures ForgivingDecode(Encode(bs)) == Some(bs)
  {
    var vs := EncodeSextets(bs);
    var t := Payload(Encode(bs));
    PayloadOfEncode(bs);
    DecodeEncodeSextets(bs);
    assert seq(|t|, i requires 0 <= i < |t| => CharValue(t[i])) == vs;
  }

  /** Padding is optional: the alphabet characters of an encoding, without
      their '=' padding, decode to the same bytes. */
  lemma {:induction false} DecodeOfUnpadded(bs: seq<byte>)
    ensures ForgivingDecode(EncodedChars(bs)) == Some(bs)
  {
    var vs := EncodeSextets(bs);
    var cs := EncodedChars(bs);
    assert StripWhitespace(cs) == cs by {
      forall i | 0 <= i < |cs|
        ensures !IsAsciiWhitespace(cs[i])
      {
        assert IsAlphabetChar(cs[i]);
      }
      StripWhitespaceOfClean(cs);
    }
    if |cs| > 0 {
      assert IsAlphabetChar(cs[|cs| - 1]);
    }
    assert Payload(cs) == cs;
    DecodeEncodeSextets(bs);
    assert seq(|cs|, i requires 0 <= i < |cs| => CharValue(cs[i])) == vs;
  }

  /** Whitespace removal distributes over concatenation. */
  lemma {:induction false} StripWhitespaceAppend(a: string, b: string)
    ensures StripWhitespace(a + b) == StripWhitespace(a) + StripWhitespace(b)
    decreases |a|
  {
    if a == [] {
      assert a + b == b;
    } else {
      var head := if IsAsciiWhitespace(a[0]) then [] else [a[0]];
      assert (a + b)[0] == a[0] && (a + b)[1..] == a[1..] + b;
      assert StripWhitespace(a + b) == head + StripWhitespace(a[1..] + b);
      StripWhitespaceAppend(a[1..], b);
      assert StripWhitespace(a) == head + StripWhitespace(a[1..]);
    }
  }

  /** Whitespace anywhere is ignored: inserting one whitespace character at
      any position never changes the decode, success or failure. */
  lemma DecodeIgnoresWhitespace(a: string, c: char, b: string)
    requires IsAsciiWhitespace(c)
    ensures ForgivingDecode(a + [c] + b) == ForgivingDecode(a + b)
  {
    var stripped := StripWhitespace(a + b);
    assert StripWhitespace([c]) == [] by {
      assert [c][1..] == [];
    }
    StripWhitespaceAppend(a, [c]);
    StripWhitespaceAppend(a + [c], b);
    StripWhitespaceAppend(a, b);
    assert StripWhitespace(a + [c] + b) == stripped;
    assert Payload(a + [c] + b) == Payload(a + b);
  }
}
