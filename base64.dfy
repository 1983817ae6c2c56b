/**
  The standard base64 encoding of RFC 4648, section 4 (alphabet of Table 1,
  '=' padding), as Go's `base64.StdEncoding.DecodeString` applies it to the
  cloud-init payload:
  - carriage returns and line feeds anywhere in the input are skipped;
  - what is left is read four characters (one quantum) at a time;
  - a quantum may end in "==" or "=" only if it is the last one;
  - an incomplete final quantum is an error (the encoding is padded);
  - the decoder is not strict: unused low bits of the last sextet are ignored.
  Encode is the partner that makes the round trip statable.
*/
module Base64 {
  import opened Wrappers

  newtype byte = x: int | 0 <= x < 256

  const Pad: char := '='

  /** The character for sextet value i, in the order of Table 1 of RFC 4648. */
  function Letter(i: int): (c: char)
    requires 0 <= i < 64
  {
    if i < 26 then ('A' as int + i) as char
    else if i < 52 then ('a' as int + (i - 26)) as char
    else if i < 62 then ('0' as int + (i - 52)) as char
    else if i == 62 then '+'
    else '/'
  }

  /** The sextet value of an alphabet character; None for every other character (Go's decode map). */
  function Sextet(c: char): (r: Option<int>)
    ensures r.Some? ==> 0 <= r.value < 64 && Letter(r.value) == c
  {
    if 'A' <= c <= 'Z' then Some(c as int - 'A' as int)
    else if 'a' <= c <= 'z' then Some(c as int - 'a' as int + 26)
    else if '0' <= c <= '9' then Some(c as int - '0' as int + 52)
    else if c == '+' then Some(62)
    else if c == '/' then Some(63)
    else None
  }

  lemma SextetOfLetter(i: int)
    requires 0 <= i < 64
    ensures Sextet(Letter(i)) == Some(i)
  {
  }

  predicate IsLineBreak(c: char) {
    c == '\n' || c == '\r'
  }

  /** The input with every '\r' and '\n' removed, which is what the decoder sees. */
  function SkipLineBreaks(s: string): (r: string)
    ensures |r| <= |s|
    ensures forall i :: 0 <= i < |r| ==> !IsLineBreak(r[i])
  {
    if s == [] then []
    else if IsLineBreak(s[0]) then SkipLineBreaks(s[1..])
    else [s[0]] + SkipLineBreaks(s[1..])
  }

  lemma {:induction false} SkipLineBreaksIdentity(s: string)
    requires forall i :: 0 <= i < |s| ==> !IsLineBreak(s[i])
    ensures SkipLineBreaks(s) == s
  {
    if s != [] {
      SkipLineBreaksIdentity(s[1..]);
    }
  }

  lemma {:induction false} SkipLineBreaksAppend(a: string, b: string)
    ensures SkipLineBreaks(a + b) == SkipLineBreaks(a) + SkipLineBreaks(b)
  {
    if a != [] {
      assert (a + b)[1..] == a[1..] + b;
      SkipLineBreaksAppend(a[1..], b);
    } else {
      assert a + b == b;
    }
  }

  function EncodeQuantum(b0: byte, b1: byte, b2: byte): (q: string) {
    var v0, v1, v2 := b0 as int, b1 as int, b2 as int;
    [Letter(v0 / 4), Letter((v0 % 4) * 16 + v1 / 16), Letter((v1 % 16) * 4 + v2 / 64), Letter(v2 % 64)]
  }

  /** A final single byte: two characters and "==". */
  function EncodeOne(b0: byte): (q: string) {
    var v0 := b0 as int;
    [Letter(v0 / 4), Letter((v0 % 4) * 16), Pad, Pad]
  }

  /** A final pair of bytes: three characters and "=". */
  function EncodeTwo(b0: byte, b1: byte): (q: string) {
    var v0, v1 := b0 as int, b1 as int;
    [Letter(v0 / 4), Letter((v0 % 4) * 16 + v1 / 16), Letter((v1 % 16) * 4), Pad]
  }

  /** Encoding with padding: every three bytes become four characters. */
  function Encode(b: seq<byte>): (s: string)
    decreases |b|
  {
    if |b| == 0 then []
    else if |b| == 1 then EncodeOne(b[0])
    else if |b| == 2 then EncodeTwo(b[0], b[1])
    else
      EncodeQuantum(b[0], b[1], b[2]) + Encode(b[3..])
  }

  /** One quantum of four characters; `last` says whether it ends the input, the only place padding may stand. */
  function DecodeQuantum(q: string, last: bool): (r: Option<seq<byte>>)
    requires |q| == 4
    ensures r.Some? ==> 1 <= |r.value| <= 3
    ensures r.Some? && |r.value| < 3 ==> last
  {
    var s0, s1, s2, s3 := Sextet(q[0]), Sextet(q[1]), Sextet(q[2]), Sextet(q[3]);
    if s0.None? || s1.None? then None
    else
      var c0, c1 := s0.value, s1.value;
      var b0 := (c0 * 4 + c1 / 16) as byte;
      if s2.Some? && s3.Some? then
        var c2, c3 := s2.value, s3.value;
        Some([b0, ((c1 % 16) * 16 + c2 / 4) as byte, ((c2 % 4) * 64 + c3) as byte])
      else if s2.Some? && q[3] == Pad && last then
        var c2 := s2.value;
        Some([b0, ((c1 % 16) * 16 + c2 / 4) as byte])
      else if q[2] == Pad && q[3] == Pad && last then
        Some([b0])
      else None
  }

  /** Decoding of input that holds no line breaks, one quantum after the other, failing at the first bad one. */
  function DecodeQuanta(s: string): (r: Option<seq<byte>>)
    decreases |s|
  {
    if |s| == 0 then Some([])
    else if |s| < 4 then None
    else
      match DecodeQuantum(s[..4], |s| == 4)
      case None => None
      case Some(head) =>
        match DecodeQuanta(s[4..])
        case None => None
        case Some(tail) => Some(head + tail)
  }


  lemma DecodeEncodeQuantum(b0: byte, b1: byte, b2: byte, last: bool)
    ensures DecodeQuantum(EncodeQuantum(b0, b1, b2), last) == Some([b0, b1, b2])
  {
    var v0, v1, v2 := b0 as int, b1 as int, b2 as int;
    SextetOfLetter(v0 / 4);
    SextetOfLetter((v0 % 4) * 16 + v1 / 16);
    SextetOfLetter((v1 % 16) * 4 + v2 / 64);
    SextetOfLetter(v2 % 64);
    Recombine(v0, v1, v2);
  }

  lemma Recombine(v0: int, v1: int, v2: int)
    requires 0 <= v0 < 256 && 0 <= v1 < 256 && 0 <= v2 < 256
    ensures var c1 := (v0 % 4) * 16 + v1 / 16; c1 / 16 == v0 % 4 && c1 % 16 == v1 / 16
    ensures var c2 := (v1 % 16) * 4 + v2 / 64; c2 / 4 == v1 % 16 && c2 % 4 == v2 / 64
    ensures (v0 / 4) * 4 + v0 % 4 == v0 && (v1 / 16) * 16 + v1 % 16 == v1 && (v2 / 64) * 64 + v2 % 64 == v2
  {
  }

  lemma DecodeSingleQuantum(q: string)
    requires |q| == 4
    ensures DecodeQuanta(q) == DecodeQuantum(q, true)
  {
    assert q[..4] == q && q[4..] == [];
    if DecodeQuantum(q, true).Some? {
      var head := DecodeQuantum(q, true).value;
      assert head + [] == head;
    }
  }

  lemma DecodeEncodeOne(b0: byte)
    ensures DecodeQuanta(EncodeOne(b0)) == Some([b0])
  {
    var v0 := b0 as int;
    var q := EncodeOne(b0);
    SextetOfLetter(v0 / 4);
    SextetOfLetter((v0 % 4) * 16);
    Recombine(v0, 0, 0);
    assert q[..4] == q && q[4..] == [];
    assert DecodeQuantum(q, true) == Some([b0]);
    assert DecodeQuanta(q[4..]) == Some([]);
    assert [b0] + [] == [b0];
  }

  lemma DecodeEncodeTwo(b0: byte, b1: byte)
    ensures DecodeQuanta(EncodeTwo(b0, b1)) == Some([b0, b1])
  {
    var v0, v1 := b0 as int, b1 as int;
    var q := EncodeTwo(b0, b1);
    SextetOfLetter(v0 / 4);
    SextetOfLetter((v0 % 4) * 16 + v1 / 16);
    SextetOfLetter((v1 % 16) * 4);
    Recombine(v0, v1, 0);
    assert q[..4] == q && q[4..] == [];
    assert DecodeQuantum(q, true) == Some([b0, b1]);
    assert DecodeQuanta(q[4..]) == Some([]);
    assert [b0, b1] + [] == [b0, b1];
  }

  lemma {:induction false} DecodeQuantaEncode(b: seq<byte>)
    ensures DecodeQuanta(Encode(b)) == Some(b)
    decreases |b|
  {
    if |b| == 1 {
      DecodeEncodeOne(b[0]);
      assert b == [b[0]];
    } else if |b| == 2 {
      DecodeEncodeTwo(b[0], b[1]);
      assert b == [b[0], b[1]];
    } else if |b| > 2 {
      DecodeQuantaEncode(b[3..]);
      DecodeQuantaEncodeStep(b);
    }
  }

  lemma DecodeQuantaEncodeStep(b: seq<byte>)
    requires |b| > 2 && DecodeQuanta(Encode(b[3..])) == Some(b[3..])
    ensures DecodeQuanta(Encode(b)) == Some(b)
  {
    DecodeQuantaPrepend(b, Encode(b[3..]), b[3..]);
    assert b[..3] + b[3..] == b;
  }

  /** The encoding of three bytes in front of decodable input decodes to those bytes in front of that input's bytes. */
  lemma DecodeQuantaPrepend(b: seq<byte>, rest: string, tail: seq<byte>)
    requires |b| >= 3 && DecodeQuanta(rest) == Some(tail)
    ensures DecodeQuanta(EncodeQuantum(b[0], b[1], b[2]) + rest) == Some(b[..3] + tail)
  {
    var q := EncodeQuantum(b[0], b[1], b[2]);
    DecodeEncodeQuantum(b[0], b[1], b[2], false);
    DecodeEncodeQuantum(b[0], b[1], b[2], true);
    assert [b[0], b[1], b[2]] == b[..3];
    var s := q + rest;
    assert s[..4] == q && s[4..] == rest;
  }

  lemma {:induction false} EncodeHasNoLineBreaks(b: seq<byte>)
    ensures forall i :: 0 <= i < |Encode(b)| ==> !IsLineBreak(Encode(b)[i])
    decreases |b|
  {
    if |b| > 2 {
      EncodeHasNoLineBreaks(b[3..]);
      var q := EncodeQuantum(b[0], b[1], b[2]);
      assert Encode(b) == q + Encode(b[3..]);
      forall i | 0 <= i < |Encode(b)| ensures !IsLineBreak(Encode(b)[i]) {
        if i >= 4 {
          assert Encode(b)[i] == Encode(b[3..])[i - 4];
        }
      }
    }
  }

  /** Round trip: decoding the padded encoding of any byte string gives that byte string back. */
  lemma DecodeEncode(b: seq<byte>)
    ensures Decode(Encode(b)) == Some(b)
  {
    EncodeHasNoLineBreaks(b);
    SkipLineBreaksIdentity(Encode(b));
    DecodeQuantaEncode(b);
  }

  /** Once line breaks are skipped, input whose length is not a multiple of four never decodes. */
  lemma {:induction false} DecodeQuantaLength(s: string)
    ensures DecodeQuanta(s).Some? ==> |s| % 4 == 0
    ensures DecodeQuanta(s).Some? ==> 3 * (|s| / 4) - 2 <= |DecodeQuanta(s).value| <= 3 * (|s| / 4)
    decreases |s|
  {
    if |s| >= 4 {
      DecodeQuantaLength(s[4..]);
      if DecodeQuanta(s).Some? && |s| > 4 {
        assert |DecodeQuantum(s[..4], false).value| == 3;
      }
    }
  }

  lemma DecodeLength(s: string)
    ensures Decode(s).Some? ==> |SkipLineBreaks(s)| % 4 == 0
    ensures Decode(s).Some? ==>
      var n := |SkipLineBreaks(s)| / 4;
      3 * n - 2 <= |Decode(s).value| <= 3 * n
  {
    DecodeQuantaLength(SkipLineBreaks(s));
  }

  predicate InAlphabet(c: char) {
    Sextet(c).Some?
  }

  /** A last quantum: two alphabet characters, then "==", or a third alphabet character and "=", or two more. */
  predicate LastQuantumShape(c0: char, c1: char, c2: char, c3: char) {
    && InAlphabet(c0) && InAlphabet(c1)
    && ((InAlphabet(c2) && (InAlphabet(c3) || c3 == Pad)) || (c2 == Pad && c3 == Pad))
  }

  /** The inputs (with line breaks already skipped) that the decoder accepts, described position by position. */
  predicate WellFormed(s: string) {
    && |s| % 4 == 0
    && (forall i :: 0 <= i < |s| - 4 ==> InAlphabet(s[i]))
    && (|s| > 0 ==> LastQuantumShape(s[|s| - 4], s[|s| - 3], s[|s| - 2], s[|s| - 1]))
  }

  lemma DecodeQuantumSucceeds(q: string, last: bool)
    requires |q| == 4
    ensures DecodeQuantum(q, last).Some? <==>
      if last then LastQuantumShape(q[0], q[1], q[2], q[3])
      else InAlphabet(q[0]) && InAlphabet(q[1]) && InAlphabet(q[2]) && InAlphabet(q[3])
  {
  }

  lemma {:induction false} DecodeQuantaSucceeds(s: string)
    ensures DecodeQuanta(s).Some? <==> WellFormed(s)
    decreases |s|
  {
    if 0 < |s| < 4 {
      assert !WellFormed(s);
    } else if |s| == 4 {
      DecodeSingleQuantum(s);
      DecodeQuantumSucceeds(s, true);
    } else if |s| > 4 {
      DecodeQuantumSucceeds(s[..4], false);
      DecodeQuantaSucceeds(s[4..]);
      WellFormedCons(s);
    }
  }

  /** Well-formed input longer than one quantum is a full alphabet quantum followed by well-formed input. */
  lemma WellFormedCons(s: string)
    requires |s| > 4
    ensures WellFormed(s) <==>
      InAlphabet(s[0]) && InAlphabet(s[1]) && InAlphabet(s[2]) && InAlphabet(s[3]) && WellFormed(s[4..])
  {
    var t := s[4..];
    assert |t| % 4 == |s| % 4;
    if |t| >= 4 {
      assert t[|t| - 4] == s[|s| - 4] && t[|t| - 3] == s[|s| - 3];
      assert t[|t| - 2] == s[|s| - 2] && t[|t| - 1] == s[|s| - 1];
    }
    if WellFormed(s) {
      forall i | 0 <= i < |t| - 4 ensures InAlphabet(t[i]) {
        assert t[i] == s[i + 4];
      }
    }
    if InAlphabet(s[0]) && InAlphabet(s[1]) && InAlphabet(s[2]) && InAlphabet(s[3]) && WellFormed(t) {
      forall i | 0 <= i < |s| - 4 ensures InAlphabet(s[i]) {
        if i >= 4 {
          assert s[i] == t[i - 4];
        }
      }
    }
  }

  /**
    Go's `base64.StdEncoding.DecodeString`: None stands for its
    CorruptInputError. It accepts exactly the well-formed inputs, wherever line
    breaks stand in them.
  */
  function Decode(s: string): (r: Option<seq<byte>>)
    ensures r.Some? <==> WellFormed(SkipLineBreaks(s))
  {
    DecodeQuantaSucceeds(SkipLineBreaks(s));
    DecodeQuanta(SkipLineBreaks(s))
  }

  /** The start-up payload: "aGVsbG8=" is the encoding of the bytes of "hello". */
  lemma DecodeHello()
    ensures Decode("aGVsbG8=") == Some([104, 101, 108, 108, 111])
  {
    var hello: seq<byte> := [104, 101, 108, 108, 111];
    assert EncodeQuantum(104, 101, 108) == "aGVs";
    assert hello[3..] == [108, 111];
    assert Encode(hello[3..]) == "bG8=";
    assert Encode(hello) == "aGVsbG8=";
    DecodeEncode(hello);
  }

  /** Padding in a quantum that is not the last one is rejected, wherever line breaks stand. */
  lemma PaddingMustEndInput(s: string, i: int)
    requires 0 <= i < |SkipLineBreaks(s)| - 4 && SkipLineBreaks(s)[i] == Pad
    ensures Decode(s) == None
  {
    assert !InAlphabet(SkipLineBreaks(s)[i]);
  }

  /** For example, "aA==aA==" does not decode, although each of its quanta alone would. */
  lemma PaddingMustEndInputExample()
    ensures Decode("aA==aA==") == None
  {
    SkipLineBreaksIdentity("aA==aA==");
    PaddingMustEndInput("aA==aA==", 2);
  }

  /** The one quantum "aGk=" decodes to the bytes of "hi". */
  lemma DecodeHi()
    ensures Decode("aGk=") == Some([104, 105])
  {
    var s := "aGk=";
    SkipLineBreaksIdentity(s);
    DecodeSingleQuantum(s);
    assert Sextet(s[0]) == Some(26) && Sextet(s[1]) == Some(6) && Sextet(s[2]) == Some(36) && Sextet(s[3]) == None;
  }

  /** A line break anywhere in the input, padding included, makes no difference to decoding. */
  lemma LineBreaksSkipped(a: string, b: string, c: char)
    requires IsLineBreak(c)
    ensures Decode(a + [c] + b) == Decode(a + b)
  {
    SkipLineBreaksAppend(a, [c]);
    SkipLineBreaksAppend(a + [c], b);
    SkipLineBreaksAppend(a, b);
    assert SkipLineBreaks([c]) == [];
    assert SkipLineBreaks(a + [c]) == SkipLineBreaks(a);
    assert SkipLineBreaks(a + [c] + b) == SkipLineBreaks(a + b);
  }

  /** For example, a line break inside the padding: "aG=\n=" decodes like "aG==". */
  lemma LineBreakInPadding()
    ensures Decode("aG=\n=") == Decode("aG==")
  {
    LineBreaksSkipped("aG=", "=", '\n');
    assert "aG=" + ['\n'] + "=" == "aG=\n=";
    assert "aG=" + "=" == "aG==";
  }

  /** Full alphabet quanta, the part of well-formed input in front of its last quantum. */
  predicate FullQuanta(p: string) {
    |p| % 4 == 0 && forall i :: 0 <= i < |p| ==> InAlphabet(p[i])
  }

  /** A quantum that decodes as an inner one, in front of non-empty input, puts its bytes in front of that input's. */
  lemma DecodeQuantaCons(h: string, t: string)
    requires |h| == 4 && |t| > 0 && DecodeQuantum(h, false).Some?
    ensures DecodeQuanta(h + t) ==
      match DecodeQuanta(t) case None => None case Some(tail) => Some(DecodeQuantum(h, false).value + tail)
  {
    var s := h + t;
    assert s[..4] == h && s[4..] == t;
  }

  /** The first quantum of full quanta decodes as an inner quantum, and what follows it is full quanta again. */
  lemma FullQuantaTail(p: string)
    requires FullQuanta(p) && |p| > 0
    ensures DecodeQuantum(p[..4], false).Some?
    ensures FullQuanta(p[4..])
  {
    var h, rest := p[..4], p[4..];
    assert InAlphabet(h[0]) && InAlphabet(h[1]) && InAlphabet(h[2]) && InAlphabet(h[3]) by {
      assert h[0] == p[0] && h[1] == p[1] && h[2] == p[2] && h[3] == p[3];
    }
    DecodeQuantumSucceeds(h, false);
    forall i | 0 <= i < |rest| ensures InAlphabet(rest[i]) {
      assert rest[i] == p[i + 4];
    }
  }

  /** Behind full quanta, two last quanta that decode alike give inputs that decode alike. */
  lemma {:induction false} DecodeQuantaSameLast(p: string, q: string, q': string)
    requires FullQuanta(p) && |q| == 4 && |q'| == 4
    requires DecodeQuantum(q, true) == DecodeQuantum(q', true)
    ensures DecodeQuanta(p + q) == DecodeQuanta(p + q')
    ensures DecodeQuantum(q, true).Some? ==> DecodeQuanta(p + q).Some?
    decreases |p|
  {
    if p == [] {
      assert p + q == q && p + q' == q';
      DecodeSingleQuantum(q);
      DecodeSingleQuantum(q');
    } else {
      FullQuantaTail(p);
      DecodeQuantaSameLast(p[4..], q, q');
      DecodeQuantaSameLastStep(p[..4], p[4..] + q, p[4..] + q');
      SplitFront(p, q);
      SplitFront(p, q');
    }
  }

  /** One more inner quantum in front keeps two equal decodings equal, and successful ones successful. */
  lemma DecodeQuantaSameLastStep(h: string, t: string, t': string)
    requires |h| == 4 && |t| > 0 && |t'| > 0 && DecodeQuantum(h, false).Some?
    requires DecodeQuanta(t) == DecodeQuanta(t')
    ensures DecodeQuanta(h + t) == DecodeQuanta(h + t')
    ensures DecodeQuanta(t).Some? ==> DecodeQuanta(h + t).Some?
  {
    DecodeQuantaCons(h, t);
    DecodeQuantaCons(h, t');
  }

  lemma SplitFront(p: string, q: string)
    requires |p| >= 4
    ensures p[..4] + (p[4..] + q) == p + q
  {
    assert p[..4] + p[4..] == p;
  }

  /** Full quanta hold no line breaks, so the decoder sees them as they are. */
  lemma FullQuantaNoLineBreaks(p: string, q: string)
    requires FullQuanta(p) && forall i :: 0 <= i < |q| ==> !IsLineBreak(q[i])
    ensures SkipLineBreaks(p + q) == p + q
  {
    SkipLineBreaksIdentity(p + q);
  }

  /**
    The decoder is not strict: behind any full quanta, a last quantum "xyz="
    decodes, and alike for any two third characters that differ only in their
    two unused low bits.
  */
  lemma TrailingBitsIgnored(p: string, c0: char, c1: char, c2: char, c2': char)
    requires FullQuanta(p)
    requires InAlphabet(c0) && InAlphabet(c1) && InAlphabet(c2) && InAlphabet(c2')
    requires Sextet(c2).value / 4 == Sextet(c2').value / 4
    ensures Decode(p + [c0, c1, c2, Pad]) == Decode(p + [c0, c1, c2', Pad])
    ensures Decode(p + [c0, c1, c2, Pad]).Some?
  {
    FullQuantaNoLineBreaks(p, [c0, c1, c2, Pad]);
    FullQuantaNoLineBreaks(p, [c0, c1, c2', Pad]);
    DecodeQuantaSameLast(p, [c0, c1, c2, Pad], [c0, c1, c2', Pad]);
  }

  /** The same for a last quantum "xy==", whose second character has four unused low bits. */
  lemma TrailingBitsIgnoredTwoPads(p: string, c0: char, c1: char, c1': char)
    requires FullQuanta(p)
    requires InAlphabet(c0) && InAlphabet(c1) && InAlphabet(c1')
    requires Sextet(c1).value / 16 == Sextet(c1').value / 16
    ensures Decode(p + [c0, c1, Pad, Pad]) == Decode(p + [c0, c1', Pad, Pad])
    ensures Decode(p + [c0, c1, Pad, Pad]).Some?
  {
    FullQuantaNoLineBreaks(p, [c0, c1, Pad, Pad]);
    FullQuantaNoLineBreaks(p, [c0, c1', Pad, Pad]);
    DecodeQuantaSameLast(p, [c0, c1, Pad, Pad], [c0, c1', Pad, Pad]);
  }

  /** For example, "aGk=" and "aGl=" both decode to the bytes of "hi". */
  lemma TrailingBitsIgnoredExample()
    ensures Decode("aGk=") == Decode("aGl=") == Some([104, 105])
  {
    DecodeHi();
    assert Sextet('k') == Some(36) && Sextet('l') == Some(37);
    TrailingBitsIgnored([], 'a', 'G', 'k', 'l');
    assert [] + "aGk=" == "aGk=" && [] + "aGl=" == "aGl=";
  }
}
