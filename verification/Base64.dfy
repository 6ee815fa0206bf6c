/** The Base64 encoder of base64.c against RFC 4648, sections 3.5 and 4. */
module Base64 {
  import opened Options
  import opened CStrings

  const UPPER := "ABCDEFGHIJKLMNOPQRSTUVWXYZ"
  const LOWER := "abcdefghijklmnopqrstuvwxyz"
  const REST := "0123456789+/"
  const ALPHABET := UPPER + LOWER + REST
  const PAD := '='

  // ----- Sizes in a 64-bit size_t -----

  const WORD := 0x1_0000_0000_0000_0000
  const LARGEST := 3 * (0x4000_0000_0000_0000 - 1)

  function Quads(n: nat): nat {
    (n + 2) / 3
  }

  /** Rounding up to a multiple of three never wraps, since 2^64 - 1 is one. */
  lemma RoundingFits(n: nat)
    requires n < WORD
    ensures n % 3 != 0 ==> n + (3 - n % 3) < WORD && (n + (3 - n % 3)) / 3 == Quads(n)
    ensures n % 3 == 0 ==> n / 3 == Quads(n)
  {
    var q := n / 3;
    assert n == 3 * q + n % 3;
  }

  /** b64_encoded_size, in wrapping arithmetic: only the product can wrap. */
  method EncodedSize(inlen: nat) returns (ret: nat)
    requires inlen < WORD
    ensures ret == Wrap(4 * Quads(inlen))
  {
    hide Quads;
    RoundingFits(inlen);
    ret := inlen;
    if inlen % 3 != 0 {
      ret := Wrap(ret + (3 - inlen % 3));
    }
    ret := ret / 3;
    ret := Wrap(4 * ret);
  }

  function Wrap(n: nat): (r: nat)
    ensures r < WORD && (n < WORD ==> r == n)
  {
    n % WORD
  }

  /** The allocation size (encoded size plus terminator) is right iff the input is at most LARGEST bytes. */
  lemma AllocationExact(n: nat)
    requires n < WORD
    ensures Wrap(Wrap(4 * Quads(n)) + 1) == 4 * Quads(n) + 1 <==> n <= LARGEST
  {
    if n <= LARGEST {
      assert Quads(n) <= 0x4000_0000_0000_0000 - 1;
    } else {
      assert Quads(n) >= 0x4000_0000_0000_0000;
      assert 4 * Quads(n) + 1 > WORD;
    }
  }

  // ----- The encoding -----

  /** The character of a 6-bit value. */
  function Digit(s: bv6): char {
    ALPHABET[s as int]
  }

  /** The four 6-bit groups of three bytes, most significant bits first. */
  function Group0(b0: bv8): bv6 { (b0 >> 2) as bv6 }
  function Group1(b0: bv8, b1: bv8): bv6 { (((b0 & 0x03) << 4) | (b1 >> 4)) as bv6 }
  function Group2(b1: bv8, b2: bv8): bv6 { (((b1 & 0x0F) << 2) | (b2 >> 6)) as bv6 }
  function Group3(b2: bv8): bv6 { (b2 & 0x3F) as bv6 }

  /** One quantum: absent bytes count as zero bits, and groups made only of those are padding. */
  function Quantum(s: seq<bv8>): (q: string)
    requires 1 <= |s|
    ensures |q| == 4
  {
    var b0 := s[0];
    var b1 := if |s| > 1 then s[1] else 0;
    var b2 := if |s| > 2 then s[2] else 0;
    [Digit(Group0(b0)), Digit(Group1(b0, b1)),
     if |s| > 1 then Digit(Group2(b1, b2)) else PAD,
     if |s| > 2 then Digit(Group3(b2)) else PAD]
  }

  function Encode(s: seq<bv8>): string {
    if s == [] then ""
    else if |s| <= 3 then Quantum(s)
    else Quantum(s[..3]) + Encode(s[3..])
  }

  // ----- A reference decoder that accepts canonical encodings only -----

  /** Table 1 of RFC 4648, read backwards. */
  function Index(c: char): (r: Option<nat>)
    ensures r.Some? ==> r.value < 64
  {
    if 'A' <= c <= 'Z' then Some(c as int - 'A' as int)
    else if 'a' <= c <= 'z' then Some(c as int - 'a' as int + 26)
    else if '0' <= c <= '9' then Some(c as int - '0' as int + 52)
    else if c == '+' then Some(62)
    else if c == '/' then Some(63)
    else None
  }

  function Value(c: char): Option<bv6> {
    match Index(c)
    case None => None
    case Some(n) => Some(n as bv6)
  }

  function Byte0(s0: bv6, s1: bv6): bv8 { ((s0 as bv8) << 2) | ((s1 as bv8) >> 4) }
  function Byte1(s1: bv6, s2: bv6): bv8 { ((s1 as bv8) << 4) | ((s2 as bv8) >> 2) }
  function Byte2(s2: bv6, s3: bv6): bv8 { ((s2 as bv8) << 6) | (s3 as bv8) }

  /** Three bytes from four digits. */
  function DecodeFull(q: string): Option<seq<bv8>>
    requires |q| == 4
  {
    match (Value(q[0]), Value(q[1]), Value(q[2]), Value(q[3]))
    case (Some(s0), Some(s1), Some(s2), Some(s3)) => Some([Byte0(s0, s1), Byte1(s1, s2), Byte2(s2, s3)])
    case _ => None
  }

  /** The final quantum, possibly padded; the bits under the padding must be zero (section 3.5). */
  function DecodeLast(q: string): Option<seq<bv8>>
    requires |q| == 4
  {
    if q[3] != PAD then DecodeFull(q)
    else if q[2] != PAD then
      match (Value(q[0]), Value(q[1]), Value(q[2]))
      case (Some(s0), Some(s1), Some(s2)) =>
        if s2 & 0x03 == 0 then Some([Byte0(s0, s1), Byte1(s1, s2)]) else None
      case _ => None
    else
      match (Value(q[0]), Value(q[1]))
      case (Some(s0), Some(s1)) => if s1 & 0x0F == 0 then Some([Byte0(s0, s1)]) else None
      case _ => None
  }

  function Decode(t: string): Option<seq<bv8>> {
    if t == "" then Some([])
    else if |t| < 4 then None
    else if |t| == 4 then DecodeLast(t)
    else
      match (DecodeFull(t[..4]), Decode(t[4..]))
      case (Some(a), Some(b)) => Some(a + b)
      case _ => None
  }

  // ----- Digits and values -----

  lemma UpperDigits(i: nat)
    requires i < 26
    ensures ALPHABET[i] as int == 'A' as int + i
  {
    assert ALPHABET[i] == UPPER[i];
  }

  lemma LowerDigits(i: nat)
    requires 26 <= i < 52
    ensures ALPHABET[i] as int == 'a' as int + i - 26
  {
    assert ALPHABET[i] == LOWER[i - 26];
  }

  lemma DecimalDigits(i: nat)
    requires 52 <= i < 62
    ensures ALPHABET[i] as int == '0' as int + i - 52
  {
    assert ALPHABET[i] == REST[i - 52];
  }

  lemma IndexOfDigit(i: nat)
    requires i < 64
    ensures Index(ALPHABET[i]) == Some(i) && ALPHABET[i] != PAD
  {
    if i < 26 {
      UpperDigits(i);
    } else if i < 52 {
      LowerDigits(i);
    } else if i < 62 {
      DecimalDigits(i);
    }
  }

  lemma DigitOfIndex(c: char)
    ensures Index(c).Some? ==> ALPHABET[Index(c).value] == c
  {
    if 'A' <= c <= 'Z' {
      UpperDigits(c as int - 'A' as int);
    } else if 'a' <= c <= 'z' {
      LowerDigits(c as int - 'a' as int + 26);
    } else if '0' <= c <= '9' {
      DecimalDigits(c as int - '0' as int + 52);
    }
  }

  lemma IntOfBits(s: bv6)
    ensures (s as int) as bv6 == s
  {
  }

  lemma BitsOfInt(n: nat)
    requires n < 64
    ensures (n as bv6) as int == n
  {
  }

  lemma ValueOfDigit(s: bv6)
    ensures Value(Digit(s)) == Some(s) && Digit(s) != PAD
  {
    hide Index;
    IntOfBits(s);
    IndexOfDigit(s as int);
  }

  lemma DigitOfValue(c: char)
    ensures Value(c).Some? ==> Digit(Value(c).value) == c
  {
    hide Index;
    if Index(c).Some? {
      BitsOfInt(Index(c).value);
      DigitOfIndex(c);
    }
  }

  // ----- Bits -----

  lemma BitsForth(b0: bv8, b1: bv8, b2: bv8)
    ensures Byte0(Group0(b0), Group1(b0, b1)) == b0
    ensures Byte1(Group1(b0, b1), Group2(b1, b2)) == b1
    ensures Byte2(Group2(b1, b2), Group3(b2)) == b2
  {
  }

  lemma BitsBack(s0: bv6, s1: bv6, s2: bv6, s3: bv6)
    ensures Group0(Byte0(s0, s1)) == s0
    ensures Group1(Byte0(s0, s1), Byte1(s1, s2)) == s1
    ensures Group2(Byte1(s1, s2), Byte2(s2, s3)) == s2
    ensures Group3(Byte2(s2, s3)) == s3
  {
  }

  lemma PadBits(b0: bv8, b1: bv8)
    ensures Group1(b0, 0) & 0x0F == 0 && Group2(b1, 0) & 0x03 == 0
  {
  }

  lemma PadBitsBack(s0: bv6, s1: bv6, s2: bv6)
    ensures s1 & 0x0F == 0 ==> Group1(Byte0(s0, s1), 0) == s1
    ensures s2 & 0x03 == 0 ==> Group2(Byte1(s1, s2), 0) == s2
  {
  }

  // ----- What the encoding promises -----

  lemma ThreeBytes(s: seq<bv8>)
    requires |s| == 3
    ensures DecodeFull(Quantum(s)) == Some(s) && Quantum(s)[3] != PAD
  {
    hide Digit, Value, Group0, Group1, Group2, Group3, Byte0, Byte1, Byte2;
    BitsForth(s[0], s[1], s[2]);
    ValueOfDigit(Group0(s[0]));
    ValueOfDigit(Group1(s[0], s[1]));
    ValueOfDigit(Group2(s[1], s[2]));
    ValueOfDigit(Group3(s[2]));
    assert s == [s[0], s[1], s[2]];
  }

  lemma LastBytes(s: seq<bv8>)
    requires 1 <= |s| <= 3
    ensures DecodeLast(Quantum(s)) == Some(s)
  {
    hide Digit, Value, Group0, Group1, Group2, Group3, Byte0, Byte1, Byte2;
    if |s| == 3 {
      ThreeBytes(s);
    } else {
      var b1 := if |s| > 1 then s[1] else 0;
      BitsForth(s[0], b1, 0);
      PadBits(s[0], b1);
      ValueOfDigit(Group0(s[0]));
      ValueOfDigit(Group1(s[0], b1));
      ValueOfDigit(Group2(b1, 0));
      assert s == if |s| == 2 then [s[0], s[1]] else [s[0]];
    }
  }

  /** The reference decoder returns what was encoded; in particular the pad bits are zero. */
  lemma {:induction false} DecodeEncode(s: seq<bv8>)
    ensures Decode(Encode(s)) == Some(s)
  {
    hide Quantum, DecodeFull, DecodeLast;
    if s == [] {
    } else if |s| <= 3 {
      LastBytes(s);
    } else {
      ThreeBytes(s[..3]);
      DecodeEncode(s[3..]);
      EncodeLength(s[3..]);
      assert Encode(s)[..4] == Quantum(s[..3]) && Encode(s)[4..] == Encode(s[3..]);
      assert s == s[..3] + s[3..];
    }
  }

  lemma {:induction false} EncodeLength(s: seq<bv8>)
    ensures |Encode(s)| == 4 * Quads(|s|)
  {
    if |s| > 3 {
      EncodeLength(s[3..]);
    }
  }

  lemma FullBack(q: string)
    requires |q| == 4 && DecodeFull(q).Some?
    ensures |DecodeFull(q).value| == 3 && Quantum(DecodeFull(q).value) == q
  {
    hide Digit, Value, Group0, Group1, Group2, Group3, Byte0, Byte1, Byte2;
    BitsBack(Value(q[0]).value, Value(q[1]).value, Value(q[2]).value, Value(q[3]).value);
    DigitOfValue(q[0]);
    DigitOfValue(q[1]);
    DigitOfValue(q[2]);
    DigitOfValue(q[3]);
  }

  lemma LastBack(q: string)
    requires |q| == 4 && DecodeLast(q).Some?
    ensures 1 <= |DecodeLast(q).value| <= 3 && Quantum(DecodeLast(q).value) == q
  {
    hide Digit, Value, Group0, Group1, Group2, Group3, Byte0, Byte1, Byte2;
    if q[3] != PAD {
      FullBack(q);
    } else {
      var s2 := if q[2] != PAD then Value(q[2]).value else 0;
      BitsBack(Value(q[0]).value, Value(q[1]).value, s2, 0);
      PadBitsBack(Value(q[0]).value, Value(q[1]).value, s2);
      DigitOfValue(q[0]);
      DigitOfValue(q[1]);
      DigitOfValue(q[2]);
    }
  }

  /** Every text the reference decoder accepts is the encoding of what it decodes to. */
  lemma {:induction false} EncodeDecode(t: string)
    requires Decode(t).Some?
    ensures Encode(Decode(t).value) == t
    ensures |t| > 0 ==> Decode(t).value != []
  {
    hide Quantum, DecodeFull, DecodeLast;
    if t == "" {
    } else if |t| == 4 {
      LastBack(t);
    } else {
      var a, b := DecodeFull(t[..4]).value, Decode(t[4..]).value;
      FullBack(t[..4]);
      EncodeDecode(t[4..]);
      assert (a + b)[..3] == a && (a + b)[3..] == b;
      assert t == t[..4] + t[4..];
    }
  }

  function PadCount(n: nat): nat {
    (3 - n % 3) % 3
  }

  lemma PadCountLess(n: nat)
    requires n > 3
    ensures PadCount(n - 3) == PadCount(n)
    ensures PadCount(1) == 2 && PadCount(2) == 1 && PadCount(3) == 0
  {
  }

  /** The pad character stands exactly in the last (3 - n mod 3) mod 3 places. */
  lemma {:induction false} PaddingAtEnd(s: seq<bv8>)
    ensures forall k :: 0 <= k < |Encode(s)| ==> (Encode(s)[k] == PAD <==> k >= |Encode(s)| - PadCount(|s|))
  {
    hide Quantum, PadCount;
    PadCountLess(if |s| > 3 then |s| else 4);
    if 1 <= |s| <= 3 {
      QuantumPadding(s);
    } else if |s| > 3 {
      QuantumPadding(s[..3]);
      PaddingAtEnd(s[3..]);
      assert |Encode(s[3..])| >= 4 by { EncodeLength(s[3..]); }
      assert PadCount(|s|) <= 2 by { PadCountSmall(|s|); }
      assert forall k :: 4 <= k < |Encode(s)| ==> Encode(s)[k] == Encode(s[3..])[k - 4];
    }
  }

  lemma PadCountSmall(n: nat)
    ensures PadCount(n) <= 2
  {
  }

  lemma QuantumPadding(s: seq<bv8>)
    requires 1 <= |s| <= 3
    ensures forall k :: 0 <= k < 4 ==> (Quantum(s)[k] == PAD <==> k > |s|)
  {
    hide Digit, Value, Group0, Group1, Group2, Group3;
    var b1, b2 := if |s| > 1 then s[1] else 0, if |s| > 2 then s[2] else 0;
    ValueOfDigit(Group0(s[0]));
    ValueOfDigit(Group1(s[0], b1));
    ValueOfDigit(Group2(b1, b2));
    ValueOfDigit(Group3(b2));
  }

  /** Encoding distributes over concatenation at multiples of three bytes. */
  lemma {:induction false} EncodeAppend(a: seq<bv8>, b: seq<bv8>)
    requires |a| % 3 == 0
    ensures Encode(a + b) == Encode(a) + Encode(b)
  {
    hide Quantum;
    if a == [] {
      assert a + b == b;
    } else if b == [] {
      assert a + b == a;
    } else {
      assert (a + b)[..3] == a[..3] && (a + b)[3..] == a[3..] + b;
      EncodeAppend(a[3..], b);
      if |a| == 3 {
        assert a[..3] == a;
      }
    }
  }

  /** RFC 4648, section 10, and the two digits that it leaves out. */
  lemma KnownEncodings()
    ensures Encode([0x66]) == "Zg==" && Encode([0x66, 0x6F]) == "Zm8=" && Encode([0x66, 0x6F, 0x6F]) == "Zm9v"
    ensures Encode([0xFB, 0xFF, 0xFE]) == "+//+"
  {
    hide Digit;
    DigitsOf();
  }

  lemma DigitsOf()
    ensures Digit(25) == 'Z' && Digit(32) == 'g' && Digit(38) == 'm' && Digit(60) == '8' && Digit(61) == '9'
    ensures Digit(47) == 'v' && Digit(62) == '+' && Digit(63) == '/'
  {
    assert ALPHABET[25] == UPPER[25] && ALPHABET[32] == LOWER[6] && ALPHABET[38] == LOWER[12];
    assert ALPHABET[47] == LOWER[21] && ALPHABET[60] == REST[8] && ALPHABET[61] == REST[9];
    assert ALPHABET[62] == REST[10] && ALPHABET[63] == REST[11];
    BitsOfInt(25);
    BitsOfInt(32);
    BitsOfInt(38);
    BitsOfInt(47);
    BitsOfInt(60);
    BitsOfInt(61);
    BitsOfInt(62);
    BitsOfInt(63);
  }

  // ----- b64_encode -----

  /** One byte shifted into a size_t. */
  function ShiftIn(v: bv64, b: bv8): bv64 {
    (v << 8) | (b as bv64)
  }

  lemma ShiftZero(v: bv64)
    ensures v << 8 == ShiftIn(v, 0)
  {
  }

  function Shifted(b0: bv8, b1: bv8, b2: bv8): bv64 {
    ShiftIn(ShiftIn(b0 as bv64, b1), b2)
  }

  /** The masked shifts of the loop pick out the 6-bit groups. */
  lemma ShiftsAreGroups(b0: bv8, b1: bv8, b2: bv8)
    ensures (Shifted(b0, b1, b2) >> 18) & 0x3F < 64 && (Shifted(b0, b1, b2) >> 12) & 0x3F < 64
    ensures (Shifted(b0, b1, b2) >> 6) & 0x3F < 64 && Shifted(b0, b1, b2) & 0x3F < 64
    ensures ((Shifted(b0, b1, b2) >> 18) & 0x3F) as bv6 == Group0(b0)
    ensures ((Shifted(b0, b1, b2) >> 12) & 0x3F) as bv6 == Group1(b0, b1)
    ensures ((Shifted(b0, b1, b2) >> 6) & 0x3F) as bv6 == Group2(b1, b2)
    ensures (Shifted(b0, b1, b2) & 0x3F) as bv6 == Group3(b2)
  {
  }

  /** The bytes of the group at i, and the index where the next group starts. */
  function GroupEnd(len: nat, i: nat): nat {
    if i + 3 < len then i + 3 else len
  }

  lemma EncodeStep(s: seq<bv8>, i: nat)
    requires i < |s|
    ensures Encode(s[i..]) == Quantum(s[i..GroupEnd(|s|, i)]) + Encode(s[GroupEnd(|s|, i)..])
  {
    hide Quantum;
    if i + 3 < |s| {
      assert s[i..][..3] == s[i..i + 3] && s[i..][3..] == s[i + 3..];
    } else {
      assert s[i..|s|] == s[i..] && s[|s|..] == [];
    }
  }

  /** A byte of the group, absent ones being zero. */
  function ByteAt(s: seq<bv8>, i: nat): bv8 {
    if i < |s| then s[i] else 0
  }

  lemma GroupBytes(input: seq<bv8>, i: nat, len: nat)
    requires i < len <= |input|
    ensures var s := input[i..GroupEnd(len, i)];
            && i < GroupEnd(len, i) <= len && ByteAt(s, 0) == input[i]
            && ByteAt(s, 1) == (if i + 1 < len then input[i + 1] else 0)
            && ByteAt(s, 2) == if i + 2 < len then input[i + 2] else 0
  {
  }

  /** The first half of the loop body: three bytes shifted into one word. */
  method LoadGroup(input: array<bv8>, i: nat, len: nat) returns (v: bv64)
    requires i < len <= input.Length
    ensures var s := input[i..GroupEnd(len, i)];
            v == Shifted(ByteAt(s, 0), ByteAt(s, 1), ByteAt(s, 2))
  {
    hide ShiftIn, ByteAt, GroupEnd;
    ghost var b0 := input[i];
    ghost var b1: bv8 := if i + 1 < len then input[i + 1] else 0;
    ghost var b2: bv8 := if i + 2 < len then input[i + 2] else 0;
    v := input[i] as bv64;
    ShiftZero(v);
    v := if i + 1 < len then ShiftIn(v, input[i + 1]) else v << 8;
    assert v == ShiftIn(b0 as bv64, b1);
    ShiftZero(v);
    v := if i + 2 < len then ShiftIn(v, input[i + 2]) else v << 8;
    assert v == Shifted(b0, b1, b2);
    hide Shifted;
    GroupBytes(input[..], i, len);
    assert input[..][i..GroupEnd(len, i)] == input[i..GroupEnd(len, i)];
  }

  /** A group is its quantum. */
  lemma QuantumIs(s: seq<bv8>)
    requires 1 <= |s| <= 3
    ensures var b0, b1, b2 := ByteAt(s, 0), ByteAt(s, 1), ByteAt(s, 2);
            Quantum(s) == [Digit(Group0(b0)), Digit(Group1(b0, b1)),
                           if |s| > 1 then Digit(Group2(b1, b2)) else PAD, if |s| > 2 then Digit(Group3(b2)) else PAD]
  {
    hide Digit, Group0, Group1, Group2, Group3;
  }

  /** The loop body: the four characters of the group at i. */
  method EncodeGroup(input: array<bv8>, i: nat, len: nat) returns (c0: char, c1: char, c2: char, c3: char)
    requires i < len <= input.Length
    ensures [c0, c1, c2, c3] == Quantum(input[i..GroupEnd(len, i)])
  {
    hide Digit, Group0, Group1, Group2, Group3, Shifted, Quantum, ByteAt;
    ghost var s := input[i..GroupEnd(len, i)];
    var v := LoadGroup(input, i, len);
    ShiftsAreGroups(ByteAt(s, 0), ByteAt(s, 1), ByteAt(s, 2));
    QuantumIs(s);
    c0 := Digit(((v >> 18) & 0x3F) as bv6);
    c1 := Digit(((v >> 12) & 0x3F) as bv6);
    if i + 1 < len {
      c2 := Digit(((v >> 6) & 0x3F) as bv6);
    } else {
      c2 := PAD;
    }
    if i + 2 < len {
      c3 := Digit((v & 0x3F) as bv6);
    } else {
      c3 := PAD;
    }
  }

  lemma QuadsOf(n: nat)
    ensures 3 * Quads(n) - 2 <= n <= 3 * Quads(n)
  {
  }

  /** An array's contents after a log of single writes. */
  function Replay(s: string, log: seq<(nat, char)>): (r: string)
    ensures |r| == |s|
  {
    if log == [] then s
    else
      var before, (k, c) := Replay(s, log[..|log| - 1]), log[|log| - 1];
      if k < |s| then before[k := c] else before
  }

  /** One write to the output, on record. */
  method Store(out: array<char>, k: nat, c: char, ghost blank: string, ghost log: seq<(nat, char)>)
    returns (ghost more: seq<(nat, char)>)
    requires k < out.Length && out[..] == Replay(blank, log)
    modifies out
    ensures more == log + [(k, c)] && out[..] == Replay(blank, more) && out[..] == old(out[..])[k := c]
  {
    more := log + [(k, c)];
    assert more[..|log|] == log;
    out[k] := c;
  }

  /** The four writes of a group. */
  method StoreGroup(out: array<char>, j: nat, c0: char, c1: char, c2: char, c3: char, ghost blank: string,
                    ghost log: seq<(nat, char)>)
    returns (ghost more: seq<(nat, char)>)
    requires j + 4 <= out.Length && out[..] == Replay(blank, log)
    modifies out
    ensures more == log + [(j, c0), (j + 1, c1), (j + 2, c2), (j + 3, c3)] && out[..] == Replay(blank, more)
    ensures out[..j + 4] == old(out[..j]) + [c0, c1, c2, c3]
    ensures forall k :: j + 4 <= k < out.Length ==> out[k] == old(out[k])
  {
    hide Replay;
    ghost var was := out[..];
    more := Store(out, j, c0, blank, log);
    more := Store(out, j + 1, c1, blank, more);
    more := Store(out, j + 2, c2, blank, more);
    more := Store(out, j + 3, c3, blank, more);
    ghost var now := was[j := c0][j + 1 := c1][j + 2 := c2][j + 3 := c3];
    assert out[..] == now;
    assert forall k :: 0 <= k < out.Length ==> out[k] == now[k];
  }

  /** b64_encode: NULL for no input, otherwise the encoding with its terminator in an array of
      exactly that size; no index leaves the range of size_t. The contents are those of a fresh
      block after one write to every slot, the terminator's first and the rest in order. */
  method B64Encode(input: array?<bv8>, len: nat)
    returns (out: array?<char>, ghost blank: string, ghost writes: seq<(nat, char)>)
    requires input != null ==> len <= input.Length
    requires len <= LARGEST
    ensures out == null <==> input == null || len == 0
    ensures out != null ==> fresh(out) && out.Length == 4 * Quads(len) + 1
    ensures out != null ==> out[..4 * Quads(len)] == Encode(input[..len]) && out[4 * Quads(len)] == NUL
    ensures out != null ==> out[..] == Replay(blank, writes) && |writes| == out.Length
    ensures out != null ==> forall k :: 0 <= k < |writes| ==> writes[k].0 == if k == 0 then 4 * Quads(len) else k - 1
  {
    hide Encode, Quantum, Quads, Wrap, Replay;
    blank, writes := "", [];
    if input == null || len == 0 {
      return null, blank, writes;
    }
    AllocationExact(len);
    QuadsOf(len);
    var elen := EncodedSize(len);
    out := new char[elen + 1];
    blank := out[..];
    NothingReplayed(blank);
    writes := Store(out, elen, NUL, blank, writes);
    ghost var s := input[..len];
    EncodeNothing();
    assert s[0..] == s;
    var i, j := 0, 0;
    while i < len
      invariant 3 * j == 4 * i && i <= 3 * Quads(len) < WORD && j <= elen
      invariant out[..j] + Encode(s[if i < len then i else len..]) == Encode(s)
      invariant out[elen] == NUL && out[..] == Replay(blank, writes)
      invariant |writes| == j + 1 && forall k :: 0 <= k <= j ==> writes[k].0 == if k == 0 then elen else k - 1
    {
      GroupLeft(len, i, j);
      EncodeStep(s, i);
      assert input[i..GroupEnd(len, i)] == s[i..GroupEnd(len, i)];
      var c0, c1, c2, c3 := EncodeGroup(input, i, len);
      writes := StoreGroup(out, j, c0, c1, c2, c3, blank, writes);
      i, j := i + 3, j + 4;
    }
    GroupsDone(len, i, j);
    assert s[len..] == [];
    assert out[..j] == out[..j] + "";
  }

  lemma NothingReplayed(s: string)
    ensures Replay(s, []) == s
  {
  }

  lemma EncodeNothing()
    ensures Encode([]) == ""
  {
  }

  lemma GroupLeft(len: nat, i: nat, j: nat)
    requires i < len && 3 * j == 4 * i
    ensures j + 4 <= 4 * Quads(len) && i + 3 <= 3 * Quads(len)
  {
  }

  lemma GroupsDone(len: nat, i: nat, j: nat)
    requires len <= i <= 3 * Quads(len) && 3 * j == 4 * i
    ensures j == 4 * Quads(len)
  {
  }
}
