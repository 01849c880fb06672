/** Unpadded base64url, sections 3.2 and 5 of RFC 4648, as
    `urlsafe_b64encode(...).rstrip("=")` and `"=" * (-len(token) % 4)` use it. */
module Base64 {
  import opened Option

  type Byte = i: nat | i < 256
  type Sextet = i: nat | i < 64

  const PAD: char := '='

  function SextetChar(v: Sextet): (c: char)
    ensures c != PAD && CharSextet(c) == Some(v)
  {
    if v < 26 then ('A' as int + v) as char
    else if v < 52 then ('a' as int + v - 26) as char
    else if v < 62 then ('0' as int + v - 52) as char
    else if v == 62 then '-' else '_'
  }

  /** The url-safe decoder also takes the two standard-alphabet characters. */
  function CharSextet(c: char): Option<Sextet> {
    if 'A' <= c <= 'Z' then Some(c as int - 'A' as int)
    else if 'a' <= c <= 'z' then Some(c as int - 'a' as int + 26)
    else if '0' <= c <= '9' then Some(c as int - '0' as int + 52)
    else if c == '-' || c == '+' then Some(62)
    else if c == '_' || c == '/' then Some(63)
    else None
  }

  // The four sextets of three bytes.

  function First(x: Byte): Sextet { x / 4 }

  function Second(x: Byte, y: Byte): Sextet { x % 4 * 16 + y / 16 }

  function Third(y: Byte, z: Byte): Sextet { y % 16 * 4 + z / 64 }

  function Fourth(z: Byte): Sextet { z % 64 }

  /** One group of four characters, for one to three bytes. */
  function EncodeQuad(bs: seq<Byte>): (q: string)
    requires 0 < |bs| <= 3
    ensures |q| == 4
  {
    if |bs| == 1 then [SextetChar(First(bs[0])), SextetChar(Second(bs[0], 0)), PAD, PAD]
    else if |bs| == 2 then
      [SextetChar(First(bs[0])), SextetChar(Second(bs[0], bs[1])), SextetChar(Third(bs[1], 0)), PAD]
    else
      [SextetChar(First(bs[0])), SextetChar(Second(bs[0], bs[1])),
       SextetChar(Third(bs[1], bs[2])), SextetChar(Fourth(bs[2]))]
  }

  function Encode(bs: seq<Byte>): string {
    if |bs| == 0 then ""
    else if |bs| <= 3 then EncodeQuad(bs)
    else EncodeQuad(bs[..3]) + Encode(bs[3..])
  }

  /** One group of four characters; low bits left over by padding are dropped. */
  function DecodeQuad(q: string): Option<seq<Byte>>
    requires |q| == 4
  {
    var a, b := CharSextet(q[0]), CharSextet(q[1]);
    if a.None? || b.None? then None
    else
      var b0: Byte := a.value * 4 + b.value / 16;
      if q[2] == PAD then (if q[3] == PAD then Some([b0]) else None)
      else
        var c := CharSextet(q[2]);
        if c.None? then None
        else
          var b1: Byte := b.value % 16 * 16 + c.value / 4;
          if q[3] == PAD then Some([b0, b1])
          else
            var d := CharSextet(q[3]);
            if d.None? then None
            else Some([b0, b1, c.value % 4 * 64 + d.value])
  }

  /** None stands for binascii.Error. */
  function Decode(s: string): Option<seq<Byte>> {
    if s == "" then Some([])
    else if |s| < 4 then None
    else
      var head := DecodeQuad(s[..4]);
      if head.None? || (|head.value| < 3 && |s| > 4) then None
      else
        var tail := Decode(s[4..]);
        if tail.None? then None else Some(head.value + tail.value)
  }

  lemma SextetsHold(x: Byte, y: Byte, z: Byte)
    ensures First(x) * 4 + Second(x, y) / 16 == x
    ensures Second(x, y) % 16 * 16 + Third(y, z) / 4 == y
    ensures Third(y, z) % 4 * 64 + Fourth(z) == z
  {
  }

  lemma QuadRoundTrip(bs: seq<Byte>)
    requires 0 < |bs| <= 3
    ensures DecodeQuad(EncodeQuad(bs)) == Some(bs)
  {
    if |bs| == 1 {
      SextetsHold(bs[0], 0, 0);
      assert bs == [bs[0]];
    } else if |bs| == 2 {
      SextetsHold(bs[0], bs[1], 0);
      assert bs == [bs[0], bs[1]];
    } else {
      SextetsHold(bs[0], bs[1], bs[2]);
      assert bs == [bs[0], bs[1], bs[2]];
    }
  }

  lemma {:induction false} DecodeParts(quad: string, bs: seq<Byte>, rest: string)
    requires |quad| == 4 && DecodeQuad(quad) == Some(bs) && (|bs| == 3 || rest == "") && Decode(rest).Some?
    ensures Decode(quad + rest) == Some(bs + Decode(rest).value)
  {
    assert (quad + rest)[..4] == quad && (quad + rest)[4..] == rest;
  }

  lemma {:induction false} DecodeOfEncode(bs: seq<Byte>)
    ensures Decode(Encode(bs)) == Some(bs)
  {
    if 0 < |bs| <= 3 {
      QuadRoundTrip(bs);
      DecodeParts(EncodeQuad(bs), bs, "");
      assert EncodeQuad(bs) + "" == EncodeQuad(bs) && bs + [] == bs;
    } else if |bs| > 3 {
      QuadRoundTrip(bs[..3]);
      DecodeOfEncode(bs[3..]);
      DecodeParts(EncodeQuad(bs[..3]), bs[..3], Encode(bs[3..]));
      assert bs == bs[..3] + bs[3..];
    }
  }

  // ---------- Padding ----------

  function Pads(n: nat): string { if n == 0 then "" else Pads(n - 1) + [PAD] }

  /** `rstrip("=")` */
  function StripPad(s: string): string {
    if s != "" && s[|s| - 1] == PAD then StripPad(s[..|s| - 1]) else s
  }

  /** `token + "=" * (-len(token) % 4)` */
  function Repad(t: string): string { t + Pads((-|t|) % 4) }

  lemma Assoc(a: string, b: string, c: string)
    ensures a + b + c == a + (b + c)
  {
  }

  lemma {:induction false} FewPads()
    ensures Pads(0) == "" && Pads(1) == [PAD] && Pads(2) == [PAD, PAD]
  {
    assert Pads(2) == Pads(1) + [PAD];
  }

  lemma {:induction false} QuadShape(bs: seq<Byte>)
    requires 0 < |bs| <= 3
    ensures EncodeQuad(bs)[|bs| + 1..] == Pads(3 - |bs|) && EncodeQuad(bs)[|bs|] != PAD
  {
    FewPads();
  }

  /** `rstrip` finds exactly the padding characters the encoder wrote. */
  lemma {:induction false} EncodeShape(bs: seq<Byte>) returns (t: string, n: nat)
    ensures Encode(bs) == t + Pads(n) && n < 3
    ensures t == "" || t[|t| - 1] != PAD
  {
    if |bs| == 0 {
      t, n := "", 0;
    } else if |bs| <= 3 {
      QuadShape(bs);
      t, n := EncodeQuad(bs)[..|bs| + 1], 3 - |bs|;
      assert EncodeQuad(bs) == t + EncodeQuad(bs)[|bs| + 1..];
    } else {
      var u, k := EncodeShape(bs[3..]);
      QuadShape(bs[..3]);
      t, n := EncodeQuad(bs[..3]) + u, k;
      Assoc(EncodeQuad(bs[..3]), u, Pads(k));
    }
  }

  lemma {:induction false} StripPadOf(t: string, n: nat)
    requires t == "" || t[|t| - 1] != PAD
    ensures StripPad(t + Pads(n)) == t
  {
    if n == 0 {
      assert t + Pads(0) == t;
    } else {
      assert t + Pads(n) == (t + Pads(n - 1)) + [PAD];
      assert (t + Pads(n))[..|t + Pads(n)| - 1] == t + Pads(n - 1);
      StripPadOf(t, n - 1);
    }
  }

  lemma {:induction false} PadsLength(n: nat)
    ensures |Pads(n)| == n
  {
    if n > 0 { PadsLength(n - 1); }
  }

  lemma PadCount(len: int, n: int)
    requires 0 <= n < 4 && (len + n) % 4 == 0
    ensures (-len) % 4 == n
  {
  }

  lemma GroupCount(n: nat)
    ensures (n + 3 + 2) / 3 == (n + 2) / 3 + 1
  {
  }

  /** Four characters for each three bytes begun. */
  lemma {:induction false} EncodeLength(bs: seq<Byte>)
    ensures |Encode(bs)| == 4 * ((|bs| + 2) / 3)
  {
    if |bs| > 3 {
      EncodeLength(bs[3..]);
      GroupCount(|bs| - 3);
    }
  }

  lemma {:induction false} RepadBy(t: string, n: nat)
    requires (-|t|) % 4 == n
    ensures Repad(t) == t + Pads(n)
  {
  }

  lemma FourTimes(n: nat)
    ensures 4 * n % 4 == 0
  {
  }

  /** Stripping the padding and restoring it from the length alone loses
      nothing, for every byte string. */
  lemma {:induction false} RepadOfStripPad(bs: seq<Byte>)
    ensures Repad(StripPad(Encode(bs))) == Encode(bs)
  {
    var t, n := EncodeShape(bs);
    PadsLength(n);
    EncodeLength(bs);
    FourTimes((|bs| + 2) / 3);
    PadCount(|t|, n);
    RepadBy(t, n);
    StripPadOf(t, n);
  }

  // ---------- The text itself ----------

  /** The alphabet of section 5 of RFC 4648, by index. */
  const ALPHABET: string := UPPER + LOWER + DIGITS + "-_"
  const UPPER := "ABCDEFGHIJKLMNOPQRSTUVWXYZ"
  const LOWER := "abcdefghijklmnopqrstuvwxyz"
  const DIGITS := "0123456789"

  lemma SextetIsUpper(v: Sextet)
    requires v < 26
    ensures SextetChar(v) == UPPER[v]
  {
  }

  lemma SextetIsLower(v: Sextet)
    requires 26 <= v < 52
    ensures SextetChar(v) == LOWER[v - 26]
  {
  }

  lemma SextetIsDigit(v: Sextet)
    requires 52 <= v < 62
    ensures SextetChar(v) == DIGITS[v - 52]
  {
  }

  lemma AlphabetByIndex(v: Sextet)
    ensures |ALPHABET| == 64 && SextetChar(v) == ALPHABET[v]
  {
    if v < 26 { SextetIsUpper(v); }
    else if v < 52 { SextetIsLower(v); }
    else if v < 62 { SextetIsDigit(v); }
  }

  lemma {:induction false} EncodeGroup(group: seq<Byte>, rest: seq<Byte>)
    requires |group| == 3
    ensures Encode(group + rest) == EncodeQuad(group) + Encode(rest)
  {
    assert (group + rest)[..3] == group && (group + rest)[3..] == rest;
    if rest == [] { assert group + rest == group; }
  }

  lemma CutThree(a: seq<Byte>, b: seq<Byte>)
    requires |a| >= 3
    ensures a[..3] + a[3..] == a && a[..3] + (a[3..] + b) == a + b
  {
  }

  /** Whole groups of three bytes are encoded one by one. */
  lemma {:induction false} EncodeConcat(a: seq<Byte>, b: seq<Byte>)
    requires |a| % 3 == 0
    ensures Encode(a + b) == Encode(a) + Encode(b)
  {
    if a == [] {
      assert a + b == b;
    } else {
      EncodeConcat(a[3..], b);
      EncodeGroup(a[..3], a[3..]);
      EncodeGroup(a[..3], a[3..] + b);
      CutThree(a, b);
      Assoc(EncodeQuad(a[..3]), Encode(a[3..]), Encode(b));
    }
  }

  /** Four characters stand for three bytes: both are the same number of 24 bits,
      the first byte and the first character the most significant. */
  lemma EncodeThree(x: Byte, y: Byte, z: Byte) returns (a: Sextet, b: Sextet, c: Sextet, d: Sextet)
    ensures Encode([x, y, z]) == [ALPHABET[a], ALPHABET[b], ALPHABET[c], ALPHABET[d]]
    ensures a as int * 0x40000 + b as int * 0x1000 + c as int * 0x40 + d
            == x as int * 0x10000 + y as int * 0x100 + z
  {
    a, b, c, d := First(x), Second(x, y), Third(y, z), Fourth(z);
    AlphabetByIndex(a);
    AlphabetByIndex(b);
    AlphabetByIndex(c);
    AlphabetByIndex(d);
  }

  /** Two bytes left over at the end are filled up with zero bits and one `=`, */
  lemma EncodeTwo(x: Byte, y: Byte) returns (a: Sextet, b: Sextet, c: Sextet)
    ensures Encode([x, y]) == [ALPHABET[a], ALPHABET[b], ALPHABET[c], '=']
    ensures a as int * 0x1000 + b as int * 0x40 + c == (x as int * 0x100 + y) * 0x4
  {
    a, b, c := First(x), Second(x, y), Third(y, 0);
    AlphabetByIndex(a);
    AlphabetByIndex(b);
    AlphabetByIndex(c);
  }

  /** one byte with two. */
  lemma EncodeOne(x: Byte) returns (a: Sextet, b: Sextet)
    ensures Encode([x]) == [ALPHABET[a], ALPHABET[b], '=', '=']
    ensures a as int * 0x40 + b == x as int * 0x10
  {
    a, b := First(x), Second(x, 0);
    AlphabetByIndex(a);
    AlphabetByIndex(b);
  }

  lemma {:induction false} DecodeFails(s: string)
    requires |s| > 4 && Decode(s[4..]) == None
    ensures Decode(s) == None
  {
  }

  lemma {:induction false} LoneCharacterFails(c: char)
    ensures Decode([c, PAD, PAD, PAD]) == None
  {
    assert [c, PAD, PAD, PAD][..4] == [c, PAD, PAD, PAD];
  }

  lemma {:induction false} OneTooManyPadded(t: string)
    requires |t| % 4 == 1
    ensures Decode(t + [PAD, PAD, PAD]) == None
  {
    if |t| == 1 {
      assert t + [PAD, PAD, PAD] == [t[0], PAD, PAD, PAD];
      LoneCharacterFails(t[0]);
    } else {
      OneTooManyPadded(t[4..]);
      assert (t + [PAD, PAD, PAD])[4..] == t[4..] + [PAD, PAD, PAD];
      DecodeFails(t + [PAD, PAD, PAD]);
    }
  }

  lemma {:induction false} RepadOneTooMany(t: string)
    requires |t| % 4 == 1
    ensures Repad(t) == t + [PAD, PAD, PAD]
  {
    OneMore(|t|);
    PadCount(|t|, 3);
    RepadBy(t, 3);
    FewPads();
    assert Pads(3) == Pads(2) + [PAD];
  }

  lemma OneMore(n: nat)
    requires n % 4 == 1
    ensures (n + 3) % 4 == 0
  {
    assert n + 3 == 4 * (n / 4 + 1);
    FourTimes(n / 4 + 1);
  }

  /** A text of one character more than whole groups is no encoding of anything. */
  lemma {:induction false} OneTooMany(t: string)
    requires |t| % 4 == 1
    ensures Decode(Repad(t)) == None
  {
    RepadOneTooMany(t);
    OneTooManyPadded(t);
  }
}
