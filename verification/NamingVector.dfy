/** The vector of providers/redis/redis_test.go: the name of the instance "foobar", worked out step by step. */
module NamingVector {
  import opened GoTypes
  import opened Positional
  import opened Fnv
  import opened Base32
  import opened Naming

  // ---- the hash ----

  lemma RemainderIs(v: nat, q: nat, r: nat)
    requires v == q * WORD + r && r < WORD
    ensures v % WORD == r
  {
  }

  lemma XorByteOf(high: nat, low: nat, b: GoByte)
    requires low < 256 && high * 256 + low < WORD
    ensures XorByte(high * 256 + low, b) == high * 256 + XorLow(low, b as int)
  {
    assert (high * 256 + low) / 256 == high && (high * 256 + low) % 256 == low;
  }

  /** One step in numbers: the xored low byte, and quotient and remainder of the product by 2^64. */
  lemma StepBy(high: nat, low: nat, b: GoByte, x: nat, q: nat, r: nat)
    requires low < 256 && r < WORD && high * 256 + low < WORD
    requires Xor(low, b as int, 8) == x && (high * 256 + x) * PRIME == q * WORD + r
    ensures Step(high * 256 + low, b) == r
  {
    XorByteOf(high, low, b);
    RemainderIs((high * 256 + x) * PRIME, q, r);
  }

  lemma StepTo(high: nat, low: nat, b: GoByte, x: nat, q: nat, r: nat)
    requires low < 256 && r < WORD && high * 256 + low < WORD
    requires XorUnrolled(low, b as int) == x && (high * 256 + x) * PRIME == q * WORD + r
    ensures Step(high * 256 + low, b) == r
  {
    XorUnrolls(low, b as int);
    StepBy(high, low, b, x, q, r);
  }

  function Differ(a: nat, b: nat): nat {
    if a % 2 == b % 2 then 0 else 1
  }

  function XorUnrolled(a: nat, b: nat): nat {
    Differ(a, b) + 2 * Differ(a / 2, b / 2) + 4 * Differ(a / 4, b / 4) + 8 * Differ(a / 8, b / 8)
    + 16 * Differ(a / 16, b / 16) + 32 * Differ(a / 32, b / 32)
    + 64 * Differ(a / 64, b / 64) + 128 * Differ(a / 128, b / 128)
  }

  lemma XorOne(a: nat, b: nat, bits: nat)
    requires bits > 0
    ensures Xor(a, b, bits) == 2 * Xor(a / 2, b / 2, bits - 1) + Differ(a, b)
  {
  }

  lemma Halves(a: nat)
    ensures a / 2 / 2 == a / 4 && a / 4 / 2 == a / 8 && a / 8 / 2 == a / 16
    ensures a / 16 / 2 == a / 32 && a / 32 / 2 == a / 64 && a / 64 / 2 == a / 128
  {
  }

  lemma XorHigh(a: nat, b: nat)
    ensures Xor(a / 16, b / 16, 4) == Differ(a / 16, b / 16) + 2 * Differ(a / 32, b / 32)
                                    + 4 * Differ(a / 64, b / 64) + 8 * Differ(a / 128, b / 128)
  {
    Halves(a);
    Halves(b);
    XorOne(a / 16, b / 16, 4);
    XorOne(a / 32, b / 32, 3);
    XorOne(a / 64, b / 64, 2);
    XorOne(a / 128, b / 128, 1);
  }

  lemma XorUnrolls(a: nat, b: nat)
    ensures Xor(a, b, 8) == XorUnrolled(a, b)
  {
    Halves(a);
    Halves(b);
    XorOne(a, b, 8);
    XorOne(a / 2, b / 2, 7);
    XorOne(a / 4, b / 4, 6);
    XorOne(a / 8, b / 8, 5);
    XorHigh(a, b);
  }

  lemma FoobarFirstSteps()
    ensures Step(0xcbf2_9ce4_8422_2325, 'f') == 0xaf63_db4c_8601_ead9
    ensures Step(0xaf63_db4c_8601_ead9, 'o') == 0x0898_5907_b541_d342
    ensures Step(0x0898_5907_b541_d342, 'o') == 0xdcb2_7518_fed9_d577
  {
    StepTo(0xcbf29ce4842223, 0x25, 'f', 0x43, 875948729822, 0xaf63_db4c_8601_ead9);
    StepTo(0xaf63db4c8601ea, 0xd9, 'o', 0xb6, 753294593456, 0x0898_5907_b541_d342);
    StepTo(0x8985907b541d3, 0x42, 'o', 0x2d, 36915709891, 0xdcb2_7518_fed9_d577);
  }

  lemma FoobarLastSteps()
    ensures Step(0xdcb2_7518_fed9_d577, 'b') == 0xdd12_0e79_0c25_12af
    ensures Step(0xdd12_0e79_0c25_12af, 'a') == 0xcac1_65af_a2fe_f40a
    ensures Step(0xcac1_65af_a2fe_f40a, 'r') == 0x8594_4171_f739_67e8
  {
    StepTo(0xdcb27518fed9d5, 0x77, 'b', 0x15, 947886824053, 0xdd12_0e79_0c25_12af);
    StepTo(0xdd120e790c2512, 0xaf, 'a', 0xce, 949490711171, 0xcac1_65af_a2fe_f40a);
    StepTo(0xcac165afa2fef4, 0xa, 'r', 0x78, 870828060923, 0x8594_4171_f739_67e8);
  }

  lemma HashCons(h: Word, a: GoByte, rest: GoString)
    ensures Hash(h, [a] + rest) == Hash(Step(h, a), rest)
  {
    assert ([a] + rest)[1..] == rest;
  }

  lemma HashOfThree(h: Word, a: GoByte, b: GoByte, c: GoByte)
    ensures Hash(h, [a, b, c]) == Step(Step(Step(h, a), b), c)
  {
    assert [a, b, c] == [a] + [b, c] && [b, c] == [b] + [c] && [c] == [c] + [];
    HashCons(h, a, [b, c]);
    HashCons(Step(h, a), b, [c]);
    HashCons(Step(Step(h, a), b), c, []);
  }

  /** The 64-bit FNV-1a hash of "foobar", as draft-eastlake-fnv lists it. */
  lemma FoobarHash()
    ensures Hash(OFFSET_BASIS, "foobar") == 0x8594_4171_f739_67e8
  {
    FoobarFirstSteps();
    FoobarLastSteps();
    var id: GoString := "foobar";
    HashOfConcat(OFFSET_BASIS, "foo", "bar");
    assert id == "foo" + "bar";
    HashOfThree(OFFSET_BASIS, 'f', 'o', 'o');
    HashOfThree(0xdcb2_7518_fed9_d577, 'b', 'a', 'r');
  }

  // ---- the name ----

  type Bit = b: nat | b < 2

  lemma FromSnoc(bits: seq<nat>, b: nat)
    ensures FromBits(bits + [b]) == 2 * FromBits(bits) + b
  {
    assert (bits + [b])[..|bits|] == bits;
  }

  lemma FromFive(a: Bit, b: Bit, c: Bit, d: Bit, e: Bit)
    ensures FromBits([a, b, c, d, e]) == 16 * a + 8 * b + 4 * c + 2 * d + e
  {
    assert [a, b] == [a] + [b] && [a, b, c] == [a, b] + [c];
    assert [a, b, c, d] == [a, b, c] + [d] && [a, b, c, d, e] == [a, b, c, d] + [e];
    assert [a] == [] + [a];
    FromSnoc([], a);
    FromSnoc([a], b);
    FromSnoc([a, b], c);
    FromSnoc([a, b, c], d);
    FromSnoc([a, b, c, d], e);
  }

  lemma BitsOfByte(a: Bit, b: Bit, c: Bit, d: Bit, e: Bit, f: Bit, g: Bit, h: Bit)
    ensures Bits(128 * a + 64 * b + 32 * c + 16 * d + 8 * e + 4 * f + 2 * g + h, 8) == [a, b, c, d, e, f, g, h]
  {
    var five := [a, b, c, d, e];
    assert five + [f] == [a, b, c, d, e, f] && five + [f, g] == [a, b, c, d, e, f] + [g];
    assert five + [f, g, h] == five + [f, g] + [h] == [a, b, c, d, e, f, g, h];
    FromFive(a, b, c, d, e);
    FromSnoc(five, f);
    FromSnoc(five + [f], g);
    FromSnoc(five + [f, g], h);
    BitsOfFromBits(five + [f, g, h]);
  }

  lemma GroupsCons(group: seq<Bit>, rest: seq<Bit>)
    requires |group| == 5
    ensures Groups(group + rest) == [FromBits(group)] + Groups(rest)
  {
    assert (group + rest)[..5] == group && (group + rest)[5..] == rest;
  }

  lemma FoobarFirstBytes()
    ensures Bits(0x85, 8) == [1, 0, 0, 0, 0, 1, 0, 1] && Bits(0x94, 8) == [1, 0, 0, 1, 0, 1, 0, 0]
    ensures Bits(0x41, 8) == [0, 1, 0, 0, 0, 0, 0, 1] && Bits(0x71, 8) == [0, 1, 1, 1, 0, 0, 0, 1]
  {
    BitsOfByte(1, 0, 0, 0, 0, 1, 0, 1);
    BitsOfByte(1, 0, 0, 1, 0, 1, 0, 0);
    BitsOfByte(0, 1, 0, 0, 0, 0, 0, 1);
    BitsOfByte(0, 1, 1, 1, 0, 0, 0, 1);
  }

  lemma FoobarLastBytes()
    ensures Bits(0xf7, 8) == [1, 1, 1, 1, 0, 1, 1, 1] && Bits(0x39, 8) == [0, 0, 1, 1, 1, 0, 0, 1]
    ensures Bits(0x67, 8) == [0, 1, 1, 0, 0, 1, 1, 1] && Bits(0xe8, 8) == [1, 1, 1, 0, 1, 0, 0, 0]
  {
    BitsOfByte(1, 1, 1, 1, 0, 1, 1, 1);
    BitsOfByte(0, 0, 1, 1, 1, 0, 0, 1);
    BitsOfByte(0, 1, 1, 0, 0, 1, 1, 1);
    BitsOfByte(1, 1, 1, 0, 1, 0, 0, 0);
  }

  /** Four groups at a time. */
  lemma FourGroups(a: seq<Bit>, b: seq<Bit>, c: seq<Bit>, d: seq<Bit>, rest: seq<Bit>)
    requires |a| == |b| == |c| == |d| == 5
    ensures Groups(a + (b + (c + (d + rest)))) == [FromBits(a), FromBits(b), FromBits(c), FromBits(d)] + Groups(rest)
  {
    GroupsCons(a, b + (c + (d + rest)));
    GroupsCons(b, c + (d + rest));
    GroupsCons(c, d + rest);
    GroupsCons(d, rest);
  }

  lemma FoobarFirstFour(rest: seq<Bit>)
    ensures Groups([1, 0, 0, 0, 0] + ([1, 0, 1, 1, 0] + ([0, 1, 0, 1, 0] + ([0, 0, 1, 0, 0] + rest))))
         == [16, 22, 10, 4] + Groups(rest)
  {
    FourGroups([1, 0, 0, 0, 0], [1, 0, 1, 1, 0], [0, 1, 0, 1, 0], [0, 0, 1, 0, 0], rest);
    FromFive(1, 0, 0, 0, 0);
    FromFive(1, 0, 1, 1, 0);
    FromFive(0, 1, 0, 1, 0);
    FromFive(0, 0, 1, 0, 0);
  }

  lemma FoobarNextFour(rest: seq<Bit>)
    ensures Groups([0, 0, 0, 1, 0] + ([1, 1, 1, 0, 0] + ([0, 1, 1, 1, 1] + ([1, 0, 1, 1, 1] + rest))))
         == [2, 28, 15, 23] + Groups(rest)
  {
    FourGroups([0, 0, 0, 1, 0], [1, 1, 1, 0, 0], [0, 1, 1, 1, 1], [1, 0, 1, 1, 1], rest);
    FromFive(0, 0, 0, 1, 0);
    FromFive(1, 1, 1, 0, 0);
    FromFive(0, 1, 1, 1, 1);
    FromFive(1, 0, 1, 1, 1);
  }

  lemma FoobarThirdFour(rest: seq<Bit>)
    ensures Groups([0, 0, 1, 1, 1] + ([0, 0, 1, 0, 1] + ([1, 0, 0, 1, 1] + ([1, 1, 1, 1, 0] + rest))))
         == [7, 5, 19, 30] + Groups(rest)
  {
    FourGroups([0, 0, 1, 1, 1], [0, 0, 1, 0, 1], [1, 0, 0, 1, 1], [1, 1, 1, 1, 0], rest);
    FromFive(0, 0, 1, 1, 1);
    FromFive(0, 0, 1, 0, 1);
    FromFive(1, 0, 0, 1, 1);
    FromFive(1, 1, 1, 1, 0);
  }

  lemma FoobarLastGroup()
    ensures Groups([1, 0, 0, 0]) == [16]
  {
    FromFive(1, 0, 0, 0, 0);
    assert [1, 0, 0, 0] + Zeros(1) == [1, 0, 0, 0, 0];
  }

  lemma Regroup(rest: seq<Bit>)
    ensures [1, 0, 0, 0, 0, 1, 0, 1] + ([1, 0, 0, 1, 0, 1, 0, 0] + ([0, 1, 0, 0, 0, 0, 0, 1]
            + ([0, 1, 1, 1, 0, 0, 0, 1] + ([1, 1, 1, 1, 0, 1, 1, 1] + rest))))
         == [1, 0, 0, 0, 0] + ([1, 0, 1, 1, 0] + ([0, 1, 0, 1, 0] + ([0, 0, 1, 0, 0]
            + ([0, 0, 0, 1, 0] + ([1, 1, 1, 0, 0] + ([0, 1, 1, 1, 1] + ([1, 0, 1, 1, 1] + rest)))))))
  {
  }

  lemma RegroupLast()
    ensures [0, 0, 1, 1, 1, 0, 0, 1] + ([0, 1, 1, 0, 0, 1, 1, 1] + [1, 1, 1, 0, 1, 0, 0, 0])
        == [0, 0, 1, 1, 1] + ([0, 0, 1, 0, 1] + ([1, 0, 0, 1, 1] + ([1, 1, 1, 1, 0] + [1, 0, 0, 0])))
  {
  }

  lemma StreamAt(bytes: seq<Byte>, i: nat)
    requires i < |bytes|
    ensures BitStream(bytes[i..]) == Bits(bytes[i], 8) + BitStream(bytes[i + 1..])
  {
    assert bytes[i..][1..] == bytes[i + 1..];
  }

  lemma StreamOfEight(b: seq<Byte>)
    requires |b| == 8
    ensures BitStream(b) == Bits(b[0], 8) + (Bits(b[1], 8) + (Bits(b[2], 8) + (Bits(b[3], 8) + (Bits(b[4], 8)
         + (Bits(b[5], 8) + (Bits(b[6], 8) + Bits(b[7], 8)))))))
  {
    assert b[0..] == b && b[8..] == [];
    StreamAt(b, 0);
    StreamAt(b, 1);
    StreamAt(b, 2);
    StreamAt(b, 3);
    StreamAt(b, 4);
    StreamAt(b, 5);
    StreamAt(b, 6);
    StreamAt(b, 7);
    assert Bits(b[7], 8) + BitStream(b[8..]) == Bits(b[7], 8);
  }

  /** The eight hash bytes of "foobar". */
  predicate AreFoobarBytes(b: seq<Byte>) {
    && |b| == 8 && b[0] == 0x85 && b[1] == 0x94 && b[2] == 0x41 && b[3] == 0x71
    && b[4] == 0xf7 && b[5] == 0x39 && b[6] == 0x67 && b[7] == 0xe8
  }

  lemma FoobarStream(b: seq<Byte>)
    requires AreFoobarBytes(b)
    ensures BitStream(b)
         == [1, 0, 0, 0, 0, 1, 0, 1] + ([1, 0, 0, 1, 0, 1, 0, 0] + ([0, 1, 0, 0, 0, 0, 0, 1]
            + ([0, 1, 1, 1, 0, 0, 0, 1] + ([1, 1, 1, 1, 0, 1, 1, 1]
            + ([0, 0, 1, 1, 1, 0, 0, 1] + ([0, 1, 1, 0, 0, 1, 1, 1] + [1, 1, 1, 0, 1, 0, 0, 0]))))))
  {
    FoobarFirstBytes();
    FoobarLastBytes();
    StreamOfEight(b);
  }

  /** The last group is filled up with a zero bit. */
  lemma FoobarLastGroups()
    ensures Groups([0, 0, 1, 1, 1] + ([0, 0, 1, 0, 1] + ([1, 0, 0, 1, 1] + ([1, 1, 1, 1, 0] + [1, 0, 0, 0]))))
         == [7, 5, 19, 30, 16]
  {
    FoobarThirdFour([1, 0, 0, 0]);
    FoobarLastGroup();
  }

  lemma FoobarGroups(b: seq<Byte>)
    requires AreFoobarBytes(b)
    ensures Groups(BitStream(b)) == [16, 22, 10, 4, 2, 28, 15, 23, 7, 5, 19, 30, 16]
  {
    FoobarStream(b);
    RegroupLast();
    FoobarLastGroups();
    GroupsOfRest([0, 0, 1, 1, 1] + ([0, 0, 1, 0, 1] + ([1, 0, 0, 1, 1] + ([1, 1, 1, 1, 0] + [1, 0, 0, 0]))));
  }

  lemma GroupsOfRest(rest: seq<Bit>)
    ensures Groups([1, 0, 0, 0, 0, 1, 0, 1] + ([1, 0, 0, 1, 0, 1, 0, 0] + ([0, 1, 0, 0, 0, 0, 0, 1]
              + ([0, 1, 1, 1, 0, 0, 0, 1] + ([1, 1, 1, 1, 0, 1, 1, 1] + rest)))))
         == [16, 22, 10, 4] + ([2, 28, 15, 23] + Groups(rest))
  {
    Regroup(rest);
    FoobarNextFour(rest);
    FoobarFirstFour([0, 0, 0, 1, 0] + ([1, 1, 1, 0, 0] + ([0, 1, 1, 1, 1] + ([1, 0, 1, 1, 1] + rest))));
  }

  lemma BigEndianOneMore(q: nat, b: Byte, n: nat)
    ensures BigEndian(256 * q + b, n + 1) == BigEndian(q, n) + [b]
  {
  }

  lemma BigEndianOfEight(a: Byte, b: Byte, c: Byte, d: Byte, e: Byte, f: Byte, g: Byte, h: Byte) returns (x: nat)
    ensures x == 256 * (256 * (256 * (256 * (256 * (256 * (256 * a + b) + c) + d) + e) + f) + g) + h
    ensures BigEndian(x, 8) == [a, b, c, d, e, f, g, h]
  {
    var x2 := 256 * a + b;
    var x3 := 256 * x2 + c;
    var x4 := 256 * x3 + d;
    var x5 := 256 * x4 + e;
    var x6 := 256 * x5 + f;
    var x7 := 256 * x6 + g;
    x := 256 * x7 + h;
    BigEndianOneMore(0, a, 0);
    BigEndianOneMore(a, b, 1);
    BigEndianOneMore(x2, c, 2);
    BigEndianOneMore(x3, d, 3);
    BigEndianOneMore(x4, e, 4);
    BigEndianOneMore(x5, f, 5);
    BigEndianOneMore(x6, g, 6);
    BigEndianOneMore(x7, h, 7);
  }

  lemma FoobarHashBytes(h: nat)
    requires h == 0x8594_4171_f739_67e8
    ensures AreFoobarBytes(BigEndian(h, 8))
  {
    var x := BigEndianOfEight(0x85, 0x94, 0x41, 0x71, 0xf7, 0x39, 0x67, 0xe8);
    assert x == h;
  }

  lemma FoobarText(bytes: seq<Byte>)
    requires Groups(BitStream(bytes)) == [16, 22, 10, 4, 2, 28, 15, 23, 7, 5, 19, 30, 16]
    ensures ToLower("cf-" + Encode(bytes)) == "cf-qwkec4pxhft6q"
  {
    assert Encode(bytes) == "QWKEC4PXHFT6Q";
  }

  /** As the tests expect: byte order, alphabet, case and prefix included. */
  lemma FoobarName()
    ensures GenerateReplicationGroupName("foobar") == "cf-qwkec4pxhft6q"
  {
    var id: GoString := "foobar";
    FoobarHash();
    FoobarHashBytes(Hash(OFFSET_BASIS, id));
    FoobarGroups(HashBytes(id));
    FoobarText(HashBytes(id));
  }
}
