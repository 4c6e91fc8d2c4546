/** GenerateReplicationGroupName: 64-bit FNV-1a, written big-endian, in unpadded base32, lower-cased. */
module Fnv {
  import opened GoTypes
  import opened Positional

  const WORD: nat := 0x1_0000_0000_0000_0000
  const OFFSET_BASIS: nat := 0xcbf2_9ce4_8422_2325
  const PRIME: nat := 0x100_0000_01b3
  const PRIME_INVERSE: nat := 14886173955864302971

  type Word = h: nat | h < WORD

  /** Exclusive or of the low `bits` bits. */
  function Xor(a: nat, b: nat, bits: nat): nat {
    if bits == 0 then 0
    else 2 * Xor(a / 2, b / 2, bits - 1) + (if a % 2 == b % 2 then 0 else 1)
  }

  lemma {:induction false} XorInvolutive(a: nat, b: nat, bits: nat)
    requires a < Pow(2, bits)
    ensures Xor(a, b, bits) < Pow(2, bits)
    ensures Xor(Xor(a, b, bits), b, bits) == a
  {
    if bits > 0 {
      XorInvolutive(a / 2, b / 2, bits - 1);
    }
  }

  lemma PowersOfTwo()
    ensures Pow(2, 5) == 32 && Pow(2, 8) == 256
  {
  }

  function XorLow(a: nat, b: nat): (r: nat)
    requires a < 256 && b < 256
    ensures r < 256
  {
    PowersOfTwo();
    XorInvolutive(a, b, 8);
    Xor(a, b, 8)
  }

  lemma XorLowInvolutive(a: nat, b: nat)
    requires a < 256 && b < 256
    ensures XorLow(XorLow(a, b), b) == a
  {
    PowersOfTwo();
    XorInvolutive(a, b, 8);
  }

  /** A byte only meets the low byte of the state. */
  function XorByte(h: Word, b: GoByte): (r: Word) {
    h / 256 * 256 + XorLow(h % 256, b as int)
  }

  function Step(h: Word, b: GoByte): Word {
    XorByte(h, b) * PRIME % WORD
  }

  /** What undoes a step: multiply by the inverse of the prime, then xor again. */
  function Unstep(h: Word, b: GoByte): Word {
    XorByte(h * PRIME_INVERSE % WORD, b)
  }

  function Hash(h: Word, data: GoString): Word
    decreases |data|
  {
    if data == [] then h else Hash(Step(h, data[0]), data[1..])
  }

  lemma XorByteInvolutive(h: Word, b: GoByte)
    ensures XorByte(XorByte(h, b), b) == h
  {
    var low := XorLow(h % 256, b as int);
    XorLowInvolutive(h % 256, b as int);
    assert XorByte(h, b) / 256 == h / 256 && XorByte(h, b) % 256 == low;
  }

  lemma ScaleBack(x: Word, p: nat, inverse: nat, k: nat)
    requires p * inverse == 1 + k * WORD
    ensures (x * p % WORD) * inverse % WORD == x
  {
    var q, r := x * p / WORD, x * p % WORD;
    assert r == x * p - q * WORD;
    calc {
      r * inverse;
      (x * p) * inverse - (q * WORD) * inverse;
      x * (p * inverse) - (q * inverse) * WORD;
      x + (x * k - q * inverse) * WORD;
    }
    var z := x * k - q * inverse;
    assert r * inverse == z * WORD + x;
  }

  lemma StepIsBijective(h: Word, b: GoByte)
    ensures Unstep(Step(h, b), b) == h
    ensures Step(Unstep(h, b), b) == h
  {
    ScaleBack(XorByte(h, b), PRIME, PRIME_INVERSE, 887285111055);
    XorByteInvolutive(h, b);
    ScaleBack(h, PRIME_INVERSE, PRIME, 887285111055);
    XorByteInvolutive(h * PRIME_INVERSE % WORD, b);
  }

  /** From one state, different bytes lead to different states. */
  lemma StepSeparatesBytes(h: Word, a: GoByte, b: GoByte)
    ensures Step(h, a) == Step(h, b) <==> a == b
  {
    if Step(h, a) == Step(h, b) {
      ScaleBack(XorByte(h, a), PRIME, PRIME_INVERSE, 887285111055);
      ScaleBack(XorByte(h, b), PRIME, PRIME_INVERSE, 887285111055);
      PowersOfTwo();
      XorSeparates(h % 256, a as int, b as int, 8);
    }
  }

  lemma {:induction false} XorSeparates(h: nat, a: nat, b: nat, bits: nat)
    requires a < Pow(2, bits) && b < Pow(2, bits)
    requires Xor(h, a, bits) == Xor(h, b, bits)
    ensures a == b
  {
    if bits > 0 {
      XorSeparates(h / 2, a / 2, b / 2, bits - 1);
    }
  }

  /** Appending the same bytes to two states keeps equality and inequality. */
  lemma {:induction false} SuffixKeepsDifference(g: Word, h: Word, suffix: GoString)
    ensures Hash(g, suffix) == Hash(h, suffix) <==> g == h
    decreases |suffix|
  {
    if suffix != [] {
      StepIsBijective(g, suffix[0]);
      StepIsBijective(h, suffix[0]);
      SuffixKeepsDifference(Step(g, suffix[0]), Step(h, suffix[0]), suffix[1..]);
    }
  }

  lemma {:induction false} HashOfConcat(h: Word, a: GoString, b: GoString)
    ensures Hash(h, a + b) == Hash(Hash(h, a), b)
    decreases |a|
  {
    if a == [] {
      assert a + b == b;
    } else {
      assert (a + b)[1..] == a[1..] + b;
      HashOfConcat(Step(h, a[0]), a[1..], b);
    }
  }
}

module Base32 {
  import opened GoTypes
  import opened Positional

  function BitStream(bytes: seq<Byte>): (bits: seq<nat>)
    ensures |bits| == 8 * |bytes|
    ensures forall i :: 0 <= i < |bits| ==> bits[i] < 2
  {
    if bytes == [] then [] else Bits(bytes[0], 8) + BitStream(bytes[1..])
  }

  function Zeros(n: nat): seq<nat> {
    seq(n, i => 0)
  }

  /** Five bits at a time; zero bits complete the last group. */
  function Groups(bits: seq<nat>): (gs: seq<nat>)
    requires forall i :: 0 <= i < |bits| ==> bits[i] < 2
    ensures |gs| == (|bits| + 4) / 5
    ensures forall i :: 0 <= i < |gs| ==> gs[i] < 32
  {
    if bits == [] then []
    else if |bits| < 5 then
      var group := bits + Zeros(5 - |bits|);
      BitsOfFromBits(group);
      assert Pow(2, 5) == 32;
      [FromBits(group)]
    else
      BitsOfFromBits(bits[..5]);
      assert Pow(2, 5) == 32;
      [FromBits(bits[..5])] + Groups(bits[5..])
  }

  /** The alphabet of section 6 of RFC 4648. */
  function Symbol(g: nat): GoByte
    requires g < 32
  {
    if g < 26 then 'A' + g as char else '2' + (g - 26) as char
  }

  lemma SymbolsAreTheAlphabet(g: nat)
    requires g < 32
    ensures Symbol(g) == "ABCDEFGHIJKLMNOPQRSTUVWXYZ234567"[g]
  {
  }

  function Encode(bytes: seq<Byte>): (text: GoString)
    ensures |text| == (8 * |bytes| + 4) / 5
  {
    var gs := Groups(BitStream(bytes));
    seq(|gs|, i requires 0 <= i < |gs| => Symbol(gs[i]))
  }

  // ---- decoding of the lower-cased text ----

  predicate IsLowerSymbol(c: char) {
    'a' <= c <= 'z' || '2' <= c <= '7'
  }

  function Unsymbol(c: char): (g: nat)
    requires IsLowerSymbol(c)
    ensures g < 32
  {
    if 'a' <= c then (c - 'a') as nat else (c - '2') as nat + 26
  }

  function Ungroup(text: string): seq<nat>
    requires forall i :: 0 <= i < |text| ==> IsLowerSymbol(text[i])
  {
    if text == [] then [] else Bits(Unsymbol(text[0]), 5) + Ungroup(text[1..])
  }

  function Bytes(bits: seq<nat>): seq<nat> {
    if |bits| < 8 then [] else [FromBits(bits[..8])] + Bytes(bits[8..])
  }

  function Decode(text: string): seq<nat>
    requires forall i :: 0 <= i < |text| ==> IsLowerSymbol(text[i])
  {
    Bytes(Ungroup(text))
  }

  lemma {:induction false} BytesOfBits(bytes: seq<Byte>, pad: seq<nat>)
    requires |pad| < 8
    ensures Bytes(BitStream(bytes) + pad) == bytes
  {
    if bytes == [] {
      assert BitStream(bytes) + pad == pad;
    } else {
      var first := Bits(bytes[0], 8);
      var bits := BitStream(bytes) + pad;
      assert bits[..8] == first;
      assert bits[8..] == BitStream(bytes[1..]) + pad;
      assert Pow(2, 8) == 256;
      FromBitsOfBits(bytes[0], 8);
      BytesOfBits(bytes[1..], pad);
    }
  }

  lemma {:induction false} UngroupOfGroups(bits: seq<nat>, text: string)
    requires forall i :: 0 <= i < |bits| ==> bits[i] < 2
    requires |text| == |Groups(bits)|
    requires forall i :: 0 <= i < |text| ==> IsLowerSymbol(text[i]) && Unsymbol(text[i]) == Groups(bits)[i]
    ensures |Ungroup(text)| == 5 * |text|
    ensures bits <= Ungroup(text)
    decreases |bits|
  {
    if bits == [] {
    } else if |bits| < 5 {
      var group := bits + Zeros(5 - |bits|);
      BitsOfFromBits(group);
      assert text[1..] == [];
      assert Ungroup(text) == group;
    } else {
      BitsOfFromBits(bits[..5]);
      assert Groups(bits)[1..] == Groups(bits[5..]);
      UngroupOfGroups(bits[5..], text[1..]);
      assert bits == bits[..5] + bits[5..];
    }
  }
}

module Naming {
  import opened GoTypes
  import opened Positional
  import opened Fnv
  import Base32

  function LowerByte(c: GoByte): GoByte {
    if 'A' <= c <= 'Z' then 'a' + (c - 'A') else c
  }

  function ToLower(s: GoString): GoString {
    seq(|s|, i requires 0 <= i < |s| => LowerByte(s[i]))
  }

  /** The hash state as hash.Sum appends it: eight bytes, most significant first. */
  function HashBytes(instanceID: GoString): (bytes: seq<Byte>)
    ensures |bytes| == 8
  {
    BigEndian(Hash(OFFSET_BASIS, instanceID), 8)
  }

  function GenerateReplicationGroupName(instanceID: GoString): GoString {
    ToLower("cf-" + Base32.Encode(HashBytes(instanceID)))
  }

  /** The rule ElastiCache states for names, as the source quotes it. */
  predicate LegalElastiCacheName(name: string) {
    && 1 <= |name| <= 20
    && ('a' <= name[0] <= 'z' || 'A' <= name[0] <= 'Z')
    && (forall i :: 0 <= i < |name| ==>
          'a' <= name[i] <= 'z' || 'A' <= name[i] <= 'Z' || '0' <= name[i] <= '9' || name[i] == '-')
    && name[|name| - 1] != '-'
    && (forall i :: 0 < i < |name| ==> !(name[i - 1] == '-' && name[i] == '-'))
  }

  lemma NameShape(id: GoString)
    ensures var name := GenerateReplicationGroupName(id);
      && |name| == 16 && name[..3] == "cf-"
      && (forall i :: 3 <= i < 16 ==> Base32.IsLowerSymbol(name[i]))
      && (forall i :: 3 <= i < 16 ==>
            Base32.Unsymbol(name[i]) == Base32.Groups(Base32.BitStream(HashBytes(id)))[i - 3])
  {
    var gs := Base32.Groups(Base32.BitStream(HashBytes(id)));
    var name := GenerateReplicationGroupName(id);
    assert |gs| == 13;
    forall i | 3 <= i < 16
      ensures Base32.IsLowerSymbol(name[i]) && Base32.Unsymbol(name[i]) == gs[i - 3]
    {
      assert name[i] == LowerByte(Base32.Symbol(gs[i - 3]));
    }
  }

  /** Every instance id, of any length, gets a legal name. */
  lemma EveryNameIsLegal(id: GoString)
    ensures var name := GenerateReplicationGroupName(id);
      && |name| == 16 && name[..3] == "cf-"
      && (forall i :: 3 <= i < 16 ==> 'a' <= name[i] <= 'z' || '2' <= name[i] <= '7')
      && LegalElastiCacheName(name)
  {
    NameShape(id);
    var name := GenerateReplicationGroupName(id);
    assert name[0] == name[..3][0] && name[1] == name[..3][1] && name[2] == name[..3][2];
  }

  /** Decoding the thirteen characters gives back the eight hash bytes. */
  lemma NameDecodesToHash(id: GoString)
    ensures var name := GenerateReplicationGroupName(id);
      && |name| == 16
      && (forall i :: 0 <= i < 13 ==> Base32.IsLowerSymbol(name[3..][i]))
      && Base32.Decode(name[3..]) == HashBytes(id)
  {
    NameShape(id);
    var bits := Base32.BitStream(HashBytes(id));
    var text := GenerateReplicationGroupName(id)[3..];
    Base32.UngroupOfGroups(bits, text);
    var all := Base32.Ungroup(text);
    assert all == bits + all[64..];
    Base32.BytesOfBits(HashBytes(id), all[64..]);
  }

  /** Names collide exactly when hashes do. */
  lemma NamesCollideWithHashes(a: GoString, b: GoString)
    ensures GenerateReplicationGroupName(a) == GenerateReplicationGroupName(b)
       <==> Hash(OFFSET_BASIS, a) == Hash(OFFSET_BASIS, b)
  {
    if GenerateReplicationGroupName(a) == GenerateReplicationGroupName(b) {
      NameDecodesToHash(a);
      NameDecodesToHash(b);
      assert Pow(256, 8) == WORD;
      FromBigEndianOfBigEndian(Hash(OFFSET_BASIS, a), 8);
      FromBigEndianOfBigEndian(Hash(OFFSET_BASIS, b), 8);
    }
  }

  /** Appending one suffix to two ids neither makes nor removes a collision. */
  lemma SuffixKeepsCollisions(a: GoString, b: GoString, suffix: GoString)
    ensures GenerateReplicationGroupName(a + suffix) == GenerateReplicationGroupName(b + suffix)
       <==> GenerateReplicationGroupName(a) == GenerateReplicationGroupName(b)
  {
    NamesCollideWithHashes(a + suffix, b + suffix);
    NamesCollideWithHashes(a, b);
    HashOfConcat(OFFSET_BASIS, a, suffix);
    HashOfConcat(OFFSET_BASIS, b, suffix);
    SuffixKeepsDifference(Hash(OFFSET_BASIS, a), Hash(OFFSET_BASIS, b), suffix);
  }

  /** Two ids that differ in exactly one byte never share a name. */
  lemma OneByteApart(a: GoString, b: GoString, i: nat)
    requires |a| == |b| && i < |a| && a[i] != b[i]
    requires a[..i] == b[..i] && a[i + 1..] == b[i + 1..]
    ensures GenerateReplicationGroupName(a) != GenerateReplicationGroupName(b)
  {
    var h := Hash(OFFSET_BASIS, a[..i]);
    StepSeparatesBytes(h, a[i], b[i]);
    SuffixKeepsDifference(Step(h, a[i]), Step(h, b[i]), a[i + 1..]);
    HashAround(a, i);
    HashAround(b, i);
    NamesCollideWithHashes(a, b);
  }

  lemma HashAround(a: GoString, i: nat)
    requires i < |a|
    ensures Hash(OFFSET_BASIS, a) == Hash(Step(Hash(OFFSET_BASIS, a[..i]), a[i]), a[i + 1..])
  {
    assert a == a[..i] + a[i..];
    HashOfConcat(OFFSET_BASIS, a[..i], a[i..]);
    assert a[i..][1..] == a[i + 1..];
  }
}
