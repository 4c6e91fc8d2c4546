/** RandomAlphaNum: a password drawn character by character from a random source. */
module Token {
  import opened GoTypes

  /** The random source. `drawn` records every index it has handed out. */
  class RandReader {
    ghost var drawn: seq<nat>

    constructor ()
      ensures drawn == []
    {
      drawn := [];
    }

    method Int(max: nat) returns (i: nat)
      requires max > 0
      modifies this
      ensures i < max && drawn == old(drawn) + [i]
    {
      i :| 0 <= i < max;
      drawn := drawn + [i];
    }
  }

  const PASSWORD_LENGTH: nat := 32

  /** The upper-case letters, then the lower-case ones. */
  function Alpha(): (chars: GoString)
    ensures |chars| == 52
  {
    seq(52, i requires 0 <= i < 52 => if i < 26 then 'A' + i as char else 'a' + (i - 26) as char)
  }

  function Numer(): (chars: GoString)
    ensures |chars| == 10
  {
    seq(10, i requires 0 <= i < 10 => '0' + i as char)
  }

  lemma Letters(i: nat)
    requires i < 26
    ensures ('A' + i as char) == "ABCDEFGHIJKLMNOPQRSTUVWXYZ"[i] && ('a' + i as char) == "abcdefghijklmnopqrstuvwxyz"[i]
  {
  }

  lemma Digits(i: nat)
    requires i < 10
    ensures ('0' + i as char) == "0123456789"[i]
  {
  }

  lemma IsConcat(all: string, first: string, last: string)
    requires |all| == |first| + |last|
    requires forall i :: 0 <= i < |first| ==> all[i] == first[i]
    requires forall i :: 0 <= i < |last| ==> all[|first| + i] == last[i]
    ensures all == first + last
  {
    assert forall i :: |first| <= i < |all| ==> all[i] == last[i - |first|] by {
      assert forall i :: |first| <= i < |all| ==> all[|first| + (i - |first|)] == all[i];
    }
  }

  lemma AlphaIsLetters()
    ensures Alpha() == "ABCDEFGHIJKLMNOPQRSTUVWXYZ" + "abcdefghijklmnopqrstuvwxyz"
  {
    forall i | 0 <= i < 26
      ensures Alpha()[i] == "ABCDEFGHIJKLMNOPQRSTUVWXYZ"[i] && Alpha()[26 + i] == "abcdefghijklmnopqrstuvwxyz"[i]
    {
      Letters(i);
    }
    IsConcat(Alpha(), "ABCDEFGHIJKLMNOPQRSTUVWXYZ", "abcdefghijklmnopqrstuvwxyz");
  }

  lemma NumerIsDigits()
    ensures Numer() == "0123456789"
  {
    forall i | 0 <= i < 10 ensures Numer()[i] == "0123456789"[i] {
      Digits(i);
    }
  }

  function Pick(chars: GoString, indices: seq<nat>): (s: GoString)
    requires forall k :: 0 <= k < |indices| ==> indices[k] < |chars|
    ensures |s| == |indices|
    ensures forall k :: 0 <= k < |s| ==> s[k] == chars[indices[k]]
  {
    seq(|indices|, k requires 0 <= k < |indices| => chars[indices[k]])
  }

  method RandChar(length: nat, chars: GoString, random: RandReader) returns (password: GoString)
    requires |chars| > 0
    modifies random
    ensures |random.drawn| == |old(random.drawn)| + length
    ensures old(random.drawn) <= random.drawn
    ensures forall k :: |old(random.drawn)| <= k < |random.drawn| ==> random.drawn[k] < |chars|
    ensures password == Pick(chars, random.drawn[|old(random.drawn)|..])
  {
    var bytes := new GoByte[length];
    ghost var before := random.drawn;
    for i := 0 to length
      invariant before <= random.drawn && |random.drawn| == |before| + i
      invariant forall k :: |before| <= k < |random.drawn| ==> random.drawn[k] < |chars|
      invariant bytes[..i] == Pick(chars, random.drawn[|before|..])
    {
      var index := random.Int(|chars|);
      bytes[i] := chars[index];
    }
    password := bytes[..];
  }

  /** What a choice of indices stands for: a letter, then letters and digits. */
  ghost predicate Choice(indices: seq<nat>) {
    && 0 < |indices|
    && indices[0] < |Alpha()|
    && forall k :: 1 <= k < |indices| ==> indices[k] < |Alpha() + Numer()|
  }

  function TokenOf(indices: seq<nat>): GoString
    requires Choice(indices)
  {
    Pick(Alpha(), indices[..1]) + Pick(Alpha() + Numer(), indices[1..])
  }

  method RandomAlphaNum(length: nat, random: RandReader) returns (password: GoString)
    requires length > 0
    modifies random
    ensures |random.drawn| == |old(random.drawn)| + length && old(random.drawn) <= random.drawn
    ensures Choice(random.drawn[|old(random.drawn)|..])
    ensures password == TokenOf(random.drawn[|old(random.drawn)|..])
    // written out: each drawn index picks a letter, or from the second one on a letter or digit
    ensures |password| == length
    ensures forall k :: 0 <= k < length ==>
      var letters := "ABCDEFGHIJKLMNOPQRSTUVWXYZ" + "abcdefghijklmnopqrstuvwxyz";
      var index := random.drawn[|old(random.drawn)| + k];
      && index < (if k == 0 then 52 else 62)
      && password[k] == (if k == 0 then letters else letters + "0123456789")[index]
  {
    ghost var before := random.drawn;
    var first := RandChar(1, Alpha(), random);
    ghost var middle := random.drawn;
    var rest := RandChar(length - 1, Alpha() + Numer(), random);
    password := first + rest;
    ghost var indices := random.drawn[|before|..];
    assert indices[..1] == middle[|before|..];
    assert indices[1..] == random.drawn[|middle|..];
    AlphaIsLetters();
    NumerIsDigits();
  }

  predicate IsLetter(c: char) { 'A' <= c <= 'Z' || 'a' <= c <= 'z' }

  predicate IsAlphaNum(c: char) { IsLetter(c) || '0' <= c <= '9' }

  lemma AlphabetAt(i: nat)
    requires i < 62
    ensures |Alpha()| == 52 && |Alpha() + Numer()| == 62
    ensures (Alpha() + Numer())[i] as int ==
            if i < 26 then 65 + i else if i < 52 then 71 + i else i - 4
  {
    assert i < 52 ==> (Alpha() + Numer())[i] == Alpha()[i];
    assert i >= 52 ==> (Alpha() + Numer())[i] == Numer()[i - 52];
  }

  /** A token has the requested length, starts with a letter and is alphanumeric throughout. */
  lemma TokenShape(indices: seq<nat>)
    requires Choice(indices)
    ensures |TokenOf(indices)| == |indices|
    ensures IsLetter(TokenOf(indices)[0])
    ensures forall k :: 0 <= k < |indices| ==> IsAlphaNum(TokenOf(indices)[k])
  {
    var token := TokenOf(indices);
    AlphabetAt(0);
    forall k | 0 <= k < |indices|
      ensures token[k] == (Alpha() + Numer())[indices[k]]
      ensures IsAlphaNum(token[k]) && (k == 0 ==> IsLetter(token[k]))
    {
      AlphabetAt(indices[k]);
    }
  }

  /** Different draws give different tokens. */
  lemma TokensAreDistinct(a: seq<nat>, b: seq<nat>)
    requires Choice(a) && Choice(b)
    ensures TokenOf(a) == TokenOf(b) <==> a == b
  {
    if TokenOf(a) == TokenOf(b) {
      TokenShape(a);
      TokenShape(b);
      AlphabetAt(0);
      forall k | 0 <= k < |a| ensures a[k] == b[k] {
        AlphabetAt(a[k]);
        AlphabetAt(b[k]);
        assert TokenOf(a)[k] == (Alpha() + Numer())[a[k]];
        assert TokenOf(b)[k] == (Alpha() + Numer())[b[k]];
      }
    }
  }
}
