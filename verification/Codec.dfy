/** Hexadecimal text (section 8 of RFC 4648), as Go's encoding/hex reads and writes it. */
module Hex {
  import opened Prelude
  import opened Text

  function Digit(v: int): char
    requires 0 <= v < 16
  {
    if v < 10 then ('0' as int + v) as char else ('a' as int + v - 10) as char
  }

  function Value(c: char): Option<int> {
    if '0' <= c <= '9' then Some(c as int - '0' as int)
    else if 'a' <= c <= 'f' then Some(c as int - 'a' as int + 10)
    else if 'A' <= c <= 'F' then Some(c as int - 'A' as int + 10)
    else None
  }

  /** `hex.EncodeToString`: two lower-case digits a byte. */
  function Encode(b: Bytes): string {
    if b == [] then "" else [Digit(b[0] / 16), Digit(b[0] % 16)] + Encode(b[1..])
  }

  /** `hex.DecodeString`: either case, even length, digits only. */
  function Decode(s: string): Option<Bytes> {
    if s == "" then Some([])
    else if |s| == 1 then None
    else
      match (Value(s[0]), Value(s[1]), Decode(s[2..]))
      case (Some(hi), Some(lo), Some(rest)) =>
        if 0 <= hi < 16 && 0 <= lo < 16 then Some([16 * hi + lo] + rest) else None
      case _ => None
  }

  lemma ValueOfDigit(c: char)
    ensures match Value(c)
            case Some(v) => 0 <= v < 16 && LowerChar(c) == Digit(v)
            case None => forall v :: 0 <= v < 16 ==> LowerChar(c) != Digit(v)
  {
  }

  /** One byte: two characters decode to it exactly when, lower-cased, they encode it. */
  lemma PairIff(c: char, d: char, x: byte)
    ensures Value(c) == Some(x / 16) && Value(d) == Some(x % 16) <==>
            LowerChar(c) == Digit(x / 16) && LowerChar(d) == Digit(x % 16)
  {
    ValueOfDigit(c);
    ValueOfDigit(d);
  }

  /** Decoding a text of at least two characters takes one byte off the front. */
  lemma DecodeStep(s: string, b: Bytes)
    requires |s| >= 2 && b != []
    ensures Decode(s) == Some(b) <==>
            Value(s[0]) == Some(b[0] / 16) && Value(s[1]) == Some(b[0] % 16) && Decode(s[2..]) == Some(b[1..])
  {
    ValueOfDigit(s[0]);
    ValueOfDigit(s[1]);
    assert b == [b[0]] + b[1..];
    match (Value(s[0]), Value(s[1]), Decode(s[2..])) {
      case (Some(hi), Some(lo), Some(rest)) =>
        var d := [16 * hi + lo] + rest;
        assert d[1..] == rest && (16 * hi + lo) / 16 == hi && (16 * hi + lo) % 16 == lo;
      case _ =>
    }
  }

  lemma EncodeStep(s: string, b: Bytes)
    requires |s| >= 2 && b != []
    ensures Lower(s) == Encode(b) <==>
            LowerChar(s[0]) == Digit(b[0] / 16) && LowerChar(s[1]) == Digit(b[0] % 16) &&
              Lower(s[2..]) == Encode(b[1..])
  {
    hide Digit, LowerChar;
    var t, e := Lower(s), Encode(b);
    assert t[2..] == Lower(s[2..]) && e[2..] == Encode(b[1..]);
    assert t == [t[0], t[1]] + t[2..];
  }

  /** Decoding accepts exactly the texts that are some byte string's encoding up to
      case, and yields that byte string: a round trip and its converse in one. */
  lemma {:induction false} DecodeIff(s: string, b: Bytes)
    ensures Decode(s) == Some(b) <==> Lower(s) == Encode(b)
    decreases |s|
  {
    if |s| >= 2 && b != [] {
      hide Decode, Encode, Digit, LowerChar, Value;
      DecodeStep(s, b);
      EncodeStep(s, b);
      PairIff(s[0], s[1], b[0]);
      DecodeIff(s[2..], b[1..]);
    } else if |s| >= 2 {
      assert Lower(s) != "";
    } else if |s| == 1 {
      assert |Encode(b)| != 1;
    } else {
      assert Lower(s) == "";
    }
  }

  lemma {:induction false} EncodeIsLower(b: Bytes)
    ensures Lower(Encode(b)) == Encode(b)
    ensures |Encode(b)| == 2 * |b|
    ensures ':' !in Encode(b)
  {
    if b != [] {
      EncodeIsLower(b[1..]);
      assert Lower(Encode(b)) == [LowerChar(Encode(b)[0]), LowerChar(Encode(b)[1])] + Lower(Encode(b[1..]));
    }
  }

  /** The digits of section 8 of RFC 4648, in order. */
  lemma Alphabet(v: int)
    requires 0 <= v < 16
    ensures Digit(v) == "0123456789abcdef"[v]
  {
  }
}

/** Base 64 (section 4 of RFC 4648) with the leniency of Go's base64.StdEncoding:
    carriage returns and line feeds are skipped wherever they stand, and the unused
    low bits of a padded final group are not inspected. */
module Base64 {
  import opened Prelude

  function Digit(v: int): char
    requires 0 <= v < 64
  {
    if v < 26 then ('A' as int + v) as char
    else if v < 52 then ('a' as int + v - 26) as char
    else if v < 62 then ('0' as int + v - 52) as char
    else if v == 62 then '+'
    else '/'
  }

  /** The value of an alphabet character, or -1. */
  function Value(c: char): (v: int)
    ensures -1 <= v < 64
  {
    if 'A' <= c <= 'Z' then c as int - 'A' as int
    else if 'a' <= c <= 'z' then c as int - 'a' as int + 26
    else if '0' <= c <= '9' then c as int - '0' as int + 52
    else if c == '+' then 62
    else if c == '/' then 63
    else -1
  }

  predicate IsLineBreak(c: char) {
    c == '\n' || c == '\r'
  }

  function DropLineBreaks(s: string): string {
    if s == "" then "" else (if IsLineBreak(s[0]) then "" else [s[0]]) + DropLineBreaks(s[1..])
  }

  /** `base64.StdEncoding.EncodeToString`. */
  function Encode(b: Bytes): string {
    if |b| == 0 then ""
    else if |b| == 1 then [Digit(b[0] / 4), Digit(b[0] % 4 * 16), '=', '=']
    else if |b| == 2 then
      [Digit(b[0] / 4), Digit(b[0] % 4 * 16 + b[1] / 16), Digit(b[1] % 16 * 4), '=']
    else
      [Digit(b[0] / 4), Digit(b[0] % 4 * 16 + b[1] / 16),
       Digit(b[1] % 16 * 4 + b[2] / 64), Digit(b[2] % 64)] + Encode(b[3..])
  }

  /** Decoding of text free of line breaks, one group of four characters at a time. */
  function DecodeGroups(s: string): Option<Bytes> {
    if s == "" then Some([])
    else if |s| < 4 then None
    else
      var v0, v1, v2, v3 := Value(s[0]), Value(s[1]), Value(s[2]), Value(s[3]);
      if v0 < 0 || v1 < 0 then None
      else
        var b0 := v0 * 4 + v1 / 16;
        if v2 < 0 then
          if s[2..] == "==" then Some([b0]) else None
        else
          var b1 := v1 % 16 * 16 + v2 / 4;
          if v3 < 0 then
            if s[3..] == "=" then Some([b0, b1]) else None
          else
            match DecodeGroups(s[4..])
            case Some(rest) => Some([b0, b1, v2 % 4 * 64 + v3] + rest)
            case None => None
  }

  /** `base64.StdEncoding.DecodeString`. */
  function Decode(s: string): Option<Bytes> {
    DecodeGroups(DropLineBreaks(s))
  }

  lemma ValueOfDigit(v: int)
    requires 0 <= v < 64
    ensures Value(Digit(v)) == v
    ensures !IsLineBreak(Digit(v))
  {
  }

  lemma {:induction false} EncodeHasNoLineBreaks(b: Bytes)
    ensures forall i :: 0 <= i < |Encode(b)| ==> !IsLineBreak(Encode(b)[i])
  {
    if |b| >= 3 {
      EncodeHasNoLineBreaks(b[3..]);
    }
  }

  lemma {:induction false} DropNothing(s: string)
    requires forall i :: 0 <= i < |s| ==> !IsLineBreak(s[i])
    ensures DropLineBreaks(s) == s
  {
    if s != "" {
      DropNothing(s[1..]);
    }
  }

  /** The sextets of three bytes give the three bytes back. */
  lemma RegroupBits(x: byte, y: byte, z: byte)
    ensures x / 4 * 4 + (x % 4 * 16 + y / 16) / 16 == x
    ensures (x % 4 * 16 + y / 16) % 16 * 16 + (y % 16 * 4 + z / 64) / 4 == y
    ensures (y % 16 * 4 + z / 64) % 4 * 64 + z % 64 == z
  {
  }

  lemma ShortGroups(x: byte, y: byte)
    ensures DecodeGroups(Encode([x])) == Some([x])
    ensures DecodeGroups(Encode([x, y])) == Some([x, y])
  {
    ValueOfDigit(x / 4);
    ValueOfDigit(x % 4 * 16);
    ValueOfDigit(x % 4 * 16 + y / 16);
    ValueOfDigit(y % 16 * 4);
    RegroupBits(x, y, 0);
    RegroupBits(x, 0, 0);
    assert Encode([x])[2..] == "==";
    assert Encode([x, y])[3..] == "=";
  }

  /** Decoding four alphabet characters and what follows them. */
  lemma FullGroup(v0: int, v1: int, v2: int, v3: int, tail: string)
    requires 0 <= v0 < 64 && 0 <= v1 < 64 && 0 <= v2 < 64 && 0 <= v3 < 64
    requires DecodeGroups(tail).Some?
    ensures DecodeGroups([Digit(v0), Digit(v1), Digit(v2), Digit(v3)] + tail)
         == Some([v0 * 4 + v1 / 16, v1 % 16 * 16 + v2 / 4, v2 % 4 * 64 + v3] + DecodeGroups(tail).value)
  {
    ValueOfDigit(v0);
    ValueOfDigit(v1);
    ValueOfDigit(v2);
    ValueOfDigit(v3);
    hide Digit, Value;
    var s := [Digit(v0), Digit(v1), Digit(v2), Digit(v3)] + tail;
    assert s[4..] == tail;
  }

  lemma LongGroups(x: byte, y: byte, z: byte, rest: Bytes)
    requires DecodeGroups(Encode(rest)) == Some(rest)
    ensures DecodeGroups(Encode([x, y, z] + rest)) == Some([x, y, z] + rest)
  {
    hide DecodeGroups, Digit;
    var b := [x, y, z] + rest;
    assert b[3..] == rest;
    FullGroup(x / 4, x % 4 * 16 + y / 16, y % 16 * 4 + z / 64, z % 64, Encode(rest));
    RegroupBits(x, y, z);
  }

  lemma {:induction false} GroupsRoundTrip(b: Bytes)
    ensures DecodeGroups(Encode(b)) == Some(b)
  {
    hide DecodeGroups, Encode;
    if |b| == 0 {
      NoGroups();
      assert b == [];
    } else if |b| == 1 {
      ShortGroups(b[0], 0);
      assert b == [b[0]];
    } else if |b| == 2 {
      ShortGroups(b[0], b[1]);
      assert b == [b[0], b[1]];
    } else {
      GroupsRoundTrip(b[3..]);
      LongGroups(b[0], b[1], b[2], b[3..]);
      assert b == [b[0], b[1], b[2]] + b[3..];
    }
  }

  lemma NoGroups()
    ensures DecodeGroups(Encode([])) == Some([])
  {
  }

  lemma RoundTrip(b: Bytes)
    ensures Decode(Encode(b)) == Some(b)
  {
    EncodeHasNoLineBreaks(b);
    DropNothing(Encode(b));
    GroupsRoundTrip(b);
  }

  lemma EncodeEmptyIff(b: Bytes)
    ensures Encode(b) == "" <==> b == []
  {
  }

  /** Only text made of line breaks alone decodes to no bytes at all. */
  lemma {:induction false} DecodesToNothingIff(s: string)
    ensures Decode(s) == Some([]) <==> forall i :: 0 <= i < |s| ==> IsLineBreak(s[i])
  {
    DroppedAllIff(s);
  }

  lemma {:induction false} DroppedAllIff(s: string)
    ensures DropLineBreaks(s) == "" <==> forall i :: 0 <= i < |s| ==> IsLineBreak(s[i])
  {
    if s != "" {
      DroppedAllIff(s[1..]);
      if forall i :: 0 <= i < |s[1..]| ==> IsLineBreak(s[1..][i]) {
        assert forall i :: 1 <= i < |s| ==> s[i] == s[1..][i - 1];
      }
    }
  }

  /** Alphabet characters in groups of four, the last group closed by at most two '='. */
  ghost predicate Padded(s: string, padding: nat) {
    && |s| % 4 == 0 && padding <= 2 && padding <= |s|
    && (forall i :: 0 <= i < |s| - padding ==> Value(s[i]) >= 0)
    && (forall i :: |s| - padding <= i < |s| ==> s[i] == '=')
  }

  lemma {:induction false} PaddedDecodes(s: string, padding: nat)
    requires Padded(s, padding)
    ensures DecodeGroups(s).Some?
  {
    if |s| > 4 {
      PaddedDecodes(s[4..], padding);
    } else if |s| == 4 {
      assert s[4..] == "";
      assert padding == 1 ==> s[3..] == "=";
      assert padding == 2 ==> s[2..] == "==";
    }
  }

  lemma {:induction false} DecodedIsPadded(s: string) returns (padding: nat)
    requires DecodeGroups(s).Some?
    ensures Padded(s, padding)
  {
    padding := 0;
    if s != "" {
      if Value(s[2]) < 0 {
        padding := 2;
        assert |s| == 4 && s[2] == s[2..][0] && s[3] == s[2..][1];
      } else if Value(s[3]) < 0 {
        padding := 1;
        assert |s| == 4 && s[3] == s[3..][0];
      } else {
        padding := DecodedIsPadded(s[4..]);
        assert forall i :: 4 <= i < |s| ==> s[i] == s[4..][i - 4];
      }
    }
  }

  ghost predicate IsPadded(s: string) {
    exists padding: nat :: Padded(s, padding)
  }

  lemma GroupsDecodeIff(s: string)
    ensures DecodeGroups(s).Some? <==> IsPadded(s)
  {
    if DecodeGroups(s).Some? {
      var padding := DecodedIsPadded(s);
    }
    if IsPadded(s) {
      var padding: nat :| Padded(s, padding);
      PaddedDecodes(s, padding);
    }
  }

  /** Exactly the padded texts decode, line breaks aside. */
  lemma DecodesIff(s: string)
    ensures Decode(s).Some? <==> IsPadded(DropLineBreaks(s))
  {
    hide IsPadded, DecodeGroups;
    GroupsDecodeIff(DropLineBreaks(s));
  }

  /** Test vectors of section 10 of RFC 4648: "f", "fo", "foo" and "foob". */
  lemma TestVectors()
    ensures Encode([102]) == "Zg==" && Encode([102, 111]) == "Zm8="
    ensures Encode([102, 111, 111]) == "Zm9v" && Encode([102, 111, 111, 98]) == "Zm9vYg=="
  {
    assert [102, 111, 111][3..] == [];
    assert [102, 111, 111, 98][3..] == [98];
  }
}
