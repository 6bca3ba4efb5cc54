/**
 * Lowercase base16, the encoding of section 8 of RFC 4648 with the alphabet
 * "0123456789abcdef" (the `HEXLOWER` codec): two digits per byte, high
 * nibble first, and no upper-case digit accepted when decoding.
 */
module Base16 {
  import opened Wrappers
  import opened Numbers

  const Alphabet: string := "0123456789abcdef"

  predicate IsHexDigit(c: char) {
    '0' <= c <= '9' || 'a' <= c <= 'f'
  }

  /** The alphabet of section 8 of RFC 4648, in lower case, is exactly the hex digits. */
  lemma AlphabetIsHexDigits(c: char)
    ensures c in Alphabet <==> IsHexDigit(c)
  {
    if IsHexDigit(c) {
      var d := if c <= '9' then c as int - '0' as int else c as int - 'a' as int + 10;
      assert Alphabet[d] == c;
    }
  }

  function HexChar(d: nat): (c: char)
    requires d < 16
    ensures IsHexDigit(c)
  {
    if d < 10 then ('0' as int + d) as char else ('a' as int + d - 10) as char
  }

  /** The value of one lowercase hex digit, `None` for any other character. */
  function HexValue(c: char): (r: Option<nat>)
    ensures r.Some? <==> IsHexDigit(c)
    ensures r.Some? ==> r.value < 16 && HexChar(r.value) == c
  {
    if '0' <= c <= '9' then Some(c as int - '0' as int)
    else if 'a' <= c <= 'f' then Some(c as int - 'a' as int + 10)
    else None
  }

  lemma HexValueOfChar(d: nat)
    requires d < 16
    ensures HexValue(HexChar(d)) == Some(d)
  {
  }

  function HexLowerEncode(bs: seq<byte>): (s: string)
    ensures |s| == 2 * |bs|
  {
    if bs == [] then []
    else [HexChar(bs[0] / 16), HexChar(bs[0] % 16)] + HexLowerEncode(bs[1..])
  }

  /** `HEXLOWER.decode`: `None` for an odd length or a character outside the alphabet. */
  function HexLowerDecode(s: string): (r: Option<seq<byte>>)
    ensures r.Some? ==> 2 * |r.value| == |s|
  {
    if s == [] then Some([])
    else if |s| == 1 then None
    else
      match (HexValue(s[0]), HexValue(s[1]), HexLowerDecode(s[2..]))
      case (Some(hi), Some(lo), Some(rest)) => Some([(hi * 16 + lo) as byte] + rest)
      case _ => None
  }

  /** Decoding what was encoded gives the bytes back. */
  lemma {:induction false} DecodeEncode(bs: seq<byte>)
    ensures HexLowerDecode(HexLowerEncode(bs)) == Some(bs)
  {
    if bs != [] {
      var s := HexLowerEncode(bs);
      assert s[2..] == HexLowerEncode(bs[1..]);
      DecodeEncode(bs[1..]);
      HexValueOfChar(bs[0] / 16);
      HexValueOfChar(bs[0] % 16);
      assert s[0] == HexChar(bs[0] / 16) && s[1] == HexChar(bs[0] % 16);
      assert ((bs[0] / 16) * 16 + bs[0] % 16) as byte == bs[0];
      assert [bs[0]] + bs[1..] == bs;
    }
  }

  /** Whatever decodes is the encoding of its result: the text is canonical. */
  lemma {:induction false} EncodeDecode(s: string)
    requires HexLowerDecode(s).Some?
    ensures HexLowerEncode(HexLowerDecode(s).value) == s
  {
    if s != [] {
      EncodeDecode(s[2..]);
      var hi, lo := HexValue(s[0]).value, HexValue(s[1]).value;
      var b := (hi * 16 + lo) as byte;
      assert b / 16 == hi && b % 16 == lo;
      assert HexLowerDecode(s).value == [b] + HexLowerDecode(s[2..]).value;
    }
  }

  /** Decoding fails exactly on an odd length or a character outside the alphabet. */
  lemma {:induction false} DecodeFails(s: string)
    ensures HexLowerDecode(s).None? <==> |s| % 2 == 1 || exists i :: 0 <= i < |s| && !IsHexDigit(s[i])
  {
    if |s| >= 2 {
      DecodeFails(s[2..]);
      if exists i :: 0 <= i < |s| - 2 && !IsHexDigit(s[2..][i]) {
        var i :| 0 <= i < |s| - 2 && !IsHexDigit(s[2..][i]);
        assert !IsHexDigit(s[i + 2]);
      }
      if exists i :: 0 <= i < |s| && !IsHexDigit(s[i]) {
        var i :| 0 <= i < |s| && !IsHexDigit(s[i]);
        if i >= 2 { assert !IsHexDigit(s[2..][i - 2]); }
      }
    }
  }
}
