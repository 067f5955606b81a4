/**
 * Character-level helpers: the UTF-8 encoding of a Rust `str` (so that
 * `len()` and `bytes()` can be stated exactly), ASCII classification, ASCII
 * lower-casing and decimal rendering of naturals.
 */
module Text {

  /** A byte of a UTF-8 encoded string. */
  type Byte = b: int | 0 <= b < 256

  /** The UTF-8 encoding of one Unicode scalar value (RFC 3629, section 3). */
  function EncodeChar(c: char): (bytes: seq<Byte>)
    ensures 1 <= |bytes| <= 4
    ensures (c as int < 0x80) <==> |bytes| == 1
    ensures |bytes| == 1 ==> bytes[0] == c as int
    ensures c as int >= 0x80 ==> forall i :: 0 <= i < |bytes| ==> bytes[i] >= 0x80
  {
    var n := c as int;
    if n < 0x80 then [n]
    else if n < 0x800 then [0xC0 + n / 64, 0x80 + n % 64]
    else if n < 0x1_0000 then [0xE0 + n / 4096, 0x80 + (n / 64) % 64, 0x80 + n % 64]
    else [0xF0 + n / 262144, 0x80 + (n / 4096) % 64, 0x80 + (n / 64) % 64, 0x80 + n % 64]
  }

  /** The bytes of `s` as Rust stores them: `s.bytes()`. */
  function Utf8(s: string): seq<Byte>
  {
    if s == [] then [] else EncodeChar(s[0]) + Utf8(s[1..])
  }

  /** Rust's `str::len`: the number of bytes, not of characters. */
  function ByteLen(s: string): nat
  {
    |Utf8(s)|
  }

  predicate IsAscii(c: char)
  {
    c as int < 0x80
  }

  predicate IsAsciiAlphanumeric(c: char)
  {
    ('a' <= c <= 'z') || ('A' <= c <= 'Z') || ('0' <= c <= '9')
  }

  /** The byte test of `Identifier::from_str`: ASCII alphanumeric, `_` or `-`. */
  predicate IsIdentifierByte(b: Byte)
  {
    (0x61 <= b <= 0x7A) || (0x41 <= b <= 0x5A) || (0x30 <= b <= 0x39) || b == 0x5F || b == 0x2D
  }

  /** The same test stated on characters. */
  predicate IsIdentifierChar(c: char)
  {
    IsAsciiAlphanumeric(c) || c == '_' || c == '-'
  }

  predicate AllIdentifierBytes(bs: seq<Byte>)
  {
    forall i :: 0 <= i < |bs| ==> IsIdentifierByte(bs[i])
  }

  predicate AllIdentifierChars(s: string)
  {
    forall i :: 0 <= i < |s| ==> IsIdentifierChar(s[i])
  }

  predicate AllAscii(s: string)
  {
    forall i :: 0 <= i < |s| ==> IsAscii(s[i])
  }

  /** An ASCII string is encoded one byte per character, each byte the code point. */
  lemma {:induction false} AsciiEncoding(s: string)
    requires AllAscii(s)
    ensures |Utf8(s)| == |s|
    ensures forall i :: 0 <= i < |s| ==> Utf8(s)[i] == s[i] as int
  {
    if s != [] {
      AsciiEncoding(s[1..]);
      assert Utf8(s) == [s[0] as int] + Utf8(s[1..]);
    }
  }

  /** Every character's encoding takes at least one byte. */
  lemma {:induction false} ByteLenAtLeastCharCount(s: string)
    ensures ByteLen(s) >= |s|
  {
    if s != [] {
      ByteLenAtLeastCharCount(s[1..]);
    }
  }

  /** No character's encoding takes more than four bytes. */
  lemma {:induction false} ByteLenAtMostFourPerChar(s: string)
    ensures ByteLen(s) <= 4 * |s|
  {
    if s != [] {
      ByteLenAtMostFourPerChar(s[1..]);
    }
  }

  /**
   * Checking the bytes of a string against `[A-Za-z0-9_-]` is the same as
   * checking its characters: multi-byte encodings only contain bytes
   * >= 0x80, none of which passes the byte test.
   */
  lemma {:induction false} IdentifierBytesIffChars(s: string)
    ensures AllIdentifierBytes(Utf8(s)) <==> AllIdentifierChars(s)
  {
    if s != [] {
      IdentifierBytesIffChars(s[1..]);
      var head := EncodeChar(s[0]);
      assert Utf8(s) == head + Utf8(s[1..]);
      if AllIdentifierBytes(Utf8(s)) {
        assert IsIdentifierByte(Utf8(s)[0]);
        assert head[0] == Utf8(s)[0];
        assert AllIdentifierBytes(Utf8(s[1..])) by {
          forall i | 0 <= i < |Utf8(s[1..])|
            ensures IsIdentifierByte(Utf8(s[1..])[i])
          {
            assert Utf8(s[1..])[i] == Utf8(s)[|head| + i];
          }
        }
        assert IsIdentifierChar(s[0]);
        forall i | 0 <= i < |s|
          ensures IsIdentifierChar(s[i])
        {
          if i > 0 {
            assert s[i] == s[1..][i - 1];
          }
        }
      }
      if AllIdentifierChars(s) {
        assert IsIdentifierChar(s[0]);
        assert AllIdentifierChars(s[1..]) by {
          forall i | 0 <= i < |s[1..]|
            ensures IsIdentifierChar(s[1..][i])
          {
            assert s[1..][i] == s[i + 1];
          }
        }
        forall i | 0 <= i < |Utf8(s)|
          ensures IsIdentifierByte(Utf8(s)[i])
        {
          if i >= |head| {
            assert Utf8(s)[i] == Utf8(s[1..])[i - |head|];
          }
        }
      }
    }
  }

  /** Rust's `to_ascii_lowercase` on one character. */
  function AsciiLowerChar(c: char): (r: char)
    ensures IsAscii(c) <==> IsAscii(r)
    ensures 'A' <= c <= 'Z' ==> r as int == c as int + 32
    ensures !('A' <= c <= 'Z') ==> r == c
  {
    if 'A' <= c <= 'Z' then (c as int + 32) as char else c
  }

  /** Rust's `str::to_ascii_lowercase`: only `A`..`Z` change. */
  function AsciiLower(s: string): (r: string)
    ensures |r| == |s|
    ensures forall i :: 0 <= i < |s| ==> r[i] == AsciiLowerChar(s[i])
  {
    if s == [] then [] else [AsciiLowerChar(s[0])] + AsciiLower(s[1..])
  }

  function DigitChar(d: nat): char
    requires d < 10
  {
    "0123456789"[d]
  }

  /** Decimal rendering of a natural number, as Rust's `Display` for integers. */
  function NatToString(n: nat): (r: string)
    ensures |r| >= 1
    ensures forall i :: 0 <= i < |r| ==> '0' <= r[i] <= '9'
  {
    if n < 10 then [DigitChar(n)] else NatToString(n / 10) + [DigitChar(n % 10)]
  }

  function DigitValue(c: char): nat
    requires '0' <= c <= '9'
  {
    c as int - '0' as int
  }

  /** Reads a decimal string back; the inverse of `NatToString`. */
  function ParseDigits(s: string): nat
    requires forall i :: 0 <= i < |s| ==> '0' <= s[i] <= '9'
  {
    if s == [] then 0 else ParseDigits(s[..|s| - 1]) * 10 + DigitValue(s[|s| - 1])
  }

  /** `NatToString` loses nothing: the rendered digits read back as `n`. */
  lemma {:induction false} NatToStringRoundTrip(n: nat)
    ensures ParseDigits(NatToString(n)) == n
  {
    var r := NatToString(n);
    if n < 10 {
      assert r[..0] == [];
    } else {
      NatToStringRoundTrip(n / 10);
      assert r[..|r| - 1] == NatToString(n / 10);
    }
  }
}
