/**
 * Identifiers of the OpenADR wire format: strings of 1..=128 bytes drawn from
 * `[A-Za-z0-9_-]`, with the name "null" (in any ASCII case) forbidden, and
 * the plain bounded-length check used for names.
 */
module Identifiers {
  import opened Wrappers
  import opened Text

  /** Why a string was refused as an identifier. */
  datatype IdentifierError =
    | InvalidLength(len: nat)
    | InvalidCharacter
    | ForbiddenName(name: string)

  /** Names that are never identifiers, compared after ASCII lower-casing. */
  const ForbiddenNames: seq<string> := ["null"]

  /** A validated identifier; only `ParseIdentifier` produces valid ones. */
  datatype Identifier = Identifier(text: string)

  /**
   * The identifier grammar stated on characters: between 1 and 128
   * characters, each ASCII alphanumeric, `_` or `-`, and not a forbidden name.
   */
  predicate IsIdentifier(s: string)
  {
    1 <= |s| <= 128 && AllIdentifierChars(s) && AsciiLower(s) !in ForbiddenNames
  }

  predicate Valid(id: Identifier)
  {
    IsIdentifier(id.text)
  }

  /**
   * `string_within_range_inclusive::<MIN, MAX>`: the string itself when its
   * byte length lies in MIN..=MAX, otherwise the length it had.
   */
  function StringWithinRange(min: nat, max: nat, s: string): (r: Result<string, IdentifierError>)
    ensures r.Ok? <==> min <= ByteLen(s) <= max
    ensures r.Ok? ==> r.value == s
    ensures r.Err? ==> r.error == InvalidLength(ByteLen(s))
  {
    var len := ByteLen(s);
    if min <= len <= max then Ok(s) else Err(InvalidLength(len))
  }

  /**
   * `Identifier::from_str`. The checks run in a fixed order — byte length,
   * then the byte alphabet, then the forbidden names — and the first failing
   * one names the error. The contract restates the byte-level tests of the
   * code at character level.
   */
  function ParseIdentifier(s: string): (r: Result<Identifier, IdentifierError>)
    ensures r.Ok? ==> r.value.text == s
    ensures r == Err(InvalidLength(ByteLen(s))) <==> !(1 <= ByteLen(s) <= 128)
    ensures r == Err(InvalidCharacter) <==> 1 <= ByteLen(s) <= 128 && !AllIdentifierChars(s)
    ensures r == Err(ForbiddenName(s)) <==>
              1 <= ByteLen(s) <= 128 && AllIdentifierChars(s) && AsciiLower(s) == "null"
    ensures r.Ok? <==> 1 <= ByteLen(s) <= 128 && AllIdentifierChars(s) && AsciiLower(s) != "null"
  {
    IdentifierBytesIffChars(s);
    var len := ByteLen(s);
    if !(1 <= len <= 128) then Err(InvalidLength(len))
    else if !AllIdentifierBytes(Utf8(s)) then Err(InvalidCharacter)
    else if AsciiLower(s) in ForbiddenNames then Err(ForbiddenName(s))
    else Ok(Identifier(s))
  }

  /** `Identifier::as_str`. */
  function AsStr(id: Identifier): string
  {
    id.text
  }

  /** `Display for Identifier`. */
  function Display(id: Identifier): string
  {
    id.text
  }

  /** `Display for IdentifierError`. */
  function Message(e: IdentifierError): string
  {
    match e
    case InvalidLength(len) =>
      "string length " + NatToString(len) + " outside of allowed range 1..=128"
    case InvalidCharacter => "identifier contains characters besides [a-zA-Z0-9_-]"
    case ForbiddenName(name) => "this identifier name is not allowed: " + name
  }

  /**
   * Parsing succeeds exactly on the character-level grammar: an accepted
   * string is ASCII, so its byte length is its character count.
   */
  lemma ParseIdentifierIffGrammar(s: string)
    ensures ParseIdentifier(s).Ok? <==> IsIdentifier(s)
    ensures ParseIdentifier(s).Ok? ==> Valid(ParseIdentifier(s).value)
  {
    if AllIdentifierChars(s) {
      assert AllAscii(s) by {
        forall i | 0 <= i < |s|
          ensures IsAscii(s[i])
        {
          assert IsIdentifierChar(s[i]);
        }
      }
      AsciiEncoding(s);
    }
  }

  /** On success the identifier reads back as exactly the input text. */
  lemma ParseThenText(s: string, id: Identifier)
    requires ParseIdentifier(s) == Ok(id)
    ensures AsStr(id) == s && Display(id) == s
    ensures Valid(id)
  {
    ParseIdentifierIffGrammar(s);
  }

  /** A valid identifier's text parses back to the same identifier. */
  lemma TextThenParse(id: Identifier)
    requires Valid(id)
    ensures ParseIdentifier(AsStr(id)) == Ok(id)
  {
    ParseIdentifierIffGrammar(id.text);
  }

  /** Any string over 128 bytes is refused for its length, whatever its characters. */
  lemma LengthCheckedFirst(s: string)
    requires ByteLen(s) > 128
    ensures ParseIdentifier(s) == Err(InvalidLength(ByteLen(s)))
    ensures Message(ParseIdentifier(s).error) ==
              "string length " + NatToString(ByteLen(s)) + " outside of allowed range 1..=128"
  {
  }

  function Repeat(c: char, n: nat): (r: string)
    ensures |r| == n
    ensures forall i :: 0 <= i < n ==> r[i] == c
  {
    if n == 0 then [] else [c] + Repeat(c, n - 1)
  }

  /** 128 characters is the longest identifier accepted. */
  lemma LongestIdentifierAccepted(long: string)
    requires long == Repeat('x', 128)
    ensures ParseIdentifier(long) == Ok(Identifier(long))
  {
    AsciiEncoding(long);
    assert AllIdentifierChars(long) by {
      forall i | 0 <= i < 128
        ensures IsIdentifierChar(long[i])
      {
        assert long[i] == 'x';
      }
    }
    assert AsciiLower(long) != "null" by {
      assert |AsciiLower(long)| == 128;
    }
  }

  /** One character more, or none at all, is refused for its length. */
  lemma LengthBoundariesRefused(long: string, empty: string)
    requires long == Repeat('x', 129) && empty == ""
    ensures ParseIdentifier(long) == Err(InvalidLength(129))
    ensures ParseIdentifier(empty) == Err(InvalidLength(0))
  {
    AsciiEncoding(long);
  }

  /** A letter outside ASCII is refused for its character, not its length. */
  lemma ParseNonAscii(s: string)
    requires s == "\U{00FE}ingvellir-999"
    ensures ParseIdentifier(s) == Err(InvalidCharacter)
  {
    ByteLenAtLeastCharCount(s);
    ByteLenAtMostFourPerChar(s);
    assert !IsIdentifierChar(s[0]);
  }

  /** A typical identifier is accepted unchanged. */
  lemma ParseExample(s: string)
    requires s == "example-999"
    ensures ParseIdentifier(s) == Ok(Identifier(s))
  {
    forall i | 0 <= i < |s|
      ensures IsIdentifierChar(s[i])
    {
      assert s[i] in "exampl-9";
    }
    assert AsciiLower(s)[0] == 'e';
    TextThenParse(Identifier(s));
  }

  /** "null" is refused in every ASCII case. */
  lemma NullForbiddenInAnyCase(s: string)
    requires s == "null" || s == "NULL" || s == "Null"
    ensures ParseIdentifier(s) == Err(ForbiddenName(s))
  {
    AsciiEncoding(s);
    assert AllIdentifierChars(s);
    assert AsciiLower(s) == "null";
  }

  /** Only the whole name is forbidden: longer or shorter texts pass. */
  lemma NullForbiddenOnlyWhole(s: string)
    requires s == "null1" || s == "nul"
    ensures ParseIdentifier(s) == Ok(Identifier(s))
  {
    AsciiEncoding(s);
    assert AllIdentifierChars(s);
    assert |AsciiLower(s)| != 4;
  }

  /** The decimal rendering used in the length message. */
  lemma Render129()
    ensures NatToString(129) == "129"
  {
    assert NatToString(1) == "1";
    assert NatToString(12) == NatToString(1) + [DigitChar(2)] == "12";
  }

  /** The length message the tests look for. */
  lemma LengthMessage(n: nat)
    requires n == 129
    ensures Message(InvalidLength(n)) == "string length " + "129" + " outside of allowed range 1..=128"
  {
    Render129();
  }

  /** The bounded-string check at the bounds the wire types use. */
  lemma StringWithinRangeBoundaries()
    ensures StringWithinRange(1, 128, Repeat('x', 128)) == Ok(Repeat('x', 128))
    ensures StringWithinRange(1, 128, Repeat('x', 129)) == Err(InvalidLength(129))
    ensures StringWithinRange(1, 128, "") == Err(InvalidLength(0))
  {
    AsciiEncoding(Repeat('x', 128));
    AsciiEncoding(Repeat('x', 129));
  }
}
