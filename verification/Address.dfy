/** Base58Check account addresses. */
module Addresses {
  import opened Records
  import opened Base58
  import Text

  const UFI_PREFIX: string := "UFI"
  const PREFIX_BYTES: seq<Byte> := [85, 70, 73]
  const CURRENT_VERSION: Byte := 1
  const ADDRESS_HASH_SIZE := 20
  const CHECKSUM_SIZE := 4

  datatype Address = Address(version: Byte, hash160: seq<Byte>)

  /** An address value: the hash has its fixed size. */
  ghost predicate IsAddress(a: Address) {
    |a.hash160| == ADDRESS_HASH_SIZE
  }

  /** A 32-byte digest function, SHA-256 in the program. */
  ghost predicate IsDigest(digest: seq<Byte> -> seq<Byte>) {
    forall x :: |digest(x)| == 32
  }

  function IsZero(a: Address): bool {
    a.version == 0 && forall i :: 0 <= i < |a.hash160| ==> a.hash160[i] == 0
  }

  function Checksum(digest: seq<Byte> -> seq<Byte>, version: Byte, hash160: seq<Byte>): (sum: seq<Byte>)
    requires IsDigest(digest)
    ensures |sum| == CHECKSUM_SIZE
  {
    digest(digest(PREFIX_BYTES + [version] + hash160))[..CHECKSUM_SIZE]
  }

  function NewAddress(version: Byte, hash: seq<Byte>): Result<Address> {
    if version == 0 || |hash| != ADDRESS_HASH_SIZE then Err(InvalidAddress) else Ok(Address(version, hash))
  }

  /** `Address.String`. */
  function Print(digest: seq<Byte> -> seq<Byte>, a: Address): string
    requires IsDigest(digest)
  {
    if IsZero(a) then ""
    else UFI_PREFIX + Encode(RawBytes(digest, a))
  }

  function ParseAddress(digest: seq<Byte> -> seq<Byte>, encoded: string): Result<Address>
    requires IsDigest(digest)
  {
    ParseTrimmed(digest, Text.Trim(encoded))
  }

  function ParseTrimmed(digest: seq<Byte> -> seq<Byte>, value: string): Result<Address>
    requires IsDigest(digest)
  {
    if !(UFI_PREFIX <= value) then Err(InvalidAddress)
    else
      match Decode(value[|UFI_PREFIX|..])
      case Err(e) => Err(e)
      case Ok(decoded) =>
        if |decoded| != 1 + ADDRESS_HASH_SIZE + CHECKSUM_SIZE then Err(InvalidAddress)
        else if decoded[0] == 0 then Err(InvalidAddress)
        else
          var hash160 := decoded[1..1 + ADDRESS_HASH_SIZE];
          if Checksum(digest, decoded[0], hash160) != decoded[1 + ADDRESS_HASH_SIZE..] then Err(InvalidChecksum)
          else Ok(Address(decoded[0], hash160))
  }

  lemma EncodedCharacters(raw: seq<Byte>)
    requires raw != []
    ensures Encode(raw) != [] && forall i :: 0 <= i < |Encode(raw)| ==> DigitOf(Encode(raw)[i]) >= 0
  {
    RecodeRoundTrip(256, 58, raw);
    SpellUnspell(Recode(256, 58, raw), "");
  }

  /** Printed text is made of the prefix and Base58 characters, and needs no trimming. */
  lemma PrintedCharacters(digest: seq<Byte> -> seq<Byte>, a: Address)
    requires IsDigest(digest) && IsAddress(a) && !IsZero(a)
    ensures var text := Print(digest, a);
      && |text| > 3 && text[0] == 'U' && UFI_PREFIX <= text && Text.Trim(text) == text
      && forall i :: 3 <= i < |text| ==> DigitOf(text[i]) >= 0
  {
    var raw := RawBytes(digest, a);
    EncodedCharacters(raw);
    var text := Print(digest, a);
    assert text == UFI_PREFIX + Encode(raw);
    hide Encode, Print, RawBytes;
    assert text[3..] == Encode(raw);
    forall i | 3 <= i < |text|
      ensures DigitOf(text[i]) >= 0
    {
      assert text[i] == text[3..][i - 3];
    }
    var last := text[|text| - 1];
    assert DigitOf(last) >= 0;
    assert !Text.IsSpace(last) && !Text.IsSpace(text[0]);
    Text.TrimIsIdentity(text);
  }

  function RawBytes(digest: seq<Byte> -> seq<Byte>, a: Address): seq<Byte>
    requires IsDigest(digest)
  {
    [a.version] + a.hash160 + Checksum(digest, a.version, a.hash160)
  }

  /** The version, the hash, and the first four bytes of the double digest of "UFI", version and hash. */
  ghost predicate IsPayload(digest: seq<Byte> -> seq<Byte>, a: Address, payload: seq<Byte>) {
    && |payload| == 25 && payload[0] == a.version && payload[1..21] == a.hash160
    && var doubled := digest(digest([85, 70, 73, a.version] + a.hash160));
    && |doubled| == 32 && payload[21..] == doubled[..4]
  }

  lemma RawIsPayload(digest: seq<Byte> -> seq<Byte>, a: Address)
    requires IsDigest(digest) && IsAddress(a)
    ensures IsPayload(digest, a, RawBytes(digest, a))
    ensures forall payload :: IsPayload(digest, a, payload) ==> payload == RawBytes(digest, a)
  {
    var raw := RawBytes(digest, a);
    assert PREFIX_BYTES + [a.version] + a.hash160 == [85, 70, 73, a.version] + a.hash160;
    assert raw[1..21] == a.hash160 && raw[21..] == Checksum(digest, a.version, a.hash160);
    forall payload | IsPayload(digest, a, payload)
      ensures payload == raw
    {
      assert payload == [payload[0]] + payload[1..21] + payload[21..];
    }
  }

  /** A printed address is "UFI" and the Base58 text of its payload; the zero address prints as nothing. */
  lemma PrintedIs(digest: seq<Byte> -> seq<Byte>, a: Address)
    requires IsDigest(digest) && IsAddress(a)
    ensures IsZero(a) ==> Print(digest, a) == ""
    ensures !IsZero(a) ==>
      && "UFI" <= Print(digest, a)
      && Decode(Print(digest, a)[3..]).Ok?
      && IsPayload(digest, a, Decode(Print(digest, a)[3..]).value)
  {
    RawIsPayload(digest, a);
    hide Encode, Decode, RawBytes, IsPayload;
    if !IsZero(a) {
      RawLength(digest, a);
      DecodeEncoded(RawBytes(digest, a));
      assert Print(digest, a)[3..] == Encode(RawBytes(digest, a));
    }
  }

  lemma RawLength(digest: seq<Byte> -> seq<Byte>, a: Address)
    requires IsDigest(digest) && IsAddress(a)
    ensures |RawBytes(digest, a)| == 25
  {
  }

  /** A text is accepted as an address if and only if, trimmed, it is "UFI" and the text of that payload. */
  lemma ParsedExactly(digest: seq<Byte> -> seq<Byte>, encoded: string, a: Address)
    requires IsDigest(digest) && IsAddress(a)
    ensures ParseAddress(digest, encoded) == Ok(a) <==>
      var text := Text.Trim(encoded);
      && a.version != 0 && "UFI" <= text && Decode(text[3..]).Ok?
      && IsPayload(digest, a, Decode(text[3..]).value)
  {
    RawIsPayload(digest, a);
    var text := Text.Trim(encoded);
    hide Encode, Decode, Text.Trim, IsPayload, RawBytes;
    if "UFI" <= text && Decode(text[3..]).Ok? {
      var decoded := Decode(text[3..]).value;
      if decoded == RawBytes(digest, a) {
        ParseOfRaw(digest, a, text);
      } else {
        OtherPayload(digest, text, a);
      }
    }
  }

  lemma OtherPayload(digest: seq<Byte> -> seq<Byte>, text: string, a: Address)
    requires IsDigest(digest) && IsAddress(a) && "UFI" <= text && Decode(text[3..]).Ok?
    requires Decode(text[3..]).value != RawBytes(digest, a)
    ensures ParseTrimmed(digest, text) != Ok(a)
  {
    hide Decode, Checksum;
    var decoded := Decode(text[3..]).value;
    assert |decoded| == 25 ==> decoded == [decoded[0]] + decoded[1..21] + decoded[21..];
  }

  /** What parsing makes of a text whose payload decodes to an address's raw bytes. */
  lemma ParseOfRaw(digest: seq<Byte> -> seq<Byte>, a: Address, text: string)
    requires IsDigest(digest) && IsAddress(a)
    requires |text| >= 3 && UFI_PREFIX <= text && Decode(text[3..]) == Ok(RawBytes(digest, a))
    ensures ParseTrimmed(digest, text) == if a.version == 0 then Err(InvalidAddress) else Ok(a)
  {
    hide Decode, Checksum;
    var raw := RawBytes(digest, a);
    assert raw[1..21] == a.hash160 && raw[21..] == Checksum(digest, a.version, a.hash160);
  }

  /** The addresses that can be made are exactly those that survive printing and parsing. */
  lemma NewIsParsed(digest: seq<Byte> -> seq<Byte>, version: Byte, hash: seq<Byte>)
    requires IsDigest(digest) && |hash| == ADDRESS_HASH_SIZE
    ensures NewAddress(version, hash).Ok?
       <==> ParseAddress(digest, Print(digest, Address(version, hash))) == Ok(Address(version, hash))
    ensures NewAddress(version, hash).Ok? ==> NewAddress(version, hash).value == Address(version, hash)
  {
    ParsePrinted(digest, Address(version, hash));
    hide ParseAddress, Print;
  }

  /** Parsing a printed address gives the address back, exactly when its version is one `NewAddress` admits. */
  lemma ParsePrinted(digest: seq<Byte> -> seq<Byte>, a: Address)
    requires IsDigest(digest) && IsAddress(a)
    ensures ParseAddress(digest, Print(digest, a)) == Ok(a) <==> a.version != 0
  {
    hide Text.Trim, Encode, Decode, DigitOf, Checksum, ParseTrimmed;
    if IsZero(a) {
      ParseOfEmpty(digest);
    } else {
      PrintedCharacters(digest, a);
      DecodeEncoded(RawBytes(digest, a));
      assert Print(digest, a)[3..] == Encode(RawBytes(digest, a));
      ParseOfRaw(digest, a, Print(digest, a));
    }
  }

  lemma ParseOfEmpty(digest: seq<Byte> -> seq<Byte>)
    requires IsDigest(digest)
    ensures Text.Trim("") == "" && ParseTrimmed(digest, "") == Err(InvalidAddress)
  {
  }

  /** An accepted text, once trimmed, is the only spelling of its address. */
  lemma PrintParsed(digest: seq<Byte> -> seq<Byte>, encoded: string)
    requires IsDigest(digest) && ParseAddress(digest, encoded).Ok?
    ensures var a := ParseAddress(digest, encoded).value;
      IsAddress(a) && a.version != 0 && Print(digest, a) == Text.Trim(encoded)
  {
    hide Encode, Decode, Checksum;
    var value := Text.Trim(encoded);
    var decoded := Decode(value[3..]).value;
    EncodeDecoded(value[3..]);
    assert decoded == [decoded[0]] + decoded[1..21] + decoded[21..];
    assert value == UFI_PREFIX + value[3..];
  }

  /** A printed address is never a name that holds an underscore or a hexadecimal contract address. */
  lemma PrintedIsNotAName(digest: seq<Byte> -> seq<Byte>, a: Address, name: string)
    requires IsDigest(digest) && IsAddress(a) && !IsZero(a)
    requires (|name| > 3 && name[3] == '_') || (|name| > 0 && name[0] == '0')
    ensures Print(digest, a) != name
  {
    hide *;
    PrintedCharacters(digest, a);
    UnderscoreIsNoDigit();
  }

  lemma UnderscoreIsNoDigit()
    ensures DigitOf('_') == -1
  {
  }
}
