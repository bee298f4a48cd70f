/** Canton identifiers: `{prefix}::{hex namespace}`, their file form, key fingerprints and
 *  the party ids derived from them. */
module CantonIds {
  import opened Prelude
  import opened Texts

  /** A 2-byte multihash prefix and a 32-byte SHA-256 digest. */
  const NAMESPACE_LENGTH := 34

  type Namespace = s: seq<Byte> | |s| == NAMESPACE_LENGTH witness seq(NAMESPACE_LENGTH, _ => 0)

  type Digest = s: seq<Byte> | |s| == 32 witness seq(32, _ => 0)

  datatype CantonId = CantonId(prefix: string, namespace: Namespace)

  // ---------------------------------------------------------------- hex

  function HexDigit(n: int): char
    requires 0 <= n < 16
  {
    if n < 10 then ('0' as int + n) as char else ('a' as int + n - 10) as char
  }

  /** Both cases are read; only lower case is written. */
  function HexValue(c: char): Option<int> {
    if '0' <= c <= '9' then Some(c as int - '0' as int)
    else if 'a' <= c <= 'f' then Some(c as int - 'a' as int + 10)
    else if 'A' <= c <= 'F' then Some(c as int - 'A' as int + 10)
    else None
  }

  predicate IsLowerHex(c: char) {
    '0' <= c <= '9' || 'a' <= c <= 'f'
  }

  function HexEncode(bytes: seq<Byte>): string {
    if bytes == [] then []
    else [HexDigit(bytes[0] / 16), HexDigit(bytes[0] % 16)] + HexEncode(bytes[1..])
  }

  function HexDecode(s: string): Option<seq<Byte>> {
    if s == [] then Some([])
    else if |s| == 1 || HexValue(s[0]).None? || HexValue(s[1]).None? || HexDecode(s[2..]).None? then None
    else Some([16 * HexValue(s[0]).value + HexValue(s[1]).value] + HexDecode(s[2..]).value)
  }

  lemma DigitsOfByte(b: Byte)
    ensures HexValue(HexDigit(b / 16)) == Some(b / 16) && HexValue(HexDigit(b % 16)) == Some(b % 16)
    ensures IsLowerHex(HexDigit(b / 16)) && IsLowerHex(HexDigit(b % 16))
  {
  }

  lemma {:induction false} DecodeEncode(bytes: seq<Byte>)
    ensures |HexEncode(bytes)| == 2 * |bytes|
    ensures forall c | c in HexEncode(bytes) :: IsLowerHex(c)
    ensures HexDecode(HexEncode(bytes)) == Some(bytes)
  {
    if bytes != [] {
      hide HexDigit, HexValue, IsLowerHex;
      DecodeEncode(bytes[1..]);
      DigitsOfByte(bytes[0]);
      var text := HexEncode(bytes);
      assert text[2..] == HexEncode(bytes[1..]);
      assert text[0] == HexDigit(bytes[0] / 16) && text[1] == HexDigit(bytes[0] % 16);
      assert [bytes[0]] + bytes[1..] == bytes;
    }
  }

  /** A digit is written back as it was read exactly when it was in lower case. */
  lemma ByteOfDigits(c: char, d: char)
    requires HexValue(c).Some? && HexValue(d).Some?
    ensures
      var b := 16 * HexValue(c).value + HexValue(d).value;
      && 0 <= b < 256 && b / 16 == HexValue(c).value && b % 16 == HexValue(d).value
      && (HexDigit(b / 16) == c <==> IsLowerHex(c)) && (HexDigit(b % 16) == d <==> IsLowerHex(d))
  {
    var high, low := HexValue(c).value, HexValue(d).value;
    assert (16 * high + low) / 16 == high && (16 * high + low) % 16 == low;
  }

  /** Decodable text has only hex digits, and encoding gives the text back exactly when it
   *  was written in lower case. */
  lemma {:induction false} EncodeDecode(s: string)
    requires HexDecode(s).Some?
    ensures |s| == 2 * |HexDecode(s).value|
    ensures forall c | c in s :: HexValue(c).Some?
    ensures HexEncode(HexDecode(s).value) == s <==> forall c | c in s :: IsLowerHex(c)
  {
    if s != [] {
      EncodeDecode(s[2..]);
      ByteOfDigits(s[0], s[1]);
      hide HexDigit, HexValue, IsLowerHex;
      var rest := HexDecode(s[2..]).value;
      var b: Byte := 16 * HexValue(s[0]).value + HexValue(s[1]).value;
      assert s == [s[0], s[1]] + s[2..];
      assert HexDecode(s).value == [b] + rest && ([b] + rest)[1..] == rest;
      assert HexEncode([b] + rest) == [HexDigit(b / 16), HexDigit(b % 16)] + HexEncode(rest);
      SameText(HexDigit(b / 16), HexDigit(b % 16), HexEncode(rest), s);
    }
  }

  /** Exactly the texts of hex digits in pairs can be decoded. */
  lemma {:induction false} Decodable(s: string)
    ensures HexDecode(s).Some? <==> |s| % 2 == 0 && forall c | c in s :: HexValue(c).Some?
    decreases |s|
  {
    if |s| >= 2 {
      Decodable(s[2..]);
      hide HexValue;
      assert s == [s[0], s[1]] + s[2..];
    }
  }

  lemma SameText(c: char, d: char, rest: string, s: string)
    requires |s| >= 2
    ensures [c, d] + rest == s <==> c == s[0] && d == s[1] && rest == s[2..]
  {
    assert s == [s[0], s[1]] + s[2..];
    assert ([c, d] + rest)[2..] == rest;
  }

  // ---------------------------------------------------------------- parse and print

  /** The position of the first `::`, or the length when there is none. */
  function FirstSeparator(s: string): (i: nat)
    ensures i <= |s|
    ensures i < |s| ==> i + 1 < |s| && s[i] == ':' && s[i + 1] == ':'
    ensures forall j | 0 <= j < i && j + 1 < |s| :: !(s[j] == ':' && s[j + 1] == ':')
  {
    if |s| < 2 then |s|
    else if s[0] == ':' && s[1] == ':' then 0
    else 1 + FirstSeparator(s[1..])
  }

  /** Split at every `::`, left to right. */
  function Parts(s: string): seq<string> {
    var i := FirstSeparator(s);
    if i == |s| then [s] else [s[..i]] + Parts(s[i + 2..])
  }

  function NamespaceFromHex(s: string): Outcome<Namespace> {
    var bytes := HexDecode(s);
    if bytes.Some? && |bytes.value| == NAMESPACE_LENGTH then Ok(bytes.value) else Failed
  }

  function Parse(s: string): Outcome<CantonId> {
    var parts := Parts(s);
    if |parts| != 2 then Failed
    else
      var namespace := NamespaceFromHex(parts[1]);
      if namespace.Failed? then Failed else Ok(CantonId(parts[0], namespace.value))
  }

  function Print(id: CantonId): string {
    id.prefix + "::" + HexEncode(id.namespace)
  }

  /** The prefixes that survive printing: no `::` inside, and no `:` that would move it. */
  predicate Separable(prefix: string) {
    && (forall j | 0 <= j < |prefix| - 1 :: !(prefix[j] == ':' && prefix[j + 1] == ':'))
    && (prefix == [] || prefix[|prefix| - 1] != ':')
  }

  /** What parsing accepts, said without splitting. */
  lemma ParseExactly(s: string, id: CantonId)
    ensures Parse(s) == Ok(id) <==>
            && Separable(id.prefix)
            && id.prefix + "::" <= s
            && HexDecode(s[|id.prefix| + 2..]) == Some(id.namespace)
  {
    hide HexDecode;
    if Parse(s) == Ok(id) {
      ParsedSeparates(s, id);
    }
    if Separable(id.prefix) && id.prefix + "::" <= s && HexDecode(s[|id.prefix| + 2..]) == Some(id.namespace) {
      SplitAtPrefix(id.prefix, s);
      NoSeparatorInHex(s[|id.prefix| + 2..]);
    }
  }

  lemma ParsedSeparates(s: string, id: CantonId)
    requires Parse(s) == Ok(id)
    ensures Separable(id.prefix) && id.prefix + "::" <= s
    ensures HexDecode(s[|id.prefix| + 2..]) == Some(id.namespace)
  {
    hide HexDecode;
    var i := FirstSeparator(s);
    assert Parts(s)[1..] == Parts(s[i + 2..]) && s[i + 2..] == Parts(s[i + 2..])[0];
    assert s[..i] == id.prefix && s == id.prefix + "::" + s[i + 2..];
    assert forall j | 0 <= j < i :: s[j] == id.prefix[j];
  }

  lemma SplitAtPrefix(prefix: string, s: string)
    requires Separable(prefix) && prefix + "::" <= s
    ensures FirstSeparator(s) == |prefix| && Parts(s) == [prefix] + Parts(s[|prefix| + 2..])
  {
    var n := |prefix|;
    assert forall j | 0 <= j < n + 2 :: s[j] == (prefix + "::")[j];
    assert s[n] == ':' && s[n + 1] == ':' && s[..n] == prefix;
    assert n > 0 ==> s[n - 1] == prefix[n - 1];
  }

  lemma SeparatorIsColon(s: string)
    ensures FirstSeparator(s) < |s| ==> ':' in s
  {
  }

  lemma NoSeparatorInHex(s: string)
    requires HexDecode(s).Some?
    ensures Parts(s) == [s]
  {
    EncodeDecode(s);
    SeparatorIsColon(s);
  }

  /** Printing and parsing again gives the id back exactly when the prefix is separable. */
  lemma ParsePrint(id: CantonId)
    ensures Parse(Print(id)) == Ok(id) <==> Separable(id.prefix)
  {
    ParseExactly(Print(id), id);
    DecodeEncode(id.namespace);
    assert Print(id)[|id.prefix| + 2..] == HexEncode(id.namespace);
  }

  /** Every id that came from parsing survives, and printing it gives the text back exactly
   *  when its hex part was in lower case. */
  lemma PrintParse(s: string)
    requires Parse(s).Ok?
    ensures
      var id := Parse(s).value;
      && Separable(id.prefix)
      && Parse(Print(id)) == Ok(id)
      && |id.prefix| + 2 <= |s|
      && (Print(id) == s <==> forall c | c in s[|id.prefix| + 2..] :: IsLowerHex(c))
  {
    var id := Parse(s).value;
    ParseExactly(s, id);
    ParsePrint(id);
    EncodeDecode(s[|id.prefix| + 2..]);
    assert s == id.prefix + "::" + s[|id.prefix| + 2..];
    if Print(id) == s {
      assert Print(id)[|id.prefix| + 2..] == HexEncode(id.namespace);
    }
  }

  // ---------------------------------------------------------------- the file form

  function ParseFromFile(content: string): Outcome<CantonId> {
    var trimmed := Trim(content);
    if "PAR::" <= trimmed then Parse(trimmed[5..]) else Parse(trimmed)
  }

  function ToFileFormat(id: CantonId): string {
    "PAR::" + Print(id)
  }

  lemma PrintEndsInHex(id: CantonId)
    ensures Print(id) != [] && IsLowerHex(Print(id)[|Print(id)| - 1])
    ensures Trim(Print(id)) == TrimStart(Print(id))
  {
    DecodeEncode(id.namespace);
    var text := Print(id);
    assert text[|text| - 1] == HexEncode(id.namespace)[|HexEncode(id.namespace)| - 1];
    assert text[|text| - 1] in HexEncode(id.namespace);
    TrimStartIsSuffix(text);
  }

  /** The file form round-trips for the same ids as the plain form, the prefix `PAR` included. */
  lemma FileRoundTrip(id: CantonId)
    ensures ParseFromFile(ToFileFormat(id)) == Ok(id) <==> Separable(id.prefix)
  {
    var text := ToFileFormat(id);
    PrintEndsInHex(id);
    assert text[|text| - 1] == Print(id)[|Print(id)| - 1];
    assert Trim(text) == text && text[5..] == Print(id);
    ParsePrint(id);
  }

  /** A file that holds the plain form, as the reader also allows, is read back exactly when in
   *  addition the prefix is not `PAR` itself and does not start with white space. */
  lemma PlainFileRoundTrip(id: CantonId)
    ensures ParseFromFile(Print(id)) == Ok(id) <==>
            && Separable(id.prefix)
            && id.prefix != "PAR"
            && (id.prefix == [] || !IsWhitespace(id.prefix[0]))
  {
    var text := Print(id);
    PrintEndsInHex(id);
    TrimStartIsSuffix(text);
    ParsePrint(id);
    hide Parse, Separable, IsWhitespace;
    var trimmed := TrimStart(text);
    assert id.prefix != [] ==> text[0] == id.prefix[0];
    var rest := if "PAR::" <= trimmed then trimmed[5..] else trimmed;
    if Parse(rest) == Ok(id) {
      SameLength(id, rest);
      assert trimmed == text == rest;
    }
    if Separable(id.prefix) && id.prefix != "PAR" && (id.prefix == [] || !IsWhitespace(id.prefix[0])) {
      assert id.prefix == [] ==> text[0] == ':';
      ColonIsNoWhitespace();
      assert trimmed == text;
      if "PAR::" <= text {
        PrefixIsPar(id);
      }
    }
  }

  lemma ColonIsNoWhitespace()
    ensures !IsWhitespace(':')
  {
  }

  /** Text that parses to an id is as long as what the id prints. */
  lemma SameLength(id: CantonId, s: string)
    requires Parse(s) == Ok(id)
    ensures |s| == |Print(id)| && Separable(id.prefix)
  {
    ParseExactly(s, id);
    EncodeDecode(s[|id.prefix| + 2..]);
    DecodeEncode(id.namespace);
  }

  lemma PrefixIsPar(id: CantonId)
    requires Separable(id.prefix) && "PAR::" <= Print(id)
    ensures id.prefix == "PAR"
  {
    var text, n := Print(id), |id.prefix|;
    assert text[0] == 'P' && text[1] == 'A' && text[2] == 'R' && text[3] == ':' && text[4] == ':';
    assert text[n] == ':' && text[n + 1] == ':';
    assert forall j | 0 <= j < n :: text[j] == id.prefix[j];
    assert n == 3;
  }

  // ---------------------------------------------------------------- prefixes

  const MAX_PARTY_ID_PREFIX_LEN := 180

  predicate IsAsciiAlphabetic(c: char) {
    'a' <= c <= 'z' || 'A' <= c <= 'Z'
  }

  predicate IsPrefixChar(c: char) {
    IsAsciiAlphabetic(c) || '0' <= c <= '9' || c == '-' || c == '_'
  }

  datatype PrefixError = Empty | TooLong(count: nat) | BadStart | BadCharacter(found: char)

  /** The first character outside the allowed set. */
  function FirstBad(s: string): Option<char> {
    if s == [] then None else if !IsPrefixChar(s[0]) then Some(s[0]) else FirstBad(s[1..])
  }

  lemma {:induction false} FirstBadExactly(s: string)
    ensures FirstBad(s).None? <==> forall c | c in s :: IsPrefixChar(c)
  {
    if s != [] {
      FirstBadExactly(s[1..]);
      assert s == [s[0]] + s[1..];
    }
  }

  /** The node's check. */
  function ValidatePartyIdPrefix(prefix: string): Result<(), PrefixError> {
    if prefix == [] then Failure(Empty)
    else if |prefix| > MAX_PARTY_ID_PREFIX_LEN then Failure(TooLong(|prefix|))
    else if !IsAsciiAlphabetic(prefix[0]) then Failure(BadStart)
    else if FirstBad(prefix).Some? then Failure(BadCharacter(FirstBad(prefix).value))
    else Success(())
  }

  /** The terminal client's own check, made before anything is sent. Its messages are left out. */
  predicate ValidatePrefix(prefix: string) {
    && prefix != []
    && IsAsciiAlphabetic(prefix[0])
    && |prefix| <= 180
    && forall c | c in prefix :: IsPrefixChar(c)
  }

  /** The code points that a prefix may use: `-`, digits, capital letters, `_` and small letters. */
  predicate PrefixCode(n: int) {
    n == 45 || 48 <= n <= 57 || 65 <= n <= 90 || n == 95 || 97 <= n <= 122
  }

  /** Which prefixes are accepted, and the first rule that a refused one breaks. */
  lemma PrefixRules(prefix: string)
    ensures
      match ValidatePartyIdPrefix(prefix)
      case Success(_) =>
        && 1 <= |prefix| <= 180 && (forall c | c in prefix :: PrefixCode(c as int))
        && (65 <= prefix[0] as int <= 90 || 97 <= prefix[0] as int <= 122)
      case Failure(Empty) => prefix == []
      case Failure(TooLong(n)) => n == |prefix| > 180
      case Failure(BadStart) =>
        1 <= |prefix| <= 180 && !(65 <= prefix[0] as int <= 90 || 97 <= prefix[0] as int <= 122)
      case Failure(BadCharacter(c)) => 1 <= |prefix| <= 180 && c in prefix && !PrefixCode(c as int)
  {
    FirstBadExactly(prefix);
    FirstBadIsBad(prefix);
  }

  lemma {:induction false} FirstBadIsBad(s: string)
    ensures FirstBad(s).Some? ==> FirstBad(s).value in s && !IsPrefixChar(FirstBad(s).value)
  {
    if s != [] {
      FirstBadIsBad(s[1..]);
      assert s == [s[0]] + s[1..];
    }
  }

  /** Both checks accept the same prefixes, and each of those round-trips. */
  lemma AcceptedPrefixes(prefix: string, namespace: Namespace)
    ensures ValidatePartyIdPrefix(prefix).Success? <==> ValidatePrefix(prefix)
    ensures ValidatePartyIdPrefix(prefix).Success? ==>
              Separable(prefix) && Parse(Print(CantonId(prefix, namespace))) == Ok(CantonId(prefix, namespace))
  {
    FirstBadExactly(prefix);
    if ValidatePartyIdPrefix(prefix).Success? {
      SeparatorIsColon(prefix);
      assert prefix[|prefix| - 1] in prefix;
      ParsePrint(CantonId(prefix, namespace));
    }
  }

  // ---------------------------------------------------------------- fingerprints

  const MULTIHASH_SHA256_PREFIX := "1220"
  const FINGERPRINT_LENGTH := 2 * NAMESPACE_LENGTH

  function FingerprintFromSha256(digest: Digest): string {
    MULTIHASH_SHA256_PREFIX + HexEncode(digest)
  }

  /** The texts that are taken as a fingerprint. */
  predicate IsFingerprint(s: string) {
    && |s| == FINGERPRINT_LENGTH
    && MULTIHASH_SHA256_PREFIX <= s
    && forall c | c in s[4..] :: IsLowerHex(c)
  }

  /** A text is accepted as a fingerprint exactly when it is the fingerprint of some digest, and of one only. */
  lemma FingerprintsAreDigests(s: string)
    ensures IsFingerprint(s) <==> exists digest: Digest :: s == FingerprintFromSha256(digest)
    ensures forall d: Digest, e: Digest | FingerprintFromSha256(d) == FingerprintFromSha256(e) :: d == e
  {
    if IsFingerprint(s) {
      assert forall c | c in s[4..] :: HexValue(c).Some?;
      Decodable(s[4..]);
      EncodeDecode(s[4..]);
      var digest: Digest := HexDecode(s[4..]).value;
      assert s == FingerprintFromSha256(digest);
    }
    forall digest: Digest
      ensures IsFingerprint(FingerprintFromSha256(digest))
      ensures HexDecode(FingerprintFromSha256(digest)[4..]) == Some(digest)
    {
      DecodeEncode(digest);
      assert FingerprintFromSha256(digest)[4..] == HexEncode(digest);
    }
  }

  /** Canton's purpose id for public-key fingerprints, big-endian, ahead of the key bytes. */
  function FingerprintFromPublicKey(sha256: seq<Byte> -> Digest, publicKey: seq<Byte>): string {
    FingerprintFromSha256(sha256([0, 0, 0, 12] + publicKey))
  }

  /** The party id that a key gives for a hint, derived from the public key alone. */
  function PartyId(sha256: seq<Byte> -> Digest, publicKey: seq<Byte>, hint: string): string {
    hint + "::" + FingerprintFromPublicKey(sha256, publicKey)
  }

  /** A derived party id parses to the hint and the multihash of the key exactly when the
   *  hint is separable. */
  lemma PartyIdParses(sha256: seq<Byte> -> Digest, publicKey: seq<Byte>, hint: string)
    ensures
      var id := CantonId(hint, [0x12, 0x20] + sha256([0, 0, 0, 12] + publicKey));
      Parse(PartyId(sha256, publicKey, hint)) == Ok(id) <==> Separable(hint)
  {
    var namespace: Namespace := [0x12, 0x20] + sha256([0, 0, 0, 12] + publicKey);
    assert HexEncode(namespace) == FingerprintFromPublicKey(sha256, publicKey) by {
      assert namespace[1..][1..] == sha256([0, 0, 0, 12] + publicKey);
    }
    ParsePrint(CantonId(hint, namespace));
  }
}
