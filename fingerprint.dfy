/**
 * `ProcessService.GetHash`: the id of a process is the SHA-256 digest of the
 * UTF-8 encoding of its five properties concatenated with no separator,
 * rendered as upper-case hexadecimal without dashes.
 */
module Fingerprint {
  import opened Bytes
  import opened Processes
  import Utf8
  import Hex

  /** SHA-256 digests are 32 bytes long. */
  const DIGEST_LENGTH := 32

  type Digest = d: seq<byte> | |d| == DIGEST_LENGTH witness seq(DIGEST_LENGTH, _ => 0)

  /** SHA-256 itself is not modelled: the service is given some function from bytes to digests. */
  type HashFunction = seq<byte> -> Digest

  /** The interpolated string `$"{Prop1}{Prop2}{Prop3}{Prop4}{Prop5}"`. */
  function Concatenation(request: ProcessRequest): (s: string)
    ensures var n1, n2, n3, n4, n5 := |request.prop1|, |request.prop2|, |request.prop3|, |request.prop4|, |request.prop5|;
      && |s| == n1 + n2 + n3 + n4 + n5
      && s[..n1] == request.prop1
      && s[n1..n1 + n2] == request.prop2
      && s[n1 + n2..n1 + n2 + n3] == request.prop3
      && s[n1 + n2 + n3..n1 + n2 + n3 + n4] == request.prop4
      && s[n1 + n2 + n3 + n4..] == request.prop5
  {
    request.prop1 + request.prop2 + request.prop3 + request.prop4 + request.prop5
  }

  /** The bytes that are hashed: the encodings of the five properties back to back, with nothing between them. */
  function HashInput(request: ProcessRequest): (b: seq<byte>)
    ensures b == Utf8.Encode(request.prop1) + Utf8.Encode(request.prop2) + Utf8.Encode(request.prop3)
                 + Utf8.Encode(request.prop4) + Utf8.Encode(request.prop5)
  {
    var r := request;
    Utf8.EncodeConcat(r.prop1 + r.prop2 + r.prop3 + r.prop4, r.prop5);
    Utf8.EncodeConcat(r.prop1 + r.prop2 + r.prop3, r.prop4);
    Utf8.EncodeConcat(r.prop1 + r.prop2, r.prop3);
    Utf8.EncodeConcat(r.prop1, r.prop2);
    Utf8.Encode(Concatenation(request))
  }

  /** The id of the process a request names: 64 upper-case hexadecimal characters. */
  function GetHash(sha256: HashFunction, request: ProcessRequest): (id: string)
    ensures |id| == 2 * DIGEST_LENGTH
    ensures forall j :: 0 <= j < |id| ==> Hex.IsUpperHexChar(id[j])
  {
    var digest := sha256(HashInput(request));
    Hex.RemoveDashesOfBitConverterToString(digest);
    Hex.HexLayout(digest);
    Hex.RemoveDashes(Hex.BitConverterToString(digest))
  }

  /** The id is the digest, two characters per byte in order, high nibble first. */
  lemma GetHashLayout(sha256: HashFunction, request: ProcessRequest)
    ensures var id, digest := GetHash(sha256, request), sha256(HashInput(request));
      && id == Hex.Hex(digest)
      && forall i :: 0 <= i < DIGEST_LENGTH ==>
           id[2 * i] == Hex.Digit(digest[i] / 16) && id[2 * i + 1] == Hex.Digit(digest[i] % 16)
  {
    var digest := sha256(HashInput(request));
    Hex.RemoveDashesOfBitConverterToString(digest);
    Hex.HexLayout(digest);
  }

  /** Two requests hash the same bytes exactly when their concatenations are equal. */
  lemma HashInputsEqualIffConcatenationsEqual(r1: ProcessRequest, r2: ProcessRequest)
    ensures HashInput(r1) == HashInput(r2) <==> Concatenation(r1) == Concatenation(r2)
  {
    Utf8.EncodeInjective(Concatenation(r1), Concatenation(r2));
  }

  /** Two requests get the same id exactly when the hash gives their inputs the same digest. */
  lemma IdsEqualIffDigestsEqual(sha256: HashFunction, r1: ProcessRequest, r2: ProcessRequest)
    ensures GetHash(sha256, r1) == GetHash(sha256, r2) <==> sha256(HashInput(r1)) == sha256(HashInput(r2))
  {
    GetHashLayout(sha256, r1);
    GetHashLayout(sha256, r2);
    Hex.HexInjective(sha256(HashInput(r1)), sha256(HashInput(r2)));
  }

  /** The id depends on the concatenation only, whatever the hash function. */
  lemma SameConcatenationSameId(sha256: HashFunction, r1: ProcessRequest, r2: ProcessRequest)
    requires Concatenation(r1) == Concatenation(r2)
    ensures GetHash(sha256, r1) == GetHash(sha256, r2)
  {
  }

  /** ("ab", "c", ...) and ("a", "bc", ...) are different requests for the same process id. */
  lemma SeparatorFreeCollision(sha256: HashFunction)
    ensures var r1, r2 := ProcessRequest("ab", "c", "", "", ""), ProcessRequest("a", "bc", "", "", "");
      r1 != r2 && GetHash(sha256, r1) == GetHash(sha256, r2)
  {
  }
}
