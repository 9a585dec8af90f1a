/** `generateShortId` (src/lib/shortId.ts): a URL-friendly identifier in
    base 36. The random source (`crypto.getRandomValues`, or the `Math.random`
    fallback) is replaced by the bytes it would have produced, given as a
    parameter. */
module ShortId {

  /** One element of the `Uint8Array` the source fills with random values. */
  type Byte = x: int | 0 <= x < 256

  const Alphabet: string := "0123456789abcdefghijklmnopqrstuvwxyz"

  /** The length used when no length is given (`length: number = 8`). */
  const DefaultLength: nat := 8

  /** The identifier a sequence of random bytes determines: character `i` is
      `Alphabet[bytes[i] % 36]`. */
  function ShortIdOf(bytes: seq<Byte>): (r: string)
    ensures |r| == |bytes|
    ensures forall i :: 0 <= i < |bytes| ==> r[i] == Alphabet[bytes[i] % |Alphabet|]
  {
    seq(|bytes|, i requires 0 <= i < |bytes| => Alphabet[bytes[i] % |Alphabet|])
  }

  /** Every identifier is made of lower-case ASCII letters and digits only. */
  lemma ShortIdInAlphabet(bytes: seq<Byte>)
    ensures forall i :: 0 <= i < |bytes| ==> ShortIdOf(bytes)[i] in Alphabet
  {
  }

  /** The source's loop: one random byte per output character, appended in
      order. */
  method GenerateShortId(length: nat, randomValues: seq<Byte>) returns (result: string)
    requires |randomValues| == length
    ensures result == ShortIdOf(randomValues)
    ensures |result| == length
    ensures forall i :: 0 <= i < |result| ==> result[i] in Alphabet
  {
    result := "";
    var i := 0;
    while i < length
      invariant 0 <= i <= length
      invariant result == ShortIdOf(randomValues[..i])
    {
      result := result + [Alphabet[randomValues[i] % |Alphabet|]];
      i := i + 1;
    }
    assert randomValues[..length] == randomValues;
    ShortIdInAlphabet(randomValues);
  }
}
