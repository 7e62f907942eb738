/**
 * The platform RSA implementation the program calls into, seen from outside.
 *
 * Key generation, XML import and export, OAEP-SHA256 encryption and
 * decryption, parameter export and UTF-8 decoding all belong to the platform
 * library; the program only passes values to them and reacts to their
 * results. They are therefore parameters of the model: a `Library` value is
 * one particular behaviour of the platform, and every statement proved here
 * holds for all of them.
 */
module RsaLibrary {
  import opened Wrappers
  import opened HexCodec

  /** `RSAEncryptionPadding`; the program only ever passes `OaepSha256`. */
  datatype Padding = Pkcs1 | OaepSha1 | OaepSha256 | OaepSha384 | OaepSha512

  /** An `RSA` object as the library knows it: an opaque handle. */
  datatype Key = Key(handle: nat)

  /** A .NET exception, reduced to the message the program prints. */
  datatype Exception = Exception(message: string)

  /** `RSAParameters`: the eight big-endian components of an RSA key. */
  datatype Parameters = Parameters(
    exponent: seq<byte>, modulus: seq<byte>,
    d: seq<byte>, dp: seq<byte>, dq: seq<byte>, inverseQ: seq<byte>, p: seq<byte>, q: seq<byte>)

  /** The library calls the program makes, as total functions of their inputs.
      `fromXml` is `FromXmlString` on a fresh `RSA.Create()` object,
      `generate(n)` is a new key of n bits, `toXml(k, true)` is
      `ToXmlString(true)`, `exportParameters(k, includePrivate)` is `ExportParameters`,
      `utf8Decode` is `Encoding.UTF8.GetString`, and `parseError(t)` is the
      exception `Convert.ToByte(t, 16)` throws for a token t that is not a
      byte. */
  datatype Library = Library(
    fromXml: string -> Result<Key, Exception>,
    toXml: (Key, bool) -> string,
    generate: nat -> Key,
    exportParameters: (Key, bool) -> Result<Parameters, Exception>,
    encrypt: (Key, seq<byte>, Padding) -> seq<byte>,
    decrypt: (Key, seq<byte>, Padding) -> Result<seq<byte>, Exception>,
    utf8Decode: seq<byte> -> string,
    parseError: string -> Exception)
}
