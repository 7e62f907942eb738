# H3.AsymmetricalDecryption in Dafny

H3.AsymmetricalDecryption is a small .NET console program. It holds one RSA
key, which it loads from `private_key.xml` or creates and saves there. It
shows the key's eight components as dash-separated hex, then reads
dash-separated hex ciphertext from the console and decrypts it with
OAEP-SHA256. It also has a benchmark mode that times key generation,
encryption and decryption at seven key sizes and prints the timings as
tables.

This project models the program's own logic and proves properties of it:

- `HexCodec` (`hex_codec.dfy`) covers the hex text in both directions.
  Rendering is `BitConverter.ToString`. Reading is the
  `Split('-')`/`Convert.ToByte(x, 16)` pipeline of the menu loop. The round
  trip is proved, and so are the inputs on which reading fails.
- `RsaLibrary` (`rsa_library.dfy`) describes the platform RSA library as a
  value with one function per library call. Every result proved here holds
  for every such library.
- `Encryption` (`encryption.dfy`) covers the key holder `RSAEncryptor`:
  - the load-or-create constructor, over a `KeyFile` object;
  - the `Lazy` singleton behind `Instance`, with a construction counter;
  - the layout of `ToString`;
  - `Decrypt`.
- `Benchmarker` (`benchmarker.dfy`) covers the benchmark mode:
  - the timed loops, as methods that record the library calls they make;
  - the `foreach` over the key sizes;
  - the text of the table header and of the rows.
- `Program` (`program.dfy`) covers the menu loop of `Main`. `MenuLoop` is the
  imperative `while` loop over a finite sequence of input lines. It is proved
  equal to `Session`, a recursive definition of the transcript (events shown,
  and how the program ends). The lemmas about the menu choices are stated on
  `Session`.

Empty ciphertext input fails to decode, and so does any input with an empty
token, because `"".Split('-')` is `[""]` and `Convert.ToByte("", 16)` throws.
The round trip therefore holds only for non-empty byte sequences
(`HexCodec.EncodeEmptyDoesNotDecode`).

## Model

| member | source | states |
|---|---|---|
| HexCodec.Split | H3.AsymmetricalDecryption/Program.cs:38 | `Split('-')` always yields at least one token, and no token contains the separator |
| HexCodec.JoinSplit | H3.AsymmetricalDecryption/Program.cs:38 | splitting loses no characters: the tokens joined by the separator give back the input |
| HexCodec.SplitAround | H3.AsymmetricalDecryption/Program.cs:38 | a separator between two texts splits exactly there |
| HexCodec.SplitJoin | H3.AsymmetricalDecryption/Program.cs:38 | tokens free of the separator, once joined, split back into the same tokens |
| HexCodec.UpperDigit | H3.AsymmetricalDecryption/Encryption/RSAEncryptor.cs:68 | a nibble is written as an upper-case hex digit whose value is that nibble |
| HexCodec.ByteToHex | H3.AsymmetricalDecryption/Encryption/RSAEncryptor.cs:68 | a byte is written as two upper-case hex digits, high nibble first, worth 16·high + low |
| HexCodec.Encode | H3.AsymmetricalDecryption/Encryption/RSAEncryptor.cs:68-76 | `BitConverter.ToString` is empty for no bytes, 3n-1 characters long for n > 0 bytes, and uses only upper-case hex digits and dashes |
| HexCodec.EncodeAt | H3.AsymmetricalDecryption/Encryption/RSAEncryptor.cs:68-76 | byte i is rendered at positions 3i and 3i+1, followed by a dash unless it is the last byte |
| HexCodec.SplitEncode | H3.AsymmetricalDecryption/Encryption/RSAEncryptor.cs:68-76 | the rendering of n > 0 bytes splits on '-' into exactly the n two-digit renderings, in order |
| HexCodec.ParseToken | H3.AsymmetricalDecryption/Program.cs:38 | `Convert.ToByte(t, 16)` succeeds exactly on non-empty hex-digit tokens (either case) with a value below 256, and yields that value; the empty token fails |
| HexCodec.ParseTwoDigits | H3.AsymmetricalDecryption/Program.cs:38 | any two hex digits, of either case, read as 16·first + second |
| HexCodec.ParseByteToHex | H3.AsymmetricalDecryption/Program.cs:38 | the two-digit rendering of a byte reads back as that byte |
| HexCodec.LeadingZero | H3.AsymmetricalDecryption/Program.cs:38 | a leading zero does not change a token's value, so longer tokens such as "0FF" are accepted |
| HexCodec.FirstUnparsable | H3.AsymmetricalDecryption/Program.cs:38 | when some token is not a byte, the conversion runs into a first such token, and every earlier token is a byte |
| HexCodec.ParseAll | H3.AsymmetricalDecryption/Program.cs:38 | `Select(...).ToArray()` succeeds exactly when every token is a byte; it then has one byte per token, in token order, and otherwise produces no array |
| HexCodec.Decode | H3.AsymmetricalDecryption/Program.cs:38 | the ciphertext conversion succeeds exactly when every dash-separated token is a byte, and then yields one byte per token, in order, each the token's value |
| HexCodec.DecodeEncode | H3.AsymmetricalDecryption/Program.cs:38 | reading back the rendering of a non-empty byte sequence gives that sequence |
| HexCodec.EncodeEmptyDoesNotDecode | H3.AsymmetricalDecryption/Program.cs:38 | the empty byte sequence renders as "", and "" does not read back |
| HexCodec.DecodeEmptyInput | H3.AsymmetricalDecryption/Program.cs:38 | empty ciphertext input is a parse failure, not an empty byte sequence |
| HexCodec.DecodeDoubleDash | H3.AsymmetricalDecryption/Program.cs:38 | any input with two consecutive dashes is a parse failure |
| HexCodec.DecodeTrailingDash | H3.AsymmetricalDecryption/Program.cs:38 | any input ending in a dash is a parse failure |
| HexCodec.DecodeLeadingDash | H3.AsymmetricalDecryption/Program.cs:38 | any input starting with a dash is a parse failure |
| Encryption.KeyFile.WriteAllText | H3.AsymmetricalDecryption/Encryption/RSAEncryptor.cs:39 | afterwards the key file exists and holds exactly the text written |
| Encryption.Construction | H3.AsymmetricalDecryption/Encryption/RSAEncryptor.cs:26-62 | the key comes from the file when it exists, or is a new 2048-bit key; exponent and modulus come from the public export and D, DP, DQ, InverseQ, P, Q from the private one; once the key is there, construction fails exactly when an export fails; an unreadable file fails with the library's own exception, and a failed export with the one exception "Error while getting RSA parameters" |
| Encryption.SecondStartLoadsSameKey | H3.AsymmetricalDecryption/Encryption/RSAEncryptor.cs:31-40 | a start that finds the file written by an earlier start ends up with that start's key and components even under a library that would generate a different key, so the key comes from the file; this holds if the library reads back what it wrote |
| Encryption.KeyInfoSplits | H3.AsymmetricalDecryption/Encryption/RSAEncryptor.cs:64-77 | `ToString` consists of its ten lines, each ended by "\n" |
| Encryption.KeyLinesLabelled | H3.AsymmetricalDecryption/Encryption/RSAEncryptor.cs:68-76 | component c appears on its own line, as a tab, its label, ": " and its `BitConverter.ToString` rendering |
| Encryption.KeyInfoLayout | H3.AsymmetricalDecryption/Encryption/RSAEncryptor.cs:64-77 | `ToString` has ten lines: a bold "Public data:" heading, Exponent, Modulus, a bold "Private data:" heading, then D, DP, DQ, InverseQ, P, Q, each on a tab-indented labelled line with its hex rendering |
| Encryption.ComponentReadBack | H3.AsymmetricalDecryption/Encryption/RSAEncryptor.cs:68-76 | cutting the label off a non-empty component's line of `ToString` and decoding the rest gives back that component |
| Encryption.RsaEncryptor.constructor | H3.AsymmetricalDecryption/Encryption/RSAEncryptor.cs:45-56 | the object holds the key and the eight components it was given |
| Encryption.RsaEncryptor.Create | H3.AsymmetricalDecryption/Encryption/RSAEncryptor.cs:26-62 | an existing key file is left unchanged; a missing one is written with the new 2048-bit key's XML before the export, so the file exists afterwards whatever the outcome; success, the state of the new object and the exception all agree with `Construction` |
| Encryption.RsaEncryptor.Decrypt | H3.AsymmetricalDecryption/Encryption/RSAEncryptor.cs:79-82 | data and padding go unchanged to the held key, and the library's plaintext or exception comes back unchanged |
| Encryption.EncryptorInstance.constructor | H3.AsymmetricalDecryption/Encryption/RSAEncryptor.cs:12 | the `Lazy` starts unbuilt, and no construction has run |
| Encryption.EncryptorInstance.Instance | H3.AsymmetricalDecryption/Encryption/RSAEncryptor.cs:12-13 | the constructor runs only on the first access, and at most once; every access yields the same object, or rethrows the constructor's exception; the first access leaves the key file as `Create` does: an existing file is kept unchanged, a missing one is created holding the new key's private XML; later accesses change nothing, not even the key file |
| Benchmarker.SampleDataIsUtf8OfSampleText | H3.AsymmetricalDecryption/Benchmark/Benchmarker.cs:122 | the sample bytes are the character codes of "Sample data for encryption", all below 128, so they are its UTF-8 encoding |
| Benchmarker.PadRight | H3.AsymmetricalDecryption/Benchmark/Benchmarker.cs:71-79 | the result is `max(len, width)` characters long: the text, then spaces; a longer text is kept whole |
| Benchmarker.PadLeft | H3.AsymmetricalDecryption/Benchmark/Benchmarker.cs:87-94 | the result is `max(len, width)` characters long: spaces, then the text; a longer text is kept whole |
| Benchmarker.Decimal | H3.AsymmetricalDecryption/Benchmark/Benchmarker.cs:79 | `ToString()` of a non-negative integer is a non-empty string of decimal digits without a leading zero |
| Benchmarker.DecimalRoundTrip | H3.AsymmetricalDecryption/Benchmark/Benchmarker.cs:79 | the printed digits spell the number |
| Benchmarker.DecimalLength | H3.AsymmetricalDecryption/Benchmark/Benchmarker.cs:79-94 | a number below 10^k prints in at most k digits |
| Benchmarker.Average | H3.AsymmetricalDecryption/Benchmark/Benchmarker.cs:87 | the average column is the truncating quotient: avg·iterations ≤ time < (avg+1)·iterations, and avg ≤ time |
| Benchmarker.TableLineLength | H3.AsymmetricalDecryption/Benchmark/Benchmarker.cs:38-97 | a table line is as long as its cells plus two characters of border before each cell and one at the end |
| Benchmarker.RowCellWidths | H3.AsymmetricalDecryption/Benchmark/Benchmarker.cs:63-103 | when the key size and the time fit their columns, the row cells are 18, 16, 15 and 11 characters wide |
| Benchmarker.RowAlignsWithHeader | H3.AsymmetricalDecryption/Benchmark/Benchmarker.cs:31-103 | such a row has the header's four cell widths, and its line is exactly as long as the header line and the border |
| Benchmarker.BenchmarkKeyGeneration | H3.AsymmetricalDecryption/Benchmark/Benchmarker.cs:105-118 | one million key generations at the key size, then a "Key Generation" row with that iteration count |
| Benchmarker.BenchmarkEncryption | H3.AsymmetricalDecryption/Benchmark/Benchmarker.cs:120-138 | one key, then ten thousand OAEP-SHA256 encryptions of the sample with it, then an "Encryption" row |
| Benchmarker.BenchmarkDecryption | H3.AsymmetricalDecryption/Benchmark/Benchmarker.cs:140-162 | one key, one encryption of the sample, then a thousand decryptions of that ciphertext, then a "Decryption" row; a decryption that throws ends the run there, uncaught |
| Benchmarker.FailureStays | H3.AsymmetricalDecryption/Benchmark/Benchmarker.cs:19-25 | once a table has thrown, later key sizes add no output and no calls |
| Benchmarker.Benchmark | H3.AsymmetricalDecryption/Benchmark/Benchmarker.cs:13-29 | the `foreach` prints the banner, then a header and the three benchmarks for each key size in order, then the closing prompt; an exception ends the run without the prompt |
| Benchmarker.BlockMeasurements | H3.AsymmetricalDecryption/Benchmark/Benchmarker.cs:21-24 | each table has three rows, each with a positive iteration count |
| Benchmarker.Schedule | H3.AsymmetricalDecryption/Benchmark/Benchmarker.cs:17-25 | one table of measurements per visited key size, in order |
| Benchmarker.ScheduleAt | H3.AsymmetricalDecryption/Benchmark/Benchmarker.cs:17-24 | row j of table b is operation j (Key Generation, Encryption, Decryption) at key size b of 1024, 2048, 3072, 4096, 3072, 2048, 1024, with that operation's count (1000000, 10000, 1000) and stopwatch reading 3b+j |
| Benchmarker.BlockPrintsTable | H3.AsymmetricalDecryption/Benchmark/Benchmarker.cs:21-24 | a table whose decryption does not throw prints the header and its three rows |
| Benchmarker.BlocksPrintSchedule | H3.AsymmetricalDecryption/Benchmark/Benchmarker.cs:19-25 | if no decryption throws, the first n key sizes print the first n tables of the schedule |
| Benchmarker.BenchmarkReport | H3.AsymmetricalDecryption/Benchmark/Benchmarker.cs:13-29 | the run fails exactly when decryption throws at one of the key sizes; otherwise it prints the banner, the seven tables and the closing prompt |
| Benchmarker.BlocksFailAt | H3.AsymmetricalDecryption/Benchmark/Benchmarker.cs:19-25 | a table whose decryption throws makes the whole run fail |
| Benchmarker.DecryptionUsesItsOwnCiphertext | H3.AsymmetricalDecryption/Benchmark/Benchmarker.cs:147-156 | every timed decryption uses the key that encrypted the sample once, before the loop, and that encryption's ciphertext |
| Benchmarker.BlockCallCount | H3.AsymmetricalDecryption/Benchmark/Benchmarker.cs:105-162 | a table without failure makes 1000000 + (1 + 10000) + (2 + 1000) library calls |
| Program.Text | H3.AsymmetricalDecryption/Program.cs:17-51 | handing bytes to `Decrypt` prints nothing, and every other event of the loop writes whole lines |
| Program.Lower | H3.AsymmetricalDecryption/Program.cs:23 | `ToLower()` keeps the length and lower-cases each character |
| Program.LowerIsTwo | H3.AsymmetricalDecryption/Program.cs:23 | a menu line lower-cases to "2" exactly when it is "2" |
| Program.Attempt | H3.AsymmetricalDecryption/Program.cs:35-52 | a line that does not decode reports the exception of its first bad token, and `Decrypt` is not called; otherwise the bytes go to `Decrypt` with OAEP-SHA256, and the plaintext is shown as UTF-8 text or the exception is reported |
| Program.BenchmarkChoice | H3.AsymmetricalDecryption/Program.cs:23-27 | a menu line that lower-cases to "2" runs the benchmark and goes back to the menu with the next line, reading no ciphertext, unless the benchmark throws |
| Program.DecryptChoice | H3.AsymmetricalDecryption/Program.cs:14-53 | any other menu line, "1", "3" and arbitrary text included, shows the key and the prompt and reads one ciphertext line for one attempt; only then does "3" end the loop; a failed attempt does not end it |
| Program.InstanceFailureCrashes | H3.AsymmetricalDecryption/Program.cs:30 | if the key holder throws, the program ends at the first menu line other than "2", before the prompt |
| Program.MenuInputs | H3.AsymmetricalDecryption/Program.cs:21-33 | the lines read as menu choices are at most the input lines: after "2" the next line is a menu line, after any other line one ciphertext line is skipped |
| Program.CiphertextThreeIsNoChoice | H3.AsymmetricalDecryption/Program.cs:21-33 | in the input "1", "3" the "3" is ciphertext, not a menu choice |
| Program.NoThreeNoExit | H3.AsymmetricalDecryption/Program.cs:14-33 | if "3" is never read as a menu choice, the loop never exits normally, even if "3" is typed as ciphertext |
| Program.ExitStopsReading | H3.AsymmetricalDecryption/Program.cs:14 | once the loop has exited, no later line is read |
| Program.TryDecrypt | H3.AsymmetricalDecryption/Program.cs:35-52 | the `try` block and its `catch` produce `Attempt` with the held key; the second `Instance` access yields the same object and changes neither the key holder nor the key file |
| Program.BenchmarkRound | H3.AsymmetricalDecryption/Program.cs:25 | benchmark run number n of the session reads its stopwatch through `clock(n)` and is the run `Benchmarker.Benchmark` defines for it |
| Program.DecryptRound | H3.AsymmetricalDecryption/Program.cs:30-52 | after a menu line other than "2": a throwing key holder ends the program right after the menu; otherwise the key and the prompt are shown, and the ciphertext line, if there is one, gets exactly one `Attempt` with the held key; the key holder's outcome is unchanged and an existing key file is kept unchanged; a missing one is at most created, and then holds the new key's XML |
| Program.MenuPass | H3.AsymmetricalDecryption/Program.cs:16-52 | one pass of the loop body is exactly the prefix of `Session` for the remaining lines: it either ends the program (input exhausted or an uncaught exception), exits after "3", or goes on at a later line; an existing key file is kept unchanged; a missing one is at most created, and then holds the new key's XML |
| Program.MenuLoop | H3.AsymmetricalDecryption/Program.cs:12-53 | the `while (input != "3")` loop produces exactly the transcript `Session` defines for the input lines, leaves the key holder's outcome unchanged, and leaves an existing key file unchanged; a missing one is at most created, and then holds the new key's XML |

## Left out

- The RSA primitives are not modelled. Key generation, XML import and export, parameter export, OAEP-SHA256 encryption and decryption (section 7.1 of RFC 8017) are fields of a `Library` value, and every result holds for every such value. Their randomness is also left out: the same inputs give the same key and ciphertext.
- The key file is a `KeyFile` object with a presence flag and a text. Reading and writing the real file, and I/O errors, are not modelled.
- `Stopwatch.ElapsedMilliseconds` is an input: reading 3b+j of benchmark run n is `clock(n)(3b+j)`.
- `Console.Clear`, colours and `ReadKey` pauses are left out because they only affect presentation. `ToString`'s ANSI bold escapes are kept as literal text. The text shown is modelled per event (`Program.Text`). `Program.Text` says only that events end in whole lines; the detailed layout of the key lines is proved in `Encryption.KeyInfoLayout`.
- Program.MenuLoop: `Console.ReadLine` returning null at end of input is modelled as the ending `InputExhausted`. In the program, a null menu line makes `input.ToLower()` throw a `NullReferenceException`, which nobody catches. A null ciphertext line makes `encryptedData.Split` throw inside the `try`; the error is reported, and then the loop goes on to crash at the next menu read, or ends normally when the menu line was "3". The model instead ends with `InputExhausted` right after the prompt.
- HexCodec.ParseToken: `Convert.ToByte` quirks are not modelled. It accepts a `0x` prefix and a leading `+` sign (so "+FF" reads as 255), and the model rejects both. Its specific exception types are not modelled either. Any other token is one failure, whose message is the abstract `parseError(token)`.
- `Encoding.UTF8.GetString` is the abstract library function `utf8Decode`. The sample bytes are written out, and their agreement with the UTF-8 of the sample sentence is proved only because that sentence is ASCII.
- Program.Lower: culture-specific `ToLower` is only modelled on the letters A to Z. This does not affect the menu choice, because only "2" lower-cases to "2".
- Benchmarker.Decimal: `int` key sizes and `long` times are unbounded naturals. Negative elapsed times cannot occur, and overflow of the 32-bit key size is not modelled.
- `Console.WriteLine`'s line end is modelled as "\n" in `Program.Text`, `Benchmarker.Header`, `Benchmarker.Row` and `Benchmarker.BenchmarkRun`. In the program it is `Environment.NewLine`, which is "\r\n" on Windows. The "\n" written inside `ToString`, `PrintTableRow` and `PrintTableHeader` is literal in the program too.
- Encryption in the library is total. Only decryption, parameter export and XML import may throw.
