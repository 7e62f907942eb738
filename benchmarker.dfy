/**
 * The benchmark mode (`Benchmarker`).
 *
 * For each key size of a fixed list it prints one table: a header and three
 * rows, timing key generation, encryption and decryption with a fixed number
 * of library calls each. The stopwatch readings are inputs of the model; the
 * library calls made are recorded, in order, as `Call`s.
 */
module Benchmarker {
  import opened Wrappers
  import opened HexCodec
  import opened RsaLibrary

  // ---------------------------------------------------------------------------
  // The schedule
  // ---------------------------------------------------------------------------

  datatype Operation = KeyGeneration | Encryption | Decryption

  /** The operation column of a row. */
  function Name(op: Operation): string {
    match op
    case KeyGeneration => "Key Generation"
    case Encryption => "Encryption"
    case Decryption => "Decryption"
  }

  /** The number of timed library calls per operation. */
  function Iterations(op: Operation): nat {
    match op
    case KeyGeneration => 1000000
    case Encryption => 10000
    case Decryption => 1000
  }

  /** The rows of one table, in order. */
  const Operations: seq<Operation> := [KeyGeneration, Encryption, Decryption]

  /** The key sizes of the tables, in order. */
  const KeySizes: seq<nat> := [1024, 2048, 3072, 4096, 3072, 2048, 1024]

  /** The sentence both benchmarks encrypt. */
  const SampleText: string := "Sample data for encryption"

  /** `Encoding.UTF8.GetBytes(SampleText)`, written out byte by byte. */
  const SampleData: seq<byte> :=
    [83, 97, 109, 112, 108, 101, 32, 100, 97, 116, 97, 32, 102,
     111, 114, 32, 101, 110, 99, 114, 121, 112, 116, 105, 111, 110]

  /** The bytes are the character codes of the sentence. Every code is below
      128, so the sentence is ASCII and the bytes are its UTF-8 encoding. */
  lemma SampleDataIsUtf8OfSampleText()
    ensures |SampleData| == |SampleText|
    ensures forall i :: 0 <= i < |SampleText| ==> SampleData[i] == SampleText[i] as int < 128
  {
  }

  /** One library call. */
  datatype Call =
    | Create(keySize: nat)
    | Encrypt(key: Key, data: seq<byte>, padding: Padding)
    | Decrypt(key: Key, data: seq<byte>, padding: Padding)

  /** `n` copies of `x`. */
  function Repeat<T>(x: T, n: nat): (r: seq<T>)
    ensures |r| == n
    ensures forall i :: 0 <= i < n ==> r[i] == x
  {
    seq(n, _ => x)
  }

  // ---------------------------------------------------------------------------
  // Text of a table
  // ---------------------------------------------------------------------------

  function Max(a: nat, b: nat): nat {
    if a < b then b else a
  }

  function Spaces(n: nat): (s: string)
    ensures |s| == n && forall i :: 0 <= i < n ==> s[i] == ' '
  {
    if n == 0 then "" else Spaces(n - 1) + " "
  }

  /** `s.PadRight(width)`: spaces added on the right up to `width`; a longer
      `s` is kept whole. */
  function PadRight(s: string, width: nat): (r: string)
    ensures |r| == Max(|s|, width)
    ensures r[..|s|] == s
    ensures forall i :: |s| <= i < |r| ==> r[i] == ' '
  {
    if |s| < width then s + Spaces(width - |s|) else s
  }

  /** `s.PadLeft(width)`: spaces added on the left up to `width`; a longer
      `s` is kept whole. */
  function PadLeft(s: string, width: nat): (r: string)
    ensures |r| == Max(|s|, width)
    ensures r[|r| - |s|..] == s
    ensures forall i :: 0 <= i < |r| - |s| ==> r[i] == ' '
  {
    if |s| < width then Spaces(width - |s|) + s else s
  }

  predicate IsDigit(c: char) {
    '0' <= c <= '9'
  }

  /** `n.ToString()` for a non-negative integer: its decimal digits, without
      leading zeros. */
  function Decimal(n: nat): (s: string)
    ensures |s| >= 1
    ensures forall i :: 0 <= i < |s| ==> IsDigit(s[i])
    ensures |s| > 1 ==> s[0] != '0'
  {
    if n < 10 then [('0' as int + n) as char] else Decimal(n / 10) + [('0' as int + n % 10) as char]
  }

  /** The number a string of decimal digits spells. */
  function DecimalValue(s: string): nat
    requires forall i :: 0 <= i < |s| ==> IsDigit(s[i])
    decreases |s|
  {
    if |s| == 0 then 0
    else
      assert IsDigit(s[|s| - 1]);
      DecimalValue(s[..|s| - 1]) * 10 + (s[|s| - 1] as int - '0' as int)
  }

  /** The printed number reads back as the number. */
  lemma {:induction false} DecimalRoundTrip(n: nat)
    ensures DecimalValue(Decimal(n)) == n
    decreases n
  {
    var s := Decimal(n);
    if n >= 10 {
      DecimalRoundTrip(n / 10);
      assert s[..|s| - 1] == Decimal(n / 10);
    } else {
      assert s[..0] == [];
    }
  }

  function Pow10(k: nat): (r: nat)
    ensures r >= 1
  {
    if k == 0 then 1 else 10 * Pow10(k - 1)
  }

  /** A number below 10^k takes at most k digits. */
  lemma {:induction false} DecimalLength(n: nat, k: nat)
    requires 1 <= k && n < Pow10(k)
    ensures |Decimal(n)| <= k
    decreases k
  {
    if n >= 10 {
      DecimalLength(n / 10, k - 1);
    }
  }

  /** The average column: `time / iterations`, which for a non-negative time
      truncates towards zero. */
  function Average(time: nat, iterations: nat): (avg: nat)
    requires iterations > 0
    ensures avg * iterations <= time < (avg + 1) * iterations
    ensures avg <= time
  {
    time / iterations
  }

  /** The rule above, between and below the header. */
  const Border: string := "+-------------------+-----------------+----------------+------------+"

  /** The cells of the header line. */
  const HeaderCells: seq<string> := ["Operation         ", "Key Size (bits) ", "Avg time (ms)  ", "Time (ms)  "]

  /** "| " before every cell and "|" at the end. */
  function TableLine(cells: seq<string>): string
    decreases |cells|
  {
    if |cells| == 0 then "|" else "| " + cells[0] + TableLine(cells[1..])
  }

  /** The sum of the widths of `cells`. */
  function Width(cells: seq<string>): nat
    decreases |cells|
  {
    if |cells| == 0 then 0 else |cells[0]| + Width(cells[1..])
  }

  lemma {:induction false} TableLineLength(cells: seq<string>)
    ensures |TableLine(cells)| == Width(cells) + 2 * |cells| + 1
    decreases |cells|
  {
    if |cells| > 0 {
      TableLineLength(cells[1..]);
    }
  }

  /** One timing result. */
  datatype Measurement = Measurement(operation: Operation, keySize: nat, time: nat, iterations: nat)

  /** The cells of a row, each followed by one space as `PrintTableRow` writes it. */
  function RowCells(m: Measurement): seq<string>
    requires m.iterations > 0
  {
    [ PadRight(Name(m.operation), 17) + " ",
      PadRight(Decimal(m.keySize), 15) + " ",
      PadLeft(Decimal(Average(m.time, m.iterations)), 14) + " ",
      PadLeft(Decimal(m.time), 10) + " " ]
  }

  /** `PrintTableHeader`. */
  function Header(): string {
    Border + "\n" + TableLine(HeaderCells) + "\n" + Border + "\n"
  }

  /** `PrintTableRow`. */
  function Row(m: Measurement): string
    requires m.iterations > 0
  {
    TableLine(RowCells(m)) + "\n" + Border + "\n"
  }

  lemma WidthOfFour(cells: seq<string>)
    requires |cells| == 4
    ensures Width(cells) == |cells[0]| + |cells[1]| + |cells[2]| + |cells[3]|
  {
    assert cells[3..][1..] == [];
    assert Width(cells[3..]) == |cells[3]|;
    assert cells[2..][1..] == cells[3..];
    assert Width(cells[2..]) == |cells[2]| + |cells[3]|;
    assert cells[1..][1..] == cells[2..];
    assert Width(cells[1..]) == |cells[1]| + |cells[2]| + |cells[3]|;
  }

  /** When the numbers fit their columns (a key size below 10^15 and a total
      below 10^10 ms), a row's cells are 18, 16, 15 and 11 characters wide. */
  lemma RowCellWidths(m: Measurement)
    requires m.iterations > 0 && m.keySize < Pow10(15) && m.time < Pow10(10)
    ensures var cells := RowCells(m);
      |cells| == 4 && |cells[0]| == 18 && |cells[1]| == 16 && |cells[2]| == 15 && |cells[3]| == 11
  {
    DecimalLength(m.keySize, 15);
    DecimalLength(m.time, 10);
    assert Pow10(10) <= Pow10(14);
    DecimalLength(Average(m.time, m.iterations), 14);
  }

  /** Such a row has the header's cell widths, and the row line is exactly
      as long as the header line and the border. */
  lemma RowAlignsWithHeader(m: Measurement)
    requires m.iterations > 0 && m.keySize < Pow10(15) && m.time < Pow10(10)
    ensures var cells := RowCells(m);
      && |cells| == |HeaderCells| == 4
      && (forall i :: 0 <= i < 4 ==> |cells[i]| == |HeaderCells[i]|)
      && |TableLine(cells)| == |TableLine(HeaderCells)| == |Border|
  {
    var cells := RowCells(m);
    RowCellWidths(m);
    WidthOfFour(cells);
    WidthOfFour(HeaderCells);
    TableLineLength(cells);
    TableLineLength(HeaderCells);
  }

  // ---------------------------------------------------------------------------
  // What a run of the benchmark does
  // ---------------------------------------------------------------------------

  /** Console text written, library calls made, and the exception that ended
      the run early, if any. */
  datatype Run = Run(output: string, calls: seq<Call>, failure: Option<Exception>) {
    /** This run followed by `next`, unless this one ended in an exception. */
    function Then(next: Run): Run {
      if failure.Some? then this else Run(output + next.output, calls + next.calls, next.failure)
    }
  }

  const Nothing: Run := Run("", [], None)

  function Print(text: string): Run {
    Run(text, [], None)
  }

  lemma ThenAssociative(a: Run, b: Run, c: Run)
    ensures a.Then(b).Then(c) == a.Then(b.Then(c))
  {
  }

  /** `BenchmarkKeyGeneration`: one million keys made and dropped, then the row. */
  function KeyGenerationRun(keySize: nat, time: nat): Run {
    Run(Row(Measurement(KeyGeneration, keySize, time, Iterations(KeyGeneration))),
        Repeat(Create(keySize), Iterations(KeyGeneration)), None)
  }

  /** `BenchmarkEncryption`: one key, then ten thousand encryptions of the
      sample with it, then the row. */
  function EncryptionRun(lib: Library, keySize: nat, time: nat): Run {
    var key := lib.generate(keySize);
    Run(Row(Measurement(Encryption, keySize, time, Iterations(Encryption))),
        [Create(keySize)] + Repeat(Encrypt(key, SampleData, OaepSha256), Iterations(Encryption)), None)
  }

  /** `BenchmarkDecryption`: one key, one encryption of the sample before the
      stopwatch starts, then a thousand decryptions of that ciphertext with
      that key, then the row. A decryption that throws ends the run there. */
  function DecryptionRun(lib: Library, keySize: nat, time: nat): Run {
    var key := lib.generate(keySize);
    var ciphertext := lib.encrypt(key, SampleData, OaepSha256);
    var setup := [Create(keySize), Encrypt(key, SampleData, OaepSha256)];
    match lib.decrypt(key, ciphertext, OaepSha256)
    case Failure(e) => Run("", setup + [Decrypt(key, ciphertext, OaepSha256)], Some(e))
    case Success(_) =>
      Run(Row(Measurement(Decryption, keySize, time, Iterations(Decryption))),
          setup + Repeat(Decrypt(key, ciphertext, OaepSha256), Iterations(Decryption)), None)
  }

  /** Whether the decryption benchmark at this key size throws. */
  predicate DecryptionFails(lib: Library, keySize: nat) {
    var key := lib.generate(keySize);
    lib.decrypt(key, lib.encrypt(key, SampleData, OaepSha256), OaepSha256).Failure?
  }

  /** Readings of the stopwatch are numbered 3b, 3b+1, 3b+2 in table b. */
  function Block(lib: Library, clock: nat -> nat, b: nat): Run
    requires b < |KeySizes|
  {
    var keySize := KeySizes[b];
    Print(Header())
      .Then(KeyGenerationRun(keySize, clock(3 * b)))
      .Then(EncryptionRun(lib, keySize, clock(3 * b + 1)))
      .Then(DecryptionRun(lib, keySize, clock(3 * b + 2)))
  }

  /** The first n tables. */
  function Blocks(lib: Library, clock: nat -> nat, n: nat): Run
    requires n <= |KeySizes|
  {
    if n == 0 then Nothing else Blocks(lib, clock, n - 1).Then(Block(lib, clock, n - 1))
  }

  /** `Benchmark()`. */
  function BenchmarkRun(lib: Library, clock: nat -> nat): Run {
    Print("Running benchmarks...\n\n")
      .Then(Blocks(lib, clock, |KeySizes|))
      .Then(Print("Press any key to exit...\n"))
  }

  // ---------------------------------------------------------------------------
  // The methods
  // ---------------------------------------------------------------------------

  method BenchmarkKeyGeneration(keySize: nat, elapsed: nat) returns (r: Run)
    ensures r == KeyGenerationRun(keySize, elapsed)
  {
    var iterations := 1000000;
    var calls: seq<Call> := [];
    for i := 0 to iterations
      invariant calls == Repeat(Create(keySize), i)
    {
      calls := calls + [Create(keySize)];
    }
    r := Run(Row(Measurement(KeyGeneration, keySize, elapsed, iterations)), calls, None);
  }

  method BenchmarkEncryption(lib: Library, keySize: nat, elapsed: nat) returns (r: Run)
    ensures r == EncryptionRun(lib, keySize, elapsed)
  {
    var dataToEncrypt := SampleData;
    var iterations := 10000;
    var rsa := lib.generate(keySize);
    var calls: seq<Call> := [Create(keySize)];
    for i := 0 to iterations
      invariant calls == [Create(keySize)] + Repeat(Encrypt(rsa, dataToEncrypt, OaepSha256), i)
    {
      var encryptedData := lib.encrypt(rsa, dataToEncrypt, OaepSha256);
      calls := calls + [Encrypt(rsa, dataToEncrypt, OaepSha256)];
    }
    r := Run(Row(Measurement(Encryption, keySize, elapsed, iterations)), calls, None);
  }

  method BenchmarkDecryption(lib: Library, keySize: nat, elapsed: nat) returns (r: Run)
    ensures r == DecryptionRun(lib, keySize, elapsed)
  {
    var dataToEncrypt := SampleData;
    var iterations := 1000;
    var rsa := lib.generate(keySize);
    var encryptedData := lib.encrypt(rsa, dataToEncrypt, OaepSha256);
    var calls: seq<Call> := [Create(keySize), Encrypt(rsa, dataToEncrypt, OaepSha256)];
    for i := 0 to iterations
      invariant calls == [Create(keySize), Encrypt(rsa, dataToEncrypt, OaepSha256)]
                         + Repeat(Decrypt(rsa, encryptedData, OaepSha256), i)
      invariant i > 0 ==> lib.decrypt(rsa, encryptedData, OaepSha256).Success?
    {
      var decryptedData := lib.decrypt(rsa, encryptedData, OaepSha256);
      calls := calls + [Decrypt(rsa, encryptedData, OaepSha256)];
      if decryptedData.Failure? {
        return Run("", calls, Some(decryptedData.error));
      }
    }
    r := Run(Row(Measurement(Decryption, keySize, elapsed, iterations)), calls, None);
  }

  /** Once a run has failed, later tables add nothing. */
  lemma {:induction false} FailureStays(lib: Library, clock: nat -> nat, n: nat, m: nat)
    requires n <= m <= |KeySizes| && Blocks(lib, clock, n).failure.Some?
    ensures Blocks(lib, clock, m) == Blocks(lib, clock, n)
    decreases m - n
  {
    if m > n {
      FailureStays(lib, clock, n, m - 1);
    }
  }

  /** `Benchmark()`: a table per key size, in the order of `KeySizes`. An
      exception in a table is not caught: it ends the run, and the closing
      prompt is not printed. */
  method Benchmark(lib: Library, clock: nat -> nat) returns (r: Run)
    ensures r == BenchmarkRun(lib, clock)
  {
    var keySizes := KeySizes;
    var intro := Print("Running benchmarks...\n\n");
    var done := intro;
    for b := 0 to |keySizes|
      invariant done == intro.Then(Blocks(lib, clock, b))
      invariant done.failure.None?
    {
      var keySize := keySizes[b];
      var header := Print(Header());
      var keyGeneration := BenchmarkKeyGeneration(keySize, clock(3 * b));
      var encryption := BenchmarkEncryption(lib, keySize, clock(3 * b + 1));
      var decryption := BenchmarkDecryption(lib, keySize, clock(3 * b + 2));
      var table := header.Then(keyGeneration).Then(encryption).Then(decryption);
      assert table == Block(lib, clock, b);
      ThenAssociative(intro, Blocks(lib, clock, b), table);
      done := done.Then(table);
      if done.failure.Some? {
        FailureStays(lib, clock, b + 1, |keySizes|);
        ThenAssociative(intro, Blocks(lib, clock, |keySizes|), Print("Press any key to exit...\n"));
        return done;
      }
    }
    r := done.Then(Print("Press any key to exit...\n"));
  }

  // ---------------------------------------------------------------------------
  // Properties of the schedule
  // ---------------------------------------------------------------------------

  /** The three measurements of table b: Key Generation, Encryption and
      Decryption, all at `KeySizes[b]`, with stopwatch readings 3b, 3b+1 and
      3b+2 and the fixed iteration counts. */
  function BlockMeasurements(clock: nat -> nat, b: nat): (rows: seq<Measurement>)
    requires b < |KeySizes|
    ensures |rows| == 3 && forall j :: 0 <= j < 3 ==> rows[j].iterations > 0
  {
    [ Measurement(KeyGeneration, KeySizes[b], clock(3 * b), Iterations(KeyGeneration)),
      Measurement(Encryption, KeySizes[b], clock(3 * b + 1), Iterations(Encryption)),
      Measurement(Decryption, KeySizes[b], clock(3 * b + 2), Iterations(Decryption)) ]
  }

  /** Rows that can be printed: three of them, each with a positive count. */
  predicate IsTable(rows: seq<Measurement>) {
    |rows| == 3 && forall j :: 0 <= j < 3 ==> rows[j].iterations > 0
  }

  /** The measurements of the first n tables, table by table. */
  function Schedule(clock: nat -> nat, n: nat): (tables: seq<seq<Measurement>>)
    requires n <= |KeySizes|
    ensures |tables| == n
    ensures forall b :: 0 <= b < n ==> tables[b] == BlockMeasurements(clock, b) && IsTable(tables[b])
  {
    seq(n, b requires 0 <= b < n => BlockMeasurements(clock, b))
  }

  /** The schedule, row by row: row j of table b is operation j of
      `Operations` at key size `KeySizes[b]`, with that operation's iteration
      count and stopwatch reading 3b+j. */
  lemma ScheduleAt(clock: nat -> nat, b: nat, j: nat)
    requires b < |KeySizes| && j < |Operations|
    ensures Schedule(clock, |KeySizes|)[b][j]
      == Measurement(Operations[j], KeySizes[b], clock(3 * b + j), Iterations(Operations[j]))
  {
  }

  /** One printed table: the header and three rows. */
  function Table(rows: seq<Measurement>): string
    requires IsTable(rows)
  {
    Header() + Row(rows[0]) + Row(rows[1]) + Row(rows[2])
  }

  /** The tables, one after the other. */
  function Tables(tables: seq<seq<Measurement>>): string
    requires forall b :: 0 <= b < |tables| ==> IsTable(tables[b])
    decreases |tables|
  {
    if |tables| == 0 then "" else Tables(tables[..|tables| - 1]) + Table(tables[|tables| - 1])
  }

  /** A table whose decryption does not throw prints the header and the
      three rows of its measurements. */
  lemma BlockPrintsTable(lib: Library, clock: nat -> nat, b: nat)
    requires b < |KeySizes| && !DecryptionFails(lib, KeySizes[b])
    ensures Block(lib, clock, b).failure.None?
    ensures Block(lib, clock, b).output == Table(BlockMeasurements(clock, b))
  {
  }

  /** Without a failure, the first n tables print what the first n - 1 and
      then the last one print. */
  lemma BlocksStep(lib: Library, clock: nat -> nat, n: nat)
    requires 0 < n <= |KeySizes|
    requires Blocks(lib, clock, n - 1).failure.None? && Block(lib, clock, n - 1).failure.None?
    ensures Blocks(lib, clock, n).failure.None?
    ensures Blocks(lib, clock, n).output == Blocks(lib, clock, n - 1).output + Block(lib, clock, n - 1).output
  {
  }

  /** The tables of the first n blocks are those of the first n - 1 and then
      the last block's. */
  lemma TablesStep(clock: nat -> nat, n: nat)
    requires 0 < n <= |KeySizes|
    ensures Tables(Schedule(clock, n)) == Tables(Schedule(clock, n - 1)) + Table(BlockMeasurements(clock, n - 1))
  {
    var tables := Schedule(clock, n);
    assert tables[..n - 1] == Schedule(clock, n - 1);
  }

  /** The first n tables, when none of them throws, print the first 3n
      measurements of the schedule. */
  lemma {:induction false} BlocksPrintSchedule(lib: Library, clock: nat -> nat, n: nat)
    requires n <= |KeySizes|
    requires forall b :: 0 <= b < n ==> !DecryptionFails(lib, KeySizes[b])
    ensures Blocks(lib, clock, n).failure.None?
    ensures Blocks(lib, clock, n).output == Tables(Schedule(clock, n))
    decreases n
  {
    if n > 0 {
      BlocksPrintSchedule(lib, clock, n - 1);
      BlockPrintsTable(lib, clock, n - 1);
      BlocksStep(lib, clock, n);
      TablesStep(clock, n);
    }
  }

  /** The whole run: it fails exactly when decryption fails at one of the key
      sizes; otherwise it prints the banner, the seven tables of the schedule
      and the closing prompt. */
  lemma BenchmarkReport(lib: Library, clock: nat -> nat)
    ensures BenchmarkRun(lib, clock).failure.Some? <==> exists b :: 0 <= b < |KeySizes| && DecryptionFails(lib, KeySizes[b])
    ensures BenchmarkRun(lib, clock).failure.None? ==>
      BenchmarkRun(lib, clock).output
        == "Running benchmarks...\n\n" + Tables(Schedule(clock, |KeySizes|)) + "Press any key to exit...\n"
  {
    if forall b :: 0 <= b < |KeySizes| ==> !DecryptionFails(lib, KeySizes[b]) {
      BlocksPrintSchedule(lib, clock, |KeySizes|);
    } else {
      var f :| 0 <= f < |KeySizes| && DecryptionFails(lib, KeySizes[f]);
      BlocksFailAt(lib, clock, f);
    }
  }

  /** A table whose decryption throws makes the run fail from there on. */
  lemma {:induction false} BlocksFailAt(lib: Library, clock: nat -> nat, f: nat)
    requires f < |KeySizes| && DecryptionFails(lib, KeySizes[f])
    ensures Blocks(lib, clock, |KeySizes|).failure.Some?
  {
    if Blocks(lib, clock, f).failure.None? {
      assert Blocks(lib, clock, f + 1).failure.Some?;
      FailureStays(lib, clock, f + 1, |KeySizes|);
    } else {
      FailureStays(lib, clock, f, |KeySizes|);
    }
  }

  /** Every decryption of a decryption benchmark uses the key that encrypted
      the sample, once, before the timed loop, and that encryption's
      ciphertext. */
  lemma DecryptionUsesItsOwnCiphertext(lib: Library, keySize: nat, time: nat)
    ensures var calls := DecryptionRun(lib, keySize, time).calls;
      && |calls| >= 3
      && calls[0] == Create(keySize)
      && calls[1] == Encrypt(lib.generate(keySize), SampleData, OaepSha256)
      && forall i :: 2 <= i < |calls| ==>
           calls[i] == Decrypt(calls[1].key, lib.encrypt(calls[1].key, calls[1].data, OaepSha256), OaepSha256)
  {
  }

  /** A run that has not failed is followed by the next one: the calls add up. */
  lemma ThenCalls(a: Run, b: Run)
    requires a.failure.None?
    ensures a.Then(b).calls == a.calls + b.calls && a.Then(b).failure == b.failure
  {
  }

  lemma KeyGenerationCalls(keySize: nat, time: nat)
    ensures |KeyGenerationRun(keySize, time).calls| == 1000000 && KeyGenerationRun(keySize, time).failure.None?
  {
  }

  lemma EncryptionCalls(lib: Library, keySize: nat, time: nat)
    ensures |EncryptionRun(lib, keySize, time).calls| == 1 + 10000 && EncryptionRun(lib, keySize, time).failure.None?
  {
  }

  lemma DecryptionCalls(lib: Library, keySize: nat, time: nat)
    requires !DecryptionFails(lib, keySize)
    ensures |DecryptionRun(lib, keySize, time).calls| == 2 + 1000 && DecryptionRun(lib, keySize, time).failure.None?
  {
    var key := lib.generate(keySize);
    var ciphertext := lib.encrypt(key, SampleData, OaepSha256);
    assert lib.decrypt(key, ciphertext, OaepSha256).Success?;
    assert DecryptionRun(lib, keySize, time).calls
      == [Create(keySize), Encrypt(key, SampleData, OaepSha256)] + Repeat(Decrypt(key, ciphertext, OaepSha256), Iterations(Decryption));
  }

  /** The call counts of one table when nothing fails: a million key
      generations, then one more key and ten thousand encryptions, then one
      more key, one encryption and a thousand decryptions. */
  lemma BlockCallCount(lib: Library, clock: nat -> nat, b: nat)
    requires b < |KeySizes| && !DecryptionFails(lib, KeySizes[b])
    ensures |Block(lib, clock, b).calls| == 1000000 + (1 + 10000) + (2 + 1000)
    ensures Block(lib, clock, b).failure.None?
  {
    var keySize := KeySizes[b];
    var header := Print(Header());
    var keyGeneration := KeyGenerationRun(keySize, clock(3 * b));
    var encryption := EncryptionRun(lib, keySize, clock(3 * b + 1));
    var decryption := DecryptionRun(lib, keySize, clock(3 * b + 2));
    KeyGenerationCalls(keySize, clock(3 * b));
    EncryptionCalls(lib, keySize, clock(3 * b + 1));
    DecryptionCalls(lib, keySize, clock(3 * b + 2));
    ThenCalls(header, keyGeneration);
    ThenCalls(header.Then(keyGeneration), encryption);
    ThenCalls(header.Then(keyGeneration).Then(encryption), decryption);
    assert Block(lib, clock, b) == header.Then(keyGeneration).Then(encryption).Then(decryption);
  }
}
