/**
 * The console program (`Program.Main`): a menu loop over the lines the user
 * types.
 *
 * Each pass shows the menu and reads a line. A line that lower-cases to "2"
 * runs the benchmark and goes back to the menu. Any other line shows the key,
 * reads a ciphertext line, and tries to decode and decrypt it; a failure is
 * reported and the loop goes on. The loop test `input != "3"` is at the top,
 * so a "3" still gets its decryption attempt before the program ends.
 *
 * The input is a finite list of lines; what the program does is a
 * `Transcript`: the events it shows, in order, and how it ends.
 */
module Program {
  import opened Wrappers
  import opened HexCodec
  import opened RsaLibrary
  import opened Encryption
  import Benchmarker

  // ---------------------------------------------------------------------------
  // What the program shows
  // ---------------------------------------------------------------------------

  datatype Event =
    | ShowMenu                          // the three menu lines
    | RanBenchmark(run: Benchmarker.Run) // a whole benchmark run
    | ShowKey(parameters: Parameters)   // `RSAEncryptor.Instance.ToString()` of this key
    | PromptCiphertext                  // "Enter data to decrypt ..."
    | Decrypting(data: seq<byte>)       // the bytes handed to `Decrypt`
    | ShowPlaintext(text: string)       // the decrypted text and the pause prompt
    | ShowError(message: string)        // the caught exception's message

  /** How `Main` ends: the loop test sees "3", the input runs out, or an
      exception nobody catches escapes. */
  datatype Ending = Exited | InputExhausted | Crashed(exception: Exception)

  datatype Transcript = Transcript(events: seq<Event>, ending: Ending)

  /** `events` shown before the transcript `t`. */
  function Prepend(events: seq<Event>, t: Transcript): Transcript {
    Transcript(events + t.events, t.ending)
  }

  /** The console text of an event. Handing bytes to `Decrypt` prints
      nothing; every other event of the loop itself writes whole lines. */
  function Text(e: Event): (text: string)
    ensures e.Decrypting? ==> text == ""
    ensures !e.Decrypting? && !e.RanBenchmark? ==> |text| > 0 && text[|text| - 1] == '\n'
  {
    match e
    case ShowMenu => "1. Decrypt data\n2. Run benchmarks\n3. Exit\n"
    case RanBenchmark(run) => run.output
    case ShowKey(parameters) => KeyInfo(parameters) + "\n"
    case PromptCiphertext => "Enter data to decrypt (or exit to quit the program): \n"
    case Decrypting(_) => ""
    case ShowPlaintext(text) => text + "\nPress any key to continue . . .\n"
    case ShowError(message) =>
      "Error while decrypting data: " + message
      + "\nPlease pretend we're logging the error message and not printing it to console\n"
  }

  // ---------------------------------------------------------------------------
  // The menu choice
  // ---------------------------------------------------------------------------

  function LowerChar(c: char): char {
    if 'A' <= c <= 'Z' then (c as int - 'A' as int + 'a' as int) as char else c
  }

  /** `ToLower()` on the letters A to Z; other characters are kept. */
  function Lower(s: string): (r: string)
    ensures |r| == |s| && forall i :: 0 <= i < |s| ==> r[i] == LowerChar(s[i])
  {
    seq(|s|, i requires 0 <= i < |s| => LowerChar(s[i]))
  }

  /** Lower-casing changes nothing for the choice: a line lower-cases to "2"
      exactly when it is "2". */
  lemma LowerIsTwo(s: string)
    ensures Lower(s) == "2" <==> s == "2"
  {
    if Lower(s) == "2" {
      assert LowerChar(s[0]) == '2';
    }
  }

  // ---------------------------------------------------------------------------
  // One decryption attempt
  // ---------------------------------------------------------------------------

  /** The `try` block and its `catch`, for the ciphertext line `line` and the
      key `key`: decode the line; on a token that is not a byte, report the
      exception `Convert.ToByte` throws and call nothing; otherwise hand the
      bytes to `Decrypt` and show the plaintext as UTF-8 text, or report the
      exception `Decrypt` throws. */
  function Attempt(lib: Library, key: Key, line: string): (events: seq<Event>)
    ensures Decode(line).None? ==>
      events == [ShowError(lib.parseError(Split(line, Dash)[FirstUnparsable(Split(line, Dash))]).message)]
    ensures Decode(line).Some? ==>
      |events| == 2 && events[0] == Decrypting(Decode(line).value)
      && events[1] == (match lib.decrypt(key, Decode(line).value, OaepSha256)
                       case Success(plain) => ShowPlaintext(lib.utf8Decode(plain))
                       case Failure(e) => ShowError(e.message))
  {
    match Decode(line)
    case None =>
      var tokens := Split(line, Dash);
      [ShowError(lib.parseError(tokens[FirstUnparsable(tokens)]).message)]
    case Some(bytes) =>
      match lib.decrypt(key, bytes, OaepSha256)
      case Failure(e) => [Decrypting(bytes), ShowError(e.message)]
      case Success(plain) => [Decrypting(bytes), ShowPlaintext(lib.utf8Decode(plain))]
  }

  // ---------------------------------------------------------------------------
  // The whole session
  // ---------------------------------------------------------------------------

  /** What `Main` does with the remaining input `lines`, when every access to
      `RSAEncryptor.Instance` yields `instance` and benchmark run number `runs`
      is `benchmarks(runs)`. */
  function Session(lib: Library, instance: Result<Loaded, Exception>, benchmarks: nat -> Benchmarker.Run,
                   runs: nat, lines: seq<string>): Transcript
    decreases |lines|
  {
    if |lines| == 0 then Transcript([ShowMenu], InputExhausted)
    else
      var input := lines[0];
      if Lower(input) == "2" then
        var run := benchmarks(runs);
        if run.failure.Some? then Transcript([ShowMenu, RanBenchmark(run)], Crashed(run.failure.value))
        else Prepend([ShowMenu, RanBenchmark(run)], Session(lib, instance, benchmarks, runs + 1, lines[1..]))
      else if instance.Failure? then Transcript([ShowMenu], Crashed(instance.error))
      else
        var shown := [ShowMenu, ShowKey(instance.value.parameters), PromptCiphertext];
        if |lines| == 1 then Transcript(shown, InputExhausted)
        else
          var attempted := shown + Attempt(lib, instance.value.key, lines[1]);
          if input == "3" then Transcript(attempted, Exited)
          else Prepend(attempted, Session(lib, instance, benchmarks, runs, lines[2..]))
  }

  lemma PrependPrepend(a: seq<Event>, b: seq<Event>, t: Transcript)
    ensures Prepend(a, Prepend(b, t)) == Prepend(a + b, t)
  {
    assert a + (b + t.events) == a + b + t.events;
  }

  /** A menu line that lower-cases to "2" (which is only "2") runs the
      benchmark, reads no ciphertext, and goes back to the menu with the next
      line, unless the benchmark throws. */
  lemma BenchmarkChoice(lib: Library, instance: Result<Loaded, Exception>, benchmarks: nat -> Benchmarker.Run,
                        runs: nat, lines: seq<string>)
    requires |lines| > 0 && Lower(lines[0]) == "2"
    ensures var run := benchmarks(runs);
      Session(lib, instance, benchmarks, runs, lines)
        == if run.failure.Some? then Transcript([ShowMenu, RanBenchmark(run)], Crashed(run.failure.value))
           else Prepend([ShowMenu, RanBenchmark(run)], Session(lib, instance, benchmarks, runs + 1, lines[1..]))
  {
  }

  /** Any other menu line, "3" and arbitrary text included, shows the key and
      the prompt and reads one ciphertext line, which gets one decryption
      attempt. Only then does "3" end the loop; any other line goes back to
      the menu with the line after the ciphertext. */
  lemma DecryptChoice(lib: Library, loaded: Loaded, benchmarks: nat -> Benchmarker.Run, runs: nat, lines: seq<string>)
    requires |lines| > 1 && lines[0] != "2"
    ensures var attempted := [ShowMenu, ShowKey(loaded.parameters), PromptCiphertext]
                             + Attempt(lib, loaded.key, lines[1]);
      Session(lib, Success(loaded), benchmarks, runs, lines)
        == if lines[0] == "3" then Transcript(attempted, Exited)
           else Prepend(attempted, Session(lib, Success(loaded), benchmarks, runs, lines[2..]))
  {
    LowerIsTwo(lines[0]);
  }

  /** A key holder that threw ends the program at the first menu line other
      than "2", before the prompt. */
  lemma InstanceFailureCrashes(lib: Library, x: Exception, benchmarks: nat -> Benchmarker.Run, runs: nat, lines: seq<string>)
    requires |lines| > 0 && lines[0] != "2"
    ensures Session(lib, Failure(x), benchmarks, runs, lines) == Transcript([ShowMenu], Crashed(x))
  {
    LowerIsTwo(lines[0]);
  }

  /** The lines the loop reads as menu choices, in order: after "2" the next
      line is a menu line again; after any other line, the line after it is
      ciphertext and the one after that is the next menu line. */
  function MenuInputs(lines: seq<string>): (menus: seq<string>)
    ensures |menus| <= |lines|
    decreases |lines|
  {
    if |lines| == 0 then []
    else if lines[0] == "2" then [lines[0]] + MenuInputs(lines[1..])
    else if |lines| == 1 then [lines[0]]
    else [lines[0]] + MenuInputs(lines[2..])
  }

  /** Without "3" as a menu choice the loop never exits normally: it runs out
      of input or crashes. A "3" typed only as ciphertext does not end it. */
  lemma {:induction false} NoThreeNoExit(lib: Library, instance: Result<Loaded, Exception>,
                                          benchmarks: nat -> Benchmarker.Run, runs: nat, lines: seq<string>)
    requires "3" !in MenuInputs(lines)
    ensures Session(lib, instance, benchmarks, runs, lines).ending != Exited
    decreases |lines|
  {
    if |lines| > 0 {
      LowerIsTwo(lines[0]);
      assert MenuInputs(lines)[0] == lines[0];
      if lines[0] == "2" {
        assert MenuInputs(lines) == [lines[0]] + MenuInputs(lines[1..]);
        NoThreeNoExit(lib, instance, benchmarks, runs + 1, lines[1..]);
      } else if |lines| > 1 {
        assert MenuInputs(lines) == [lines[0]] + MenuInputs(lines[2..]);
        NoThreeNoExit(lib, instance, benchmarks, runs, lines[2..]);
      }
    }
  }

  /** "3" typed as ciphertext only, as in ["1", "3"], is not a menu choice. */
  lemma CiphertextThreeIsNoChoice()
    ensures MenuInputs(["1", "3"]) == ["1"]
  {
  }

  /** Once the loop has exited, later input is never read: the session over
      a longer input is the same. */
  lemma {:induction false} ExitStopsReading(lib: Library, instance: Result<Loaded, Exception>,
                                             benchmarks: nat -> Benchmarker.Run, runs: nat, lines: seq<string>, more: seq<string>)
    requires Session(lib, instance, benchmarks, runs, lines).ending == Exited
    ensures Session(lib, instance, benchmarks, runs, lines + more) == Session(lib, instance, benchmarks, runs, lines)
    decreases |lines|
  {
    var all := lines + more;
    assert all[0] == lines[0];
    LowerIsTwo(lines[0]);
    if lines[0] == "2" {
      assert all[1..] == lines[1..] + more;
      BenchmarkChoice(lib, instance, benchmarks, runs, lines);
      BenchmarkChoice(lib, instance, benchmarks, runs, all);
      ExitStopsReading(lib, instance, benchmarks, runs + 1, lines[1..], more);
    } else if instance.Success? {
      assert all[1] == lines[1];
      DecryptChoice(lib, instance.value, benchmarks, runs, lines);
      DecryptChoice(lib, instance.value, benchmarks, runs, all);
      if lines[0] != "3" {
        assert all[2..] == lines[2..] + more;
        ExitStopsReading(lib, instance, benchmarks, runs, lines[2..], more);
      }
    }
  }

  /** The `try` block and its `catch`, once `Instance` has been built: the
      events are those of `Attempt` with the held key, and a second
      `Instance` access yields the same object. */
  method TryDecrypt(holder: EncryptorInstance, encryptedData: string) returns (events: seq<Event>)
    requires holder.Valid() && holder.slot.Ready?
    modifies holder, holder.file
    ensures holder.Valid() && holder.slot == old(holder.slot) && holder.Outcome() == old(holder.Outcome())
    ensures unchanged(holder.file)
    ensures events == Attempt(holder.lib, holder.slot.encryptor.State().key, encryptedData)
  {
    var lib := holder.lib;
    var bytes := Decode(encryptedData);
    if bytes.None? {
      var tokens := Split(encryptedData, Dash);
      events := [ShowError(lib.parseError(tokens[FirstUnparsable(tokens)]).message)];
    } else {
      var encryptor := holder.Instance();
      var decryptedData := encryptor.value.Decrypt(bytes.value, OaepSha256);
      if decryptedData.Success? {
        events := [Decrypting(bytes.value), ShowPlaintext(lib.utf8Decode(decryptedData.value))];
      } else {
        events := [Decrypting(bytes.value), ShowError(decryptedData.error.message)];
      }
    }
  }

  /** A pass of the loop for the menu line "2": benchmark run number `runs`. */
  method BenchmarkRound(lib: Library, clock: nat -> nat -> nat, runs: nat) returns (run: Benchmarker.Run)
    ensures run == BenchmarkRuns(lib, clock)(runs)
  {
    run := Benchmarker.Benchmark(lib, clock(runs));
  }

  /** A pass of the loop for a menu line other than "2", after that line:
      `Instance` and the key display, the ciphertext read at `pos`, if there
      is one, and the attempt. The pass stops the program when `Instance`
      throws or when the input has run out. */
  method DecryptRound(holder: EncryptorInstance, lines: seq<string>, pos: nat, ghost instance: Result<Loaded, Exception>)
    returns (pass: seq<Event>, stop: Option<Ending>)
    requires holder.Valid() && holder.Outcome() == instance && pos <= |lines|
    modifies holder, holder.file
    ensures holder.Valid() && holder.Outcome() == instance
    ensures holder.FileKept(old(holder.file.present), old(holder.file.contents))
    ensures instance.Failure? ==> pass == [ShowMenu] && stop == Some(Crashed(instance.error))
    ensures instance.Success? && pos == |lines| ==>
      pass == [ShowMenu, ShowKey(instance.value.parameters), PromptCiphertext] && stop == Some(InputExhausted)
    ensures instance.Success? && pos < |lines| ==>
      && pass == [ShowMenu, ShowKey(instance.value.parameters), PromptCiphertext]
                 + Attempt(holder.lib, instance.value.key, lines[pos])
      && stop.None?
  {
    var encryptor := holder.Instance();
    if encryptor.Failure? {
      return [ShowMenu], Some(Crashed(encryptor.error));
    }
    pass := [ShowMenu, ShowKey(encryptor.value.State().parameters), PromptCiphertext];
    if pos == |lines| {
      return pass, Some(InputExhausted);
    }
    var encryptedData := lines[pos];
    var tail := TryDecrypt(holder, encryptedData);
    pass := pass + tail;
    stop := None;
  }

  /** Run number n of the benchmark reads its stopwatch through `clock(n)`. */
  function BenchmarkRuns(lib: Library, clock: nat -> nat -> nat): nat -> Benchmarker.Run {
    (n: nat) => Benchmarker.BenchmarkRun(lib, clock(n))
  }

  /** One pass of the loop, from the menu at line `pos`: show the menu, read
      the menu line and act on it. `stop` is the ending when the pass ends the
      program before the loop test: the input runs out, or an exception
      escapes. Otherwise the pass is what `Session` shows for the remaining
      input before it goes on at line `next` with `nextRuns` benchmark runs
      done, or, after a "3", before it exits. */
  method MenuPass(holder: EncryptorInstance, clock: nat -> nat -> nat, lines: seq<string>, pos: nat, runs: nat,
                  ghost instance: Result<Loaded, Exception>)
    returns (input: string, pass: seq<Event>, stop: Option<Ending>, next: nat, nextRuns: nat)
    requires holder.Valid() && holder.Outcome() == instance && pos <= |lines|
    modifies holder, holder.file
    ensures holder.Valid() && holder.Outcome() == instance
    ensures holder.FileKept(old(holder.file.present), old(holder.file.contents))
    ensures stop.None? ==> pos < next <= |lines|
    ensures var session := Session(holder.lib, instance, BenchmarkRuns(holder.lib, clock), runs, lines[pos..]);
      && (stop.Some? ==> session == Transcript(pass, stop.value))
      && (stop.None? && input == "3" ==> session == Transcript(pass, Exited))
      && (stop.None? && input != "3" ==>
            session == Prepend(pass, Session(holder.lib, instance, BenchmarkRuns(holder.lib, clock), nextRuns, lines[next..])))
  {
    var lib := holder.lib;
    ghost var benchmarks := BenchmarkRuns(lib, clock);
    ghost var rest := lines[pos..];
    if pos == |lines| {
      return "", [ShowMenu], Some(InputExhausted), pos, runs;
    }
    input := lines[pos];
    next := pos + 1;
    nextRuns := runs;
    assert rest[1..] == lines[next..];
    LowerIsTwo(input);

    if Lower(input) == "2" {
      var run := BenchmarkRound(lib, clock, runs);
      BenchmarkChoice(lib, instance, benchmarks, runs, rest);
      pass := [ShowMenu, RanBenchmark(run)];
      if run.failure.Some? {
        stop := Some(Crashed(run.failure.value));
      } else {
        stop := None;
        nextRuns := runs + 1;
        assert input != "3";
      }
      return;
    }

    pass, stop := DecryptRound(holder, lines, next, instance);
    if stop.None? {
      next := next + 1;
      assert rest[2..] == lines[next..];
      DecryptChoice(lib, instance.value, benchmarks, runs, rest);
    } else if instance.Failure? {
      InstanceFailureCrashes(lib, instance.error, benchmarks, runs, rest);
    }
  }

  /** `Main`: the loop itself, over the lines `lines`, with the key holder
      `holder`. */
  method MenuLoop(lines: seq<string>, holder: EncryptorInstance, clock: nat -> nat -> nat) returns (t: Transcript)
    requires holder.Valid()
    modifies holder, holder.file
    ensures holder.Valid() && holder.Outcome() == old(holder.Outcome())
    ensures t == Session(holder.lib, old(holder.Outcome()), BenchmarkRuns(holder.lib, clock), 0, lines)
    // an existing key file is never changed; a missing one is at most created, holding the new key
    ensures holder.FileKept(old(holder.file.present), old(holder.file.contents))
  {
    var lib := holder.lib;
    ghost var instance := holder.Outcome();
    ghost var filePresent, fileContents := holder.file.present, holder.file.contents;
    ghost var benchmarks := BenchmarkRuns(lib, clock);
    ghost var whole := Session(lib, instance, benchmarks, 0, lines);
    var input := "";
    var pos := 0;
    var runs := 0;
    var events: seq<Event> := [];
    while input != "3"
      invariant 0 <= pos <= |lines|
      invariant holder.Valid() && holder.Outcome() == instance
      invariant holder.FileKept(filePresent, fileContents)
      invariant input != "3" ==> whole == Prepend(events, Session(lib, instance, benchmarks, runs, lines[pos..]))
      invariant input == "3" ==> whole == Transcript(events, Exited)
      decreases |lines| - pos
    {
      var pass, stop, next, nextRuns;
      input, pass, stop, next, nextRuns := MenuPass(holder, clock, lines, pos, runs, instance);
      if stop.Some? {
        return Transcript(events + pass, stop.value);
      }
      if input != "3" {
        PrependPrepend(events, pass, Session(lib, instance, benchmarks, nextRuns, lines[next..]));
      }
      events, pos, runs := events + pass, next, nextRuns;
    }
    t := Transcript(events, Exited);
  }
}
