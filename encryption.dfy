/**
 * The process-wide RSA key holder (`RSAEncryptor`).
 *
 * On first use of `RSAEncryptor.Instance` a single object is built: it loads
 * the key from `private_key.xml` if that file exists, and otherwise makes a
 * 2048-bit key and writes it there; then it copies the eight key components
 * out of the library. The object shows those components as text and forwards
 * decryption to the library.
 */
module Encryption {
  import opened Wrappers
  import opened HexCodec
  import opened RsaLibrary

  /** The key size set when no key file exists. */
  const DefaultKeySize: nat := 2048

  /** The message of the one exception a failed parameter export becomes. */
  const ParametersError: string := "Error while getting RSA parameters"

  /** The key file `private_key.xml`: whether it exists and, if so, its text. */
  class KeyFile {
    var present: bool
    var contents: string

    constructor (present: bool, contents: string)
      ensures this.present == present && this.contents == contents
    {
      this.present := present;
      this.contents := contents;
    }

    /** `File.WriteAllText`: afterwards the file exists and holds `text`. */
    method WriteAllText(text: string)
      modifies this
      ensures present && contents == text
    {
      present := true;
      contents := text;
    }
  }

  /** What a successful construction holds: the RSA object and its components. */
  datatype Loaded = Loaded(key: Key, parameters: Parameters)

  // ---------------------------------------------------------------------------
  // Load or create
  // ---------------------------------------------------------------------------

  /** The outcome of the constructor, given whether the key file exists and
      what it holds. */
  function Construction(lib: Library, filePresent: bool, contents: string): (r: Result<Loaded, Exception>)
    // an existing file is the key's only source, and an absent one means a new 2048-bit key
    ensures r.Success? && filePresent ==> lib.fromXml(contents) == Success(r.value.key)
    ensures r.Success? && !filePresent ==> r.value.key == lib.generate(DefaultKeySize)
    // the public components come from the public export, the private ones from the private export
    ensures r.Success? ==>
      && lib.exportParameters(r.value.key, false).Success? && lib.exportParameters(r.value.key, true).Success?
      && r.value.parameters.exponent == lib.exportParameters(r.value.key, false).value.exponent
      && r.value.parameters.modulus == lib.exportParameters(r.value.key, false).value.modulus
      && var priv := lib.exportParameters(r.value.key, true).value;
      && r.value.parameters.d == priv.d && r.value.parameters.dp == priv.dp && r.value.parameters.dq == priv.dq
      && r.value.parameters.inverseQ == priv.inverseQ && r.value.parameters.p == priv.p && r.value.parameters.q == priv.q
    // once the key is there, construction fails exactly when an export fails
    ensures (!filePresent || lib.fromXml(contents).Success?) ==>
      var key := if filePresent then lib.fromXml(contents).value else lib.generate(DefaultKeySize);
      (r.Success? <==> lib.exportParameters(key, false).Success? && lib.exportParameters(key, true).Success?)
    // a key that cannot be read fails as the library says; any export failure is one wrapped exception
    ensures r.Failure? && filePresent && lib.fromXml(contents).Failure? ==> r.error == lib.fromXml(contents).error
    ensures r.Failure? && (filePresent ==> lib.fromXml(contents).Success?) ==> r.error == Exception(ParametersError)
  {
    var key := if filePresent then lib.fromXml(contents) else Success(lib.generate(DefaultKeySize));
    if key.Failure? then Failure(key.error)
    else
      var pub := lib.exportParameters(key.value, false);
      var priv := lib.exportParameters(key.value, true);
      if pub.Failure? || priv.Failure? then Failure(Exception(ParametersError))
      else
        Success(Loaded(key.value, Parameters(
          pub.value.exponent, pub.value.modulus,
          priv.value.d, priv.value.dp, priv.value.dq, priv.value.inverseQ, priv.value.p, priv.value.q)))
  }

  /** A second start after the first one created the key file loads that file
      and ends up with the first start's key and components, provided the
      library reads back what it wrote. The second start runs on a library
      `later` that shares XML import and export and parameter export with the
      first start's `earlier` but may generate other keys, so the key can only
      have come from the file. */
  lemma SecondStartLoadsSameKey(earlier: Library, later: Library, contents: string)
    requires later.fromXml == earlier.fromXml && later.toXml == earlier.toXml
    requires later.exportParameters == earlier.exportParameters
    requires earlier.fromXml(earlier.toXml(earlier.generate(DefaultKeySize), true)) == Success(earlier.generate(DefaultKeySize))
    ensures Construction(later, true, earlier.toXml(earlier.generate(DefaultKeySize), true))
         == Construction(earlier, false, contents)
  {
  }

  // ---------------------------------------------------------------------------
  // ToString
  // ---------------------------------------------------------------------------

  /** Bold on an ANSI terminal. */
  function Bold(s: string): string {
    "\U{1B}[1m" + s + "\U{1B}[22m"
  }

  /** The labels of the components, in display order. */
  const Labels: seq<string> := ["Exponent", "Modulus", "D", "DP", "DQ", "InverseQ", "P", "Q"]

  /** The components, in the same order as `Labels`. */
  function Components(p: Parameters): (cs: seq<seq<byte>>)
    ensures |cs| == |Labels|
  {
    [p.exponent, p.modulus, p.d, p.dp, p.dq, p.inverseQ, p.p, p.q]
  }

  /** One tab-indented component line. */
  function Field(name: string, value: seq<byte>): string {
    "\t" + name + ": " + Encode(value)
  }

  /** The lines of `ToString`, without their line ends: the public section,
      then the private section. */
  function KeyLines(p: Parameters): (lines: seq<string>)
    ensures |lines| == 10
  {
    [ Bold("Public data:"),
      Field("Exponent", p.exponent),
      Field("Modulus", p.modulus),
      Bold("Private data:"),
      Field("D", p.d),
      Field("DP", p.dp),
      Field("DQ", p.dq),
      Field("InverseQ", p.inverseQ),
      Field("P", p.p),
      Field("Q", p.q) ]
  }

  /** Each line followed by "\n". */
  function Terminated(lines: seq<string>): string
    decreases |lines|
  {
    if |lines| == 0 then "" else lines[0] + "\n" + Terminated(lines[1..])
  }

  /** `RSAEncryptor.ToString()` for components `p`. */
  function KeyInfo(p: Parameters): string {
    Terminated(KeyLines(p))
  }

  /** The line of `KeyLines` that shows component c. */
  function LineOf(c: nat): (line: nat)
    ensures c < |Labels| ==> line < 10
  {
    if c < 2 then c + 1 else c + 2
  }

  /** Lines free of "\n" come back out of their terminated text, with one
      empty text after the last line end. */
  lemma {:induction false} SplitTerminated(lines: seq<string>)
    requires forall i :: 0 <= i < |lines| ==> '\n' !in lines[i]
    ensures Split(Terminated(lines), '\n') == lines + [""]
    decreases |lines|
  {
    if |lines| > 0 {
      SplitTerminated(lines[1..]);
      SplitAround(lines[0], '\n', Terminated(lines[1..]));
      SplitNoSeparator(lines[0], '\n');
      assert lines == [lines[0]] + lines[1..];
    }
  }

  lemma FieldHasNoLineEnd(name: string, value: seq<byte>)
    requires '\n' !in name
    ensures '\n' !in Field(name, value)
  {
    var e := Encode(value);
    assert forall i :: 0 <= i < |e| ==> e[i] != '\n';
  }

  lemma BoldHasNoLineEnd(s: string)
    requires '\n' !in s
    ensures '\n' !in Bold(s)
  {
    var on, off := "\U{1B}[1m", "\U{1B}[22m";
    assert forall i :: 0 <= i < |on| ==> on[i] != '\n';
    assert forall i :: 0 <= i < |off| ==> off[i] != '\n';
    assert Bold(s) == on + s + off;
  }

  lemma KeyLinesHaveNoLineEnd(p: Parameters)
    ensures forall i :: 0 <= i < |KeyLines(p)| ==> '\n' !in KeyLines(p)[i]
  {
    BoldHasNoLineEnd("Public data:");
    BoldHasNoLineEnd("Private data:");
    FieldHasNoLineEnd("Exponent", p.exponent);
    FieldHasNoLineEnd("Modulus", p.modulus);
    FieldHasNoLineEnd("D", p.d);
    FieldHasNoLineEnd("DP", p.dp);
    FieldHasNoLineEnd("DQ", p.dq);
    FieldHasNoLineEnd("InverseQ", p.inverseQ);
    FieldHasNoLineEnd("P", p.p);
    FieldHasNoLineEnd("Q", p.q);
  }

  /** `ToString` is its lines, each ended by "\n". */
  lemma KeyInfoSplits(p: Parameters)
    ensures Split(KeyInfo(p), '\n') == KeyLines(p) + [""]
  {
    KeyLinesHaveNoLineEnd(p);
    SplitTerminated(KeyLines(p));
  }

  /** Component c is on line `LineOf(c)`, after its label. */
  lemma KeyLinesLabelled(p: Parameters, c: nat)
    requires c < |Labels|
    ensures LineOf(c) < |KeyLines(p)|
    ensures KeyLines(p)[LineOf(c)] == "\t" + Labels[c] + ": " + Encode(Components(p)[c])
  {
  }

  /** The layout of `ToString`: ten lines, each ended by "\n"; a bold
      "Public data:" heading, Exponent and Modulus; a bold "Private data:"
      heading, D, DP, DQ, InverseQ, P and Q; every component on its own
      tab-indented labelled line, rendered by `BitConverter.ToString`. */
  lemma KeyInfoLayout(p: Parameters)
    ensures Split(KeyInfo(p), '\n') == KeyLines(p) + [""]
    ensures |KeyLines(p)| == 10
    ensures KeyLines(p)[0] == Bold("Public data:") && KeyLines(p)[3] == Bold("Private data:")
    ensures forall c :: 0 <= c < |Labels| ==> KeyLines(p)[LineOf(c)] == "\t" + Labels[c] + ": " + Encode(Components(p)[c])
  {
    KeyInfoSplits(p);
    forall c | 0 <= c < |Labels|
      ensures KeyLines(p)[LineOf(c)] == "\t" + Labels[c] + ": " + Encode(Components(p)[c])
    {
      KeyLinesLabelled(p, c);
    }
  }

  /** The shown key can be read back: cutting the label off a non-empty
      component's line and decoding the rest gives that component. */
  lemma ComponentReadBack(p: Parameters, c: nat)
    requires c < |Labels| && |Components(p)[c]| > 0
    ensures var lines := Split(KeyInfo(p), '\n');
      var prefix := "\t" + Labels[c] + ": ";
      && LineOf(c) < |lines|
      && |prefix| <= |lines[LineOf(c)]|
      && lines[LineOf(c)][..|prefix|] == prefix
      && Decode(lines[LineOf(c)][|prefix|..]) == Some(Components(p)[c])
  {
    KeyInfoLayout(p);
    var prefix := "\t" + Labels[c] + ": ";
    var line := Split(KeyInfo(p), '\n')[LineOf(c)];
    assert line == prefix + Encode(Components(p)[c]);
    assert line[|prefix|..] == Encode(Components(p)[c]);
    DecodeEncode(Components(p)[c]);
  }

  // ---------------------------------------------------------------------------
  // The key holder
  // ---------------------------------------------------------------------------

  class RsaEncryptor {
    const lib: Library
    const rsa: Key
    const exponent: seq<byte>
    const modulus: seq<byte>
    const d: seq<byte>
    const dp: seq<byte>
    const dq: seq<byte>
    const inverseQ: seq<byte>
    const p: seq<byte>
    const q: seq<byte>

    constructor (lib: Library, rsa: Key, parameters: Parameters)
      ensures this.lib == lib && State() == Loaded(rsa, parameters)
    {
      this.lib := lib;
      this.rsa := rsa;
      exponent, modulus := parameters.exponent, parameters.modulus;
      d, dp, dq, inverseQ := parameters.d, parameters.dp, parameters.dq, parameters.inverseQ;
      p, q := parameters.p, parameters.q;
    }

    /** The held key and its eight components. */
    function State(): Loaded {
      Loaded(rsa, Parameters(exponent, modulus, d, dp, dq, inverseQ, p, q))
    }

    /** The private constructor: load or create the key, then export its
        components. The key file is written only when it was absent, and it
        is written before the export, so it exists afterwards whatever the
        outcome. */
    static method Create(lib: Library, file: KeyFile) returns (r: Result<RsaEncryptor, Exception>)
      modifies file
      ensures file.present
      ensures old(file.present) ==> file.contents == old(file.contents)
      ensures !old(file.present) ==> file.contents == lib.toXml(lib.generate(DefaultKeySize), true)
      ensures r.Success? <==> Construction(lib, old(file.present), old(file.contents)).Success?
      ensures r.Success? ==> fresh(r.value) && r.value.lib == lib
      ensures r.Success? ==> r.value.State() == Construction(lib, old(file.present), old(file.contents)).value
      ensures r.Failure? ==> r.error == Construction(lib, old(file.present), old(file.contents)).error
    {
      var rsa: Key;
      if file.present {
        var loaded := lib.fromXml(file.contents);
        if loaded.Failure? {
          return Failure(loaded.error);
        }
        rsa := loaded.value;
      } else {
        rsa := lib.generate(DefaultKeySize);
        file.WriteAllText(lib.toXml(rsa, true));
      }
      var pub := lib.exportParameters(rsa, false);
      if pub.Failure? {
        return Failure(Exception(ParametersError));
      }
      var priv := lib.exportParameters(rsa, true);
      if priv.Failure? {
        return Failure(Exception(ParametersError));
      }
      var parameters := Parameters(
        pub.value.exponent, pub.value.modulus,
        priv.value.d, priv.value.dp, priv.value.dq, priv.value.inverseQ, priv.value.p, priv.value.q);
      var e := new RsaEncryptor(lib, rsa, parameters);
      return Success(e);
    }

    /** `ToString()`: the key display. */
    function ToString(): string {
      KeyInfo(State().parameters)
    }

    /** `Decrypt`: data and padding go to the held key unchanged, and the
        library's answer, plaintext or exception, comes back unchanged. */
    function Decrypt(data: seq<byte>, padding: Padding): (r: Result<seq<byte>, Exception>)
      ensures r == lib.decrypt(rsa, data, padding)
    {
      lib.decrypt(rsa, data, padding)
    }
  }

  /** The state of the `Lazy<RSAEncryptor>`: not yet built, built, or failed.
      With the default thread-safety mode a `Lazy` keeps the exception its
      factory threw and throws it again on every later access. */
  datatype Slot = Pending | Ready(encryptor: RsaEncryptor) | Faulted(exception: Exception)

  /** `RSAEncryptor.Instance` and the `Lazy` behind it. */
  class EncryptorInstance {
    const lib: Library
    const file: KeyFile
    var slot: Slot
    /** How often the constructor has run. */
    ghost var constructions: nat

    ghost predicate Valid()
      reads this
    {
      && constructions <= 1
      && (slot.Pending? <==> constructions == 0)
      && (slot.Ready? ==> slot.encryptor.lib == lib)
    }

    constructor (lib: Library, file: KeyFile)
      ensures Valid() && slot == Pending && constructions == 0
      ensures this.lib == lib && this.file == file
    {
      this.lib := lib;
      this.file := file;
      slot := Pending;
      constructions := 0;
    }

    /** The key file, compared with an earlier state in which it was present
        or not and held `contents0`: an existing file is kept, and a missing
        one is at most created, holding the key the constructor made. */
    ghost predicate FileKept(present0: bool, contents0: string)
      reads file
    {
      && (present0 ==> file.present && file.contents == contents0)
      && (!present0 && file.present ==> file.contents == lib.toXml(lib.generate(DefaultKeySize), true))
    }

    /** What every access to `Instance` yields, now and later. */
    ghost function Outcome(): Result<Loaded, Exception>
      reads this, file
    {
      match slot
      case Pending => Construction(lib, file.present, file.contents)
      case Ready(e) => Success(e.State())
      case Faulted(x) => Failure(x)
    }

    /** `Instance`: the first access runs the constructor, once; every access
        yields the same object, or rethrows the same exception. */
    method Instance() returns (r: Result<RsaEncryptor, Exception>)
      requires Valid()
      modifies this, file
      ensures Valid()
      ensures Outcome() == old(Outcome())
      ensures r.Success? <==> Outcome().Success?
      ensures r.Success? ==> slot == Ready(r.value) && r.value.lib == lib && r.value.State() == Outcome().value
      ensures r.Failure? ==> slot == Faulted(r.error) && r.error == Outcome().error
      ensures old(slot).Ready? ==> r == Success(old(slot).encryptor)
      ensures !old(slot).Pending? ==> slot == old(slot) && constructions == old(constructions) && unchanged(file)
      ensures old(slot).Pending? ==> constructions == 1
      // the first access leaves the key file as the constructor does
      ensures old(slot).Pending? ==> file.present
      ensures old(slot).Pending? && old(file.present) ==> file.contents == old(file.contents)
      ensures old(slot).Pending? && !old(file.present) ==> file.contents == lib.toXml(lib.generate(DefaultKeySize), true)
      ensures FileKept(old(file.present), old(file.contents))
    {
      match slot {
        case Ready(e) =>
          r := Success(e);
        case Faulted(x) =>
          r := Failure(x);
        case Pending =>
          r := RsaEncryptor.Create(lib, file);
          constructions := constructions + 1;
          slot := if r.Success? then Ready(r.value) else Faulted(r.error);
      }
    }
  }
}
