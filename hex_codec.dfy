/**
 * Dash-separated hexadecimal text.
 *
 * Rendering is `BitConverter.ToString(byte[])`, which the key display uses:
 * every byte as two upper-case hex digits, the pairs joined by '-'.
 * Reading is the ciphertext pipeline of the menu loop:
 * `text.Split('-').Select(x => Convert.ToByte(x, 16)).ToArray()`, where one
 * bad token makes the whole conversion throw.
 */
module HexCodec {
  import opened Wrappers

  type byte = b: int | 0 <= b < 256

  const Dash: char := '-'

  // ---------------------------------------------------------------------------
  // String.Split with a single separator character
  // ---------------------------------------------------------------------------

  /** The tokens of `s` between occurrences of `sep`. As in .NET, there is
      always at least one token: "" splits into [""], and a separator at either
      end or two in a row yield empty tokens. */
  function Split(s: string, sep: char): (tokens: seq<string>)
    ensures |tokens| >= 1
    ensures forall i :: 0 <= i < |tokens| ==> sep !in tokens[i]
    decreases |s|
  {
    if |s| == 0 then [""]
    else
      var rest := Split(s[1..], sep);
      if s[0] == sep then [""] + rest
      else [[s[0]] + rest[0]] + rest[1..]
  }

  /** The tokens put back together with `sep` between neighbours. */
  function Join(tokens: seq<string>, sep: char): string
    requires |tokens| >= 1
  {
    if |tokens| == 1 then tokens[0] else tokens[0] + [sep] + Join(tokens[1..], sep)
  }

  /** Splitting loses nothing: joining the tokens gives back the text. */
  lemma {:induction false} JoinSplit(s: string, sep: char)
    ensures Join(Split(s, sep), sep) == s
    decreases |s|
  {
    if |s| > 0 {
      var rest := Split(s[1..], sep);
      JoinSplit(s[1..], sep);
      if s[0] == sep {
        assert Split(s, sep)[1..] == rest;
      } else if |rest| > 1 {
        assert Split(s, sep)[1..] == rest[1..];
        assert Join(rest, sep) == rest[0] + [sep] + Join(rest[1..], sep);
      }
    }
  }

  /** Text without a separator is a single token. */
  lemma {:induction false} SplitNoSeparator(s: string, sep: char)
    requires sep !in s
    ensures Split(s, sep) == [s]
    decreases |s|
  {
    if |s| > 0 {
      assert sep !in s[1..];
      SplitNoSeparator(s[1..], sep);
      assert [s[0]] + s[1..] == s;
    }
  }

  /** Growing the first token of a split whose tail has more tokens after it. */
  lemma GrowFirst(h: string, ra: seq<string>, rb: seq<string>)
    requires |ra| >= 1
    ensures [h + (ra + rb)[0]] + (ra + rb)[1..] == ([h + ra[0]] + ra[1..]) + rb
  {
    assert (ra + rb)[1..] == ra[1..] + rb;
  }

  /** A separator between `a` and `b` splits exactly there. */
  lemma {:induction false} SplitAround(a: string, sep: char, b: string)
    ensures Split(a + [sep] + b, sep) == Split(a, sep) + Split(b, sep)
    decreases |a|
  {
    var s := a + [sep] + b;
    if |a| == 0 {
      assert s[1..] == b;
    } else {
      assert s[0] == a[0];
      assert s[1..] == a[1..] + [sep] + b;
      SplitAround(a[1..], sep, b);
      if a[0] != sep {
        GrowFirst([a[0]], Split(a[1..], sep), Split(b, sep));
      }
    }
  }

  /** Splitting inverts joining for tokens free of the separator. */
  lemma {:induction false} SplitJoin(tokens: seq<string>, sep: char)
    requires |tokens| >= 1
    requires forall i :: 0 <= i < |tokens| ==> sep !in tokens[i]
    ensures Split(Join(tokens, sep), sep) == tokens
    decreases |tokens|
  {
    if |tokens| == 1 {
      SplitNoSeparator(tokens[0], sep);
    } else {
      SplitJoin(tokens[1..], sep);
      SplitAround(tokens[0], sep, Join(tokens[1..], sep));
      SplitNoSeparator(tokens[0], sep);
    }
  }

  // ---------------------------------------------------------------------------
  // Hex digits
  // ---------------------------------------------------------------------------

  predicate IsHexDigit(c: char) {
    '0' <= c <= '9' || 'a' <= c <= 'f' || 'A' <= c <= 'F'
  }

  predicate IsUpperHexDigit(c: char) {
    '0' <= c <= '9' || 'A' <= c <= 'F'
  }

  function DigitValue(c: char): (v: nat)
    requires IsHexDigit(c)
    ensures v < 16
  {
    if '0' <= c <= '9' then c as int - '0' as int
    else if 'a' <= c <= 'f' then c as int - 'a' as int + 10
    else c as int - 'A' as int + 10
  }

  /** The upper-case digit that `BitConverter` writes for a nibble. */
  function UpperDigit(v: nat): (c: char)
    requires v < 16
    ensures IsUpperHexDigit(c) && IsHexDigit(c)
    ensures DigitValue(c) == v
  {
    if v < 10 then ('0' as int + v) as char else ('A' as int + v - 10) as char
  }

  /** One byte as `BitConverter` renders it: high nibble, then low nibble. */
  function ByteToHex(b: byte): (s: string)
    ensures |s| == 2 && IsUpperHexDigit(s[0]) && IsUpperHexDigit(s[1])
    ensures DigitValue(s[0]) * 16 + DigitValue(s[1]) == b
  {
    [UpperDigit(b / 16), UpperDigit(b % 16)]
  }

  // ---------------------------------------------------------------------------
  // Encoding: BitConverter.ToString
  // ---------------------------------------------------------------------------

  /** `BitConverter.ToString(bytes)`: empty for no bytes, otherwise the
      two-digit renderings joined by dashes. */
  function Encode(bytes: seq<byte>): (s: string)
    ensures |bytes| == 0 ==> s == ""
    ensures |bytes| > 0 ==> |s| == 3 * |bytes| - 1
    ensures forall i :: 0 <= i < |s| ==> IsUpperHexDigit(s[i]) || s[i] == Dash
  {
    if |bytes| == 0 then ""
    else if |bytes| == 1 then ByteToHex(bytes[0])
    else ByteToHex(bytes[0]) + [Dash] + Encode(bytes[1..])
  }

  /** The rendering, position by position: byte i sits at 3i and 3i+1, and a
      dash follows it at 3i+2 unless it is the last byte. */
  lemma {:induction false} EncodeAt(bytes: seq<byte>, i: nat)
    requires i < |bytes|
    ensures |Encode(bytes)| == 3 * |bytes| - 1
    ensures Encode(bytes)[3 * i..3 * i + 2] == ByteToHex(bytes[i])
    ensures i + 1 < |bytes| ==> Encode(bytes)[3 * i + 2] == Dash
    decreases i
  {
    var s := Encode(bytes);
    if i > 0 {
      EncodeAt(bytes[1..], i - 1);
      var t := Encode(bytes[1..]);
      assert s == ByteToHex(bytes[0]) + [Dash] + t;
      assert s[3 * i..3 * i + 2] == t[3 * (i - 1)..3 * (i - 1) + 2];
    }
  }

  /** The rendering has no character that is a dash inside a token: its
      tokens are exactly the two-digit renderings, in order. */
  lemma {:induction false} SplitEncode(bytes: seq<byte>)
    requires |bytes| > 0
    ensures Split(Encode(bytes), Dash) == seq(|bytes|, i requires 0 <= i < |bytes| => ByteToHex(bytes[i]))
    decreases |bytes|
  {
    var tokens := seq(|bytes|, i requires 0 <= i < |bytes| => ByteToHex(bytes[i]));
    SplitNoSeparator(ByteToHex(bytes[0]), Dash);
    if |bytes| > 1 {
      SplitEncode(bytes[1..]);
      SplitAround(ByteToHex(bytes[0]), Dash, Encode(bytes[1..]));
      assert tokens == [ByteToHex(bytes[0])] + seq(|bytes| - 1, i requires 0 <= i < |bytes| - 1 => ByteToHex(bytes[1..][i]));
    }
  }

  // ---------------------------------------------------------------------------
  // Decoding: Split('-') and Convert.ToByte(token, 16)
  // ---------------------------------------------------------------------------

  predicate AllHexDigits(t: string) {
    forall i :: 0 <= i < |t| ==> IsHexDigit(t[i])
  }

  /** The number the hex digits of `t` spell, most significant first. */
  function HexValue(t: string): nat
    requires AllHexDigits(t)
    decreases |t|
  {
    if |t| == 0 then 0 else HexValue(t[..|t| - 1]) * 16 + DigitValue(t[|t| - 1])
  }

  /** `Convert.ToByte(t, 16)`: a non-empty run of hex digits of either case
      whose value fits in a byte; anything else throws. */
  function ParseToken(t: string): (r: Option<byte>)
    ensures r.Some? ==> |t| > 0 && AllHexDigits(t) && r.value == HexValue(t)
    ensures |t| > 0 && AllHexDigits(t) && HexValue(t) < 256 ==> r.Some?
    ensures |t| == 0 ==> r == None
  {
    if |t| > 0 && AllHexDigits(t) && HexValue(t) <= 255 then Some(HexValue(t)) else None
  }

  /** Any two hex digits, of either case, form a token that reads as their value. */
  lemma ParseTwoDigits(t: string)
    requires |t| == 2 && IsHexDigit(t[0]) && IsHexDigit(t[1])
    ensures ParseToken(t) == Some(DigitValue(t[0]) * 16 + DigitValue(t[1]))
  {
    var first := t[..1];
    assert first[..0] == [] && first == [t[0]];
    assert HexValue(first) == DigitValue(t[0]);
    assert HexValue(t) == HexValue(first) * 16 + DigitValue(t[1]);
  }

  /** Every token of the rendering reads back as its byte. */
  lemma ParseByteToHex(b: byte)
    ensures ParseToken(ByteToHex(b)) == Some(b)
  {
    ParseTwoDigits(ByteToHex(b));
  }

  /** Leading zeros do not change a token's value, so "0FF" reads as 255. */
  lemma {:induction false} LeadingZero(t: string)
    requires AllHexDigits(t)
    ensures AllHexDigits("0" + t) && HexValue("0" + t) == HexValue(t)
    decreases |t|
  {
    var z := "0" + t;
    if |t| > 0 {
      assert z[..|z| - 1] == "0" + t[..|t| - 1];
      LeadingZero(t[..|t| - 1]);
    } else {
      assert z[..0] == [];
    }
  }

  /** Every token is a byte. */
  predicate AllTokensParse(tokens: seq<string>) {
    forall i :: 0 <= i < |tokens| ==> ParseToken(tokens[i]).Some?
  }

  /** The first token that is not a byte: the one `Convert.ToByte` throws on
      when `ToArray` runs the conversions in order. */
  function FirstUnparsable(tokens: seq<string>): (i: nat)
    requires !AllTokensParse(tokens)
    ensures i < |tokens| && ParseToken(tokens[i]).None?
    ensures forall k :: 0 <= k < i ==> ParseToken(tokens[k]).Some?
    decreases |tokens|
  {
    if ParseToken(tokens[0]).None? then 0
    else
      assert !AllTokensParse(tokens[1..]) by {
        var k :| 0 <= k < |tokens| && ParseToken(tokens[k]).None?;
        assert tokens[1..][k - 1] == tokens[k];
      }
      1 + FirstUnparsable(tokens[1..])
  }

  /** All tokens converted, or none: the first bad token fails the whole
      `ToArray()`, so no partial array is ever produced. */
  function ParseAll(tokens: seq<string>): (r: Option<seq<byte>>)
    ensures r.Some? <==> AllTokensParse(tokens)
    ensures r.Some? ==> |r.value| == |tokens|
    ensures r.Some? ==> forall i :: 0 <= i < |tokens| ==> Some(r.value[i]) == ParseToken(tokens[i])
    decreases |tokens|
  {
    if |tokens| == 0 then Some([])
    else
      match ParseToken(tokens[0])
      case None => None
      case Some(b) =>
        match ParseAll(tokens[1..])
        case None => None
        case Some(rest) => Some([b] + rest)
  }

  /** The ciphertext conversion of the menu loop: one byte per dash-separated
      token, in token order, or a failure if any token is not a byte. */
  function Decode(s: string): (r: Option<seq<byte>>)
    ensures r.Some? <==> AllTokensParse(Split(s, Dash))
    ensures r.Some? ==> |r.value| == |Split(s, Dash)|
    ensures r.Some? ==> forall i :: 0 <= i < |Split(s, Dash)| ==> Some(r.value[i]) == ParseToken(Split(s, Dash)[i])
  {
    ParseAll(Split(s, Dash))
  }

  /** Round trip: reading back the rendering of a non-empty byte sequence
      gives that sequence. */
  lemma DecodeEncode(bytes: seq<byte>)
    requires |bytes| > 0
    ensures Decode(Encode(bytes)) == Some(bytes)
  {
    var tokens := Split(Encode(bytes), Dash);
    SplitEncode(bytes);
    forall i | 0 <= i < |bytes| ensures ParseToken(tokens[i]) == Some(bytes[i]) {
      ParseByteToHex(bytes[i]);
    }
    var r := Decode(Encode(bytes));
    assert r.Some?;
    assert r.value == bytes;
  }

  /** The empty byte sequence renders as "", which does not read back:
      "" splits into one empty token and `Convert.ToByte("", 16)` throws. */
  lemma EncodeEmptyDoesNotDecode()
    ensures Encode([]) == "" && Decode(Encode([])) == None
  {
  }

  /** Empty ciphertext input is a failure, not an empty byte sequence. */
  lemma DecodeEmptyInput()
    ensures Decode("") == None
  {
  }

  /** Two dashes in a row leave an empty token between them. */
  lemma DecodeDoubleDash(a: string, b: string)
    ensures Decode(a + "--" + b) == None
  {
    assert a + "--" + b == a + [Dash] + ([Dash] + b);
    SplitAround(a, Dash, [Dash] + b);
    assert [Dash] + b == [] + [Dash] + b;
    SplitAround([], Dash, b);
    var tokens := Split(a + "--" + b, Dash);
    assert tokens[|Split(a, Dash)|] == "";
  }

  /** A trailing dash leaves an empty last token. */
  lemma DecodeTrailingDash(a: string)
    ensures Decode(a + "-") == None
  {
    assert a + "-" == a + [Dash] + [];
    SplitAround(a, Dash, []);
    var tokens := Split(a + "-", Dash);
    assert tokens[|tokens| - 1] == "";
  }

  /** A leading dash leaves an empty first token. */
  lemma DecodeLeadingDash(b: string)
    ensures Decode("-" + b) == None
  {
    assert "-" + b == [] + [Dash] + b;
    SplitAround([], Dash, b);
    assert Split("-" + b, Dash)[0] == "";
  }
}
