/**
 * The numeric attribute primitives: fmt.Sprintf with the verbs the codecs
 * use, strconv.ParseUint as the decoders call it, and the two helpers of
 * domain.go built on them, marshallUint(64)Attr and unmarshallUint(64)Attr.
 * Go's `uint` is taken to be 64 bits wide, so the `uint` and `uint64`
 * variants of each helper coincide.
 */
module Numbers {
  import opened Results
  import opened Xml

  const MaxUint64: nat := 0xFFFF_FFFF_FFFF_FFFF

  /** Go's uint64 (and uint on a 64-bit platform). */
  type uint64 = n: nat | n <= MaxUint64

  /** The verbs used for numbers: "%d", and "0x%x" with a zero-padded width ("0x%02x", "0x%04x"). */
  datatype Format = Dec | Hex(width: nat)

  /** The bases handed to strconv.ParseUint: 0 (prefix decides), 10 and 16. */
  datatype Base = Base0 | Base10 | Base16

  // ---------------------------------------------------------------- digits

  /** The lower-case digit fmt writes for `d`. */
  function DigitChar(d: nat): char
    requires d < 16
  {
    if d < 10 then ('0' as int + d) as char else ('a' as int + d - 10) as char
  }

  /** strconv's reading of one character: 0-9, then letters of either case from 10; -1 for anything else. */
  function DigitValue(c: char): int {
    if '0' <= c <= '9' then c as int - '0' as int
    else if 'a' <= c <= 'z' then c as int - 'a' as int + 10
    else if 'A' <= c <= 'Z' then c as int - 'A' as int + 10
    else -1
  }

  /** ASCII lower-casing of a letter, as strconv compares base prefixes. */
  function Lower(c: char): char {
    if 'A' <= c <= 'Z' then (c as int + 32) as char else c
  }

  /** Every character of `s` is a digit of `radix`. */
  predicate AllDigits(s: string, radix: nat) {
    forall i | 0 <= i < |s| :: 0 <= DigitValue(s[i]) < radix
  }

  /** Every character of `s` is a digit of `radix` written as fmt writes it (no upper case). */
  predicate Canonical(s: string, radix: nat) {
    AllDigits(s, radix) && forall i | 0 <= i < |s| :: !('A' <= s[i] <= 'Z')
  }

  /** The number the digits `s` denote in `radix`, continuing from the value `acc` already read. */
  function ValueFrom(acc: nat, s: string, radix: nat): nat
    decreases |s|
  {
    if s == [] then acc
    else
      var d := DigitValue(s[0]);
      ValueFrom(acc * radix + (if d < 0 then 0 else d), s[1..], radix)
  }

  /** `k` zero characters. */
  function Zeros(k: nat): (z: string)
    ensures |z| == k && forall i | 0 <= i < k :: z[i] == '0'
  {
    seq(k, _ => '0')
  }

  /** `s` with zeros in front up to `width` characters, as fmt pads "%0Nx". */
  function PadLeft(s: string, width: nat): string {
    if |s| < width then Zeros(width - |s|) + s else s
  }

  /** The shortest digit string of `n` in `radix`. */
  function Digits(n: nat, radix: nat): (s: string)
    requires 2 <= radix <= 16
    ensures |s| >= 1 && Canonical(s, radix)
    ensures s[0] == '0' <==> n == 0
    ensures n == 0 ==> s == "0"
    decreases n
  {
    if n < radix then
      DigitCharValue(n);
      [DigitChar(n)]
    else
      DivFacts(n, radix);
      DigitCharValue(n % radix);
      var p := Digits(n / radix, radix);
      var c := DigitChar(n % radix);
      assert forall i | 0 <= i < |p| :: (p + [c])[i] == p[i];
      p + [c]
  }

  /** Division by the radix shrinks a number that has more than one digit. */
  lemma DivFacts(n: nat, radix: nat)
    requires 2 <= radix <= 16 && n >= radix
    ensures 0 < n / radix < n && n % radix < radix
    ensures n == (n / radix) * radix + n % radix
  {
    var q, r := n / radix, n % radix;
    assert q * radix >= q * 2 by {
      assert q * radix - q * 2 == q * (radix - 2);
    }
  }

  /** strconv reads back the digit fmt writes. */
  lemma DigitCharValue(d: nat)
    requires d < 16
    ensures DigitValue(DigitChar(d)) == d
    ensures !('A' <= DigitChar(d) <= 'Z')
    ensures DigitChar(d) == '0' <==> d == 0
  {
  }

  // --------------------------------------------------------- fmt.Sprintf

  /**
   * fmt.Sprintf(f, n). A decimal is the shortest digit string of n; a hex
   * number is "0x" then lower-case digits of n, zero-padded to the width and
   * no longer than the width unless it starts with a non-zero digit.
   */
  function Sprintf(f: Format, n: nat): (s: string)
    ensures f.Dec? ==> |s| >= 1 && Canonical(s, 10) && ValueFrom(0, s, 10) == n
    ensures f.Dec? ==> (s[0] == '0' <==> s == "0") && (n == 0 <==> s == "0")
    ensures f.Hex? ==> |s| >= 3 && s[..2] == "0x" && Canonical(s[2..], 16) && ValueFrom(0, s[2..], 16) == n
    ensures f.Hex? ==> |s| - 2 >= f.width && (|s| - 2 > f.width ==> s[2] != '0' || s == "0x0")
  {
    match f
    case Dec =>
      DigitsValue(n, 10);
      Digits(n, 10)
    case Hex(w) =>
      var d := Digits(n, 16);
      var p := PadLeft(d, w);
      DigitsValue(n, 16);
      PadLeftSpec(d, w, 16);
      assert |d| > w && d[0] == '0' ==> d == "0";
      assert ("0x" + p)[2..] == p;
      "0x" + p
  }

  // ---------------------------------------------------- strconv.ParseUint

  /**
   * The digit loop of strconv.ParseUint: `s` is what remains after any
   * base prefix, `s0` the full text the error reports. A character that is
   * not a digit of `radix` is a syntax error; passing 2^64 - 1 is a range
   * error, reported at the digit where it happens.
   */
  function Accumulate(s0: string, s: string, radix: nat, acc: uint64): Result<uint64>
    decreases |s|
  {
    if s == [] then Ok(acc)
    else
      var d := DigitValue(s[0]);
      if d < 0 || d >= radix then Err(NumError(s0, Syntax))
      else if acc * radix + d > MaxUint64 then Err(NumError(s0, Range))
      else Accumulate(s0, s[1..], radix, acc * radix + d)
  }

  /**
   * strconv.ParseUint(s, base, 64). With base 0 the prefix decides: "0b",
   * "0o" and "0x" (any case, with at least one character after them) select
   * 2, 8 and 16, any other leading "0" selects octal, and the rest is decimal.
   * Digit-separating underscores, which Go allows with base 0, are refused.
   */
  function ParseUint(s: string, base: Base): Result<uint64> {
    if s == [] then Err(NumError(s, Syntax))
    else
      match base
      case Base10 => Accumulate(s, s, 10, 0)
      case Base16 => Accumulate(s, s, 16, 0)
      case Base0 =>
        if s[0] != '0' then Accumulate(s, s, 10, 0)
        else if |s| >= 3 && Lower(s[1]) == 'b' then Accumulate(s, s[2..], 2, 0)
        else if |s| >= 3 && Lower(s[1]) == 'o' then Accumulate(s, s[2..], 8, 0)
        else if |s| >= 3 && Lower(s[1]) == 'x' then Accumulate(s, s[2..], 16, 0)
        else Accumulate(s, s[1..], 8, 0)
  }

  /** strings.TrimPrefix. */
  function TrimPrefix(s: string, prefix: string): string {
    if prefix <= s then s[|prefix|..] else s
  }

  // ------------------------------------------- the helpers of domain.go

  /** The formats a base reads back: hex with base 16 or 0, decimal with base 10 or 0. */
  predicate Readable(f: Format, base: Base) {
    match f
    case Dec => base == Base10 || base == Base0
    case Hex(_) => base == Base16 || base == Base0
  }

  /**
   * unmarshallUintAttr / unmarshallUint64Attr: a leading "0x" is dropped
   * when the base is 16, then the text is parsed; an error leaves the
   * caller's field alone (the caller returns the error).
   */
  function UnmarshalUint(valstr: string, base: Base): Result<uint64> {
    ParseUint(if base == Base16 then TrimPrefix(valstr, "0x") else valstr, base)
  }

  /**
   * marshallUintAttr / marshallUint64Attr: the attribute appended to the
   * start element. An absent value appends nothing; a present one appends
   * one attribute of that name, whose text every base able to read the
   * format parses back to the value.
   */
  function UintAttr(name: string, val: Option<uint64>, f: Format): (r: seq<Attr>)
    ensures val.None? <==> r == []
    ensures val.Some? ==> |r| == 1 && r[0].name == name && r[0].value == Sprintf(f, val.value)
    ensures val.Some? ==> forall b: Base | Readable(f, b) :: UnmarshalUint(r[0].value, b) == Ok(val.value)
  {
    if val.None? then []
    else
      UnmarshalSprintfAll(val.value, f);
      [Attr(name, Sprintf(f, val.value))]
  }

  // ----------------------------------------------------------------- lemmas

  /** Reading on from a value never makes it smaller. */
  lemma {:induction false} ValueFromGrows(acc: nat, s: string, radix: nat)
    requires radix >= 1
    ensures ValueFrom(acc, s, radix) >= acc
    decreases |s|
  {
    if s != [] {
      var d := DigitValue(s[0]);
      ValueFromGrows(acc * radix + (if d < 0 then 0 else d), s[1..], radix);
    }
  }

  /** One more digit at the end multiplies by the radix and adds the digit. */
  lemma {:induction false} ValueSnoc(acc: nat, s: string, c: char, radix: nat)
    requires 0 <= DigitValue(c)
    ensures ValueFrom(acc, s + [c], radix) == ValueFrom(acc, s, radix) * radix + DigitValue(c)
    decreases |s|
  {
    if s == [] {
      assert [c][1..] == [];
    } else {
      assert (s + [c])[0] == s[0];
      assert (s + [c])[1..] == s[1..] + [c];
      var d := DigitValue(s[0]);
      ValueSnoc(acc * radix + (if d < 0 then 0 else d), s[1..], c, radix);
    }
  }

  /** Leading zeros do not change the value of a digit string. */
  lemma {:induction false} LeadingZeros(k: nat, s: string, radix: nat)
    ensures ValueFrom(0, Zeros(k) + s, radix) == ValueFrom(0, s, radix)
    decreases k
  {
    if k > 0 {
      var t := Zeros(k) + s;
      assert t[0] == '0' && DigitValue(t[0]) == 0;
      assert t[1..] == Zeros(k - 1) + s;
      assert ValueFrom(0, t, radix) == ValueFrom(0 * radix + 0, t[1..], radix);
      LeadingZeros(k - 1, s, radix);
    } else {
      assert Zeros(k) + s == s;
    }
  }

  /** Zero padding keeps the digits canonical and their value unchanged, and adds zeros only. */
  lemma PadLeftSpec(s: string, width: nat, radix: nat)
    requires Canonical(s, radix) && radix >= 1
    ensures Canonical(PadLeft(s, width), radix)
    ensures ValueFrom(0, PadLeft(s, width), radix) == ValueFrom(0, s, radix)
    ensures |PadLeft(s, width)| == if |s| < width then width else |s|
    ensures |s| >= width ==> PadLeft(s, width) == s
  {
    if |s| < width {
      var p := PadLeft(s, width);
      var k := width - |s|;
      assert forall i | 0 <= i < |p| :: p[i] == if i < k then '0' else s[i - k];
      LeadingZeros(k, s, radix);
    }
  }

  /** The digits fmt writes for n denote n. */
  lemma {:induction false} DigitsValue(n: nat, radix: nat)
    requires 2 <= radix <= 16
    ensures ValueFrom(0, Digits(n, radix), radix) == n
    decreases n
  {
    if n < radix {
      assert ValueFrom(0, [DigitChar(n)], radix) == ValueFrom(n, [], radix);
    } else {
      DivFacts(n, radix);
      DigitsValue(n / radix, radix);
      DigitCharValue(n % radix);
      ValueSnoc(0, Digits(n / radix, radix), DigitChar(n % radix), radix);
    }
  }

  /**
   * The digit loop succeeds exactly when every character is a digit and the
   * value fits in 64 bits, and then yields that value; every error names
   * the full text.
   */
  lemma {:induction false} AccumulateSpec(s0: string, s: string, radix: nat, acc: uint64)
    requires radix >= 1
    ensures Accumulate(s0, s, radix, acc).Ok? <==> AllDigits(s, radix) && ValueFrom(acc, s, radix) <= MaxUint64
    ensures Accumulate(s0, s, radix, acc).Ok? ==> Accumulate(s0, s, radix, acc).value == ValueFrom(acc, s, radix)
    ensures Accumulate(s0, s, radix, acc).Err? ==> Accumulate(s0, s, radix, acc).error.NumError? && Accumulate(s0, s, radix, acc).error.num == s0
    decreases |s|
  {
    if s != [] {
      var d := DigitValue(s[0]);
      if d < 0 || d >= radix {
      } else {
        var next := acc * radix + d;
        ValueFromGrows(next, s[1..], radix);
        if next <= MaxUint64 {
          AccumulateSpec(s0, s[1..], radix, next);
          assert AllDigits(s, radix) <==> AllDigits(s[1..], radix) by {
            assert forall i | 1 <= i < |s| :: s[i] == s[1..][i - 1];
          }
        }
      }
    }
  }

  /**
   * With base 10 or 16 (after "0x" is dropped for 16), the text is read
   * exactly when it is a non-empty string of digits of that radix whose
   * value is below 2^64; anything else is an error naming the text.
   */
  lemma UnmarshalUintSpec(valstr: string, base: Base)
    requires base != Base0
    ensures var t := if base == Base16 then TrimPrefix(valstr, "0x") else valstr;
            var radix := if base == Base16 then 16 else 10;
            && (UnmarshalUint(valstr, base).Ok? <==> t != [] && AllDigits(t, radix) && ValueFrom(0, t, radix) <= MaxUint64)
            && (UnmarshalUint(valstr, base).Ok? ==> UnmarshalUint(valstr, base).value == ValueFrom(0, t, radix))
            && (UnmarshalUint(valstr, base).Err? ==> UnmarshalUint(valstr, base).error.NumError? && UnmarshalUint(valstr, base).error.num == t)
  {
    var t := if base == Base16 then TrimPrefix(valstr, "0x") else valstr;
    var radix := if base == Base16 then 16 else 10;
    if t != [] {
      AccumulateSpec(t, t, radix, 0);
    }
  }

  /**
   * With base 0, text "0x" or "0X" followed by at least one character is read
   * as hex, and text not starting with "0" as decimal.
   */
  lemma UnmarshalBase0Spec(valstr: string)
    ensures |valstr| >= 3 && valstr[0] == '0' && (valstr[1] == 'x' || valstr[1] == 'X') ==>
      (UnmarshalUint(valstr, Base0).Ok? <==> AllDigits(valstr[2..], 16) && ValueFrom(0, valstr[2..], 16) <= MaxUint64)
    ensures |valstr| >= 1 && valstr[0] != '0' ==>
      (UnmarshalUint(valstr, Base0).Ok? <==> AllDigits(valstr, 10) && ValueFrom(0, valstr, 10) <= MaxUint64)
    ensures UnmarshalUint(valstr, Base0).Ok? ==> valstr != []
  {
    if |valstr| >= 3 && valstr[0] == '0' && (valstr[1] == 'x' || valstr[1] == 'X') {
      AccumulateSpec(valstr, valstr[2..], 16, 0);
    }
    if |valstr| >= 1 && valstr[0] != '0' {
      AccumulateSpec(valstr, valstr, 10, 0);
    }
  }

  /**
   * With base 0, text that starts with '0' but not with a "0b", "0o" or "0x"
   * prefix is octal: it is read exactly when the rest is octal digits in
   * range, as their octal value. So `slot="010"` on a PCI address reads as 8.
   */
  lemma Base0LeadingZeroOctal(valstr: string)
    requires |valstr| >= 1 && valstr[0] == '0'
    requires |valstr| < 3 || (Lower(valstr[1]) != 'b' && Lower(valstr[1]) != 'o' && Lower(valstr[1]) != 'x')
    ensures UnmarshalUint(valstr, Base0).Ok? <==> AllDigits(valstr[1..], 8) && ValueFrom(0, valstr[1..], 8) <= MaxUint64
    ensures UnmarshalUint(valstr, Base0).Ok? ==> UnmarshalUint(valstr, Base0).value == ValueFrom(0, valstr[1..], 8)
    ensures valstr == "010" ==> UnmarshalUint(valstr, Base0) == Ok(8)
  {
    AccumulateSpec(valstr, valstr[1..], 8, 0);
    if valstr == "010" {
      assert valstr[1..] == "10";
      assert ValueFrom(0, "10", 8) == 8 by {
        assert "10"[1..] == "0";
        assert "0"[1..] == [];
      }
    }
  }

  /** Parse after format: what marshallUintAttr writes, unmarshallUintAttr reads back with a matching base. */
  lemma UnmarshalSprintf(n: uint64, f: Format, base: Base)
    requires Readable(f, base)
    ensures UnmarshalUint(Sprintf(f, n), base) == Ok(n)
  {
    var s := Sprintf(f, n);
    match f
    case Dec =>
      AccumulateSpec(s, s, 10, 0);
      if base == Base0 && s[0] == '0' {
        assert s == "0" && s[1..] == [];
      }
    case Hex(w) =>
      var p := s[2..];
      assert s == "0x" + p;
      AccumulateSpec(s, p, 16, 0);
      if base == Base16 {
        assert TrimPrefix(s, "0x") == p;
        AccumulateSpec(p, p, 16, 0);
      }
  }

  /** UnmarshalSprintf for every base able to read the format. */
  lemma UnmarshalSprintfAll(n: uint64, f: Format)
    ensures forall b: Base | Readable(f, b) :: UnmarshalUint(Sprintf(f, n), b) == Ok(n)
  {
    forall b: Base | Readable(f, b)
      ensures UnmarshalUint(Sprintf(f, n), b) == Ok(n)
    {
      UnmarshalSprintf(n, f, b);
    }
  }

  /** The widths of the PCI address fields: 0 is written 0x0000, 0x00 and 0x0; 3 is 0x03 at width 2. */
  lemma PciWidthExamples()
    ensures Sprintf(Hex(4), 0) == "0x0000"
    ensures Sprintf(Hex(2), 0) == "0x00"
    ensures Sprintf(Hex(0), 0) == "0x0"
    ensures Sprintf(Hex(2), 3) == "0x03"
    ensures Sprintf(Hex(2), 0x0e) == "0x0e"
    ensures Sprintf(Hex(0), 5) == "0x5"
  {
    assert Digits(0, 16) == "0";
    assert Digits(3, 16) == "3";
    assert Digits(14, 16) == "e";
    assert Zeros(3) == "000";
    assert Zeros(1) == "0";
  }
}
