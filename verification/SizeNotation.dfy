/** Memory sizes such as "512m": size_notation_to_bytes and the container limit made of it. */
module SizeNotation {
  import opened Text

  /** What a size may be: a number, a text, or something re.match refuses. */
  datatype Size = Whole(n: int) | Notation(s: string) | Unfit

  datatype Result = Bytes(n: int) | ValueError | TypeError

  const KILO := 1024
  const MEGA := 1024 * 1024
  const GIGA := 1024 * 1024 * 1024

  /** `[kmg]`, in either case. */
  function Scale(c: char): (r: nat)
    ensures r > 0 ==> !Digit(c) && c != '\n' && c != 'b' && c != 'B'
  {
    if c == 'k' || c == 'K' then KILO
    else if c == 'm' || c == 'M' then MEGA
    else if c == 'g' || c == 'G' then GIGA
    else 0
  }

  predicate IsB(c: char) { c == 'b' || c == 'B' }

  /** The size table: what a suffix stands for, 0 if it is none. */
  function Factor(suffix: string): nat {
    if suffix == "" then 1
    else if |suffix| == 1 then if IsB(suffix[0]) then 1 else Scale(suffix[0])
    else if |suffix| == 2 && IsB(suffix[1]) then Scale(suffix[0])
    else 0
  }

  function DigitValue(c: char): nat
    requires Digit(c)
  {
    c as int - '0' as int
  }

  /** int() of a text of digits. */
  function Value(digits: string): nat
    requires forall c :: c in digits ==> Digit(c)
  {
    if digits == "" then 0
    else 10 * Value(digits[..|digits| - 1]) + DigitValue(digits[|digits| - 1])
  }

  function Digits(s: string): (n: nat)
    ensures n <= |s| && (forall c :: c in s[..n] ==> Digit(c)) && (n < |s| ==> !Digit(s[n]))
  {
    if s == "" || !Digit(s[0]) then 0
    else
      var n := Digits(s[1..]);
      assert s[..n + 1] == [s[0]] + s[1..][..n];
      n + 1
  }

  /** `$` also matches before one newline at the end. */
  function DropNewline(s: string): string {
    if s != "" && s[|s| - 1] == '\n' then s[..|s| - 1] else s
  }

  function ToBytes(size: Size): Result {
    match size
    case Whole(n) => Bytes(n)
    case Unfit => TypeError
    case Notation(s) =>
      var n := Digits(s);
      var factor := Factor(DropNewline(s[n..]));
      if n > 0 && factor > 0 then Bytes(Value(s[..n]) * factor) else ValueError
  }

  /** The `memLimit` of a tale's configuration, "2g" if it has none, and 2 GB if it is no size. */
  function MemLimit(limit: Size): int {
    match ToBytes(limit)
    case Bytes(n) => n
    case _ => 2 * GIGA
  }

  // ----- the grammar -----

  /** `unit` is one of k, m, g or nothing, `b` is b or nothing, in either case. */
  predicate Suffix(unit: string, b: string) {
    (unit == "" || (|unit| == 1 && Scale(unit[0]) > 0)) && (b == "" || (|b| == 1 && IsB(b[0])))
  }

  function UnitFactor(unit: string): nat {
    if unit == "" then 1 else Scale(unit[0])
  }

  /** `digits` and the suffix, and at most one newline. */
  predicate Written(s: string, digits: string, unit: string, b: string, newline: bool) {
    && s == digits + (unit + b) + (if newline then "\n" else "")
    && digits != "" && (forall c :: c in digits ==> Digit(c)) && Suffix(unit, b)
  }

  /** The units are k, m and g, and the letter b is optional; a capital makes no difference. */
  lemma SuffixesAre(unit: string, b: string)
    ensures Suffix(unit, b) <==> unit in ["", "k", "K", "m", "M", "g", "G"] && b in ["", "b", "B"]
    ensures unit == "" ==> UnitFactor(unit) == 1
    ensures unit == "k" || unit == "K" ==> UnitFactor(unit) == 1024
    ensures unit == "m" || unit == "M" ==> UnitFactor(unit) == 1048576
    ensures unit == "g" || unit == "G" ==> UnitFactor(unit) == 1073741824
  {
    assert |unit| == 1 ==> unit == [unit[0]];
    assert |b| == 1 ==> b == [b[0]];
  }

  lemma SuffixFactor(unit: string, b: string)
    requires Suffix(unit, b)
    ensures Factor(unit + b) == UnitFactor(unit) > 0
    ensures unit + b != "" ==> !Digit((unit + b)[0])
    ensures '\n' !in unit + b
  {
  }

  lemma FactorSuffix(suffix: string) returns (unit: string, b: string)
    requires Factor(suffix) > 0
    ensures suffix == unit + b && Suffix(unit, b)
  {
    if suffix == "" {
      unit, b := "", "";
    } else if IsB(suffix[0]) {
      unit, b := "", suffix;
    } else {
      unit, b := suffix[..1], suffix[1..];
    }
  }

  lemma DropsNewline(suffix: string, newline: bool)
    requires '\n' !in suffix
    ensures DropNewline(suffix + (if newline then "\n" else "")) == suffix
  {
    var rest := suffix + (if newline then "\n" else "");
    if newline {
      assert rest[..|rest| - 1] == suffix;
    } else {
      assert rest == suffix;
    }
  }

  lemma {:induction false} DigitsEnd(digits: string, rest: string)
    requires (forall c :: c in digits ==> Digit(c)) && (rest != "" ==> !Digit(rest[0]))
    ensures Digits(digits + rest) == |digits|
  {
    if digits == "" {
      assert digits + rest == rest;
    } else {
      DigitsEnd(digits[1..], rest);
      assert (digits + rest)[1..] == digits[1..] + rest;
    }
  }

  /** Every text the grammar allows is accepted, with the number times the unit for result. */
  lemma WrittenIsAccepted(s: string, digits: string, unit: string, b: string, newline: bool)
    requires Written(s, digits, unit, b, newline)
    ensures ToBytes(Notation(s)) == Bytes(Value(digits) * UnitFactor(unit))
  {
    SuffixFactor(unit, b);
    var rest := (unit + b) + (if newline then "\n" else "");
    assert s == digits + rest;
    DigitsEnd(digits, rest);
    DropsNewline(unit + b, newline);
    hide Factor, UnitFactor, Digits, DropNewline;
    assert s[..|digits|] == digits && s[|digits|..] == rest;
  }

  lemma Rejoins(rest: string)
    ensures rest == DropNewline(rest) + (if DropNewline(rest) != rest then "\n" else "")
  {
    if DropNewline(rest) != rest {
      assert rest == rest[..|rest| - 1] + [rest[|rest| - 1]];
    }
  }

  /** Only those are accepted. */
  lemma AcceptedIsWritten(s: string) returns (digits: string, unit: string, b: string, newline: bool)
    requires ToBytes(Notation(s)).Bytes?
    ensures Written(s, digits, unit, b, newline)
  {
    hide Digits, DropNewline, Factor, Value, Scale, Suffix, ToBytes;
    var n := Digits(s);
    digits := s[..n];
    var suffix := DropNewline(s[n..]);
    AcceptedHas(s);
    newline := suffix != s[n..];
    Rejoins(s[n..]);
    unit, b := FactorSuffix(suffix);
    var end := if newline then "\n" else "";
    assert s == digits + s[n..];
    assert digits + ((unit + b) + end) == digits + (unit + b) + end;
  }

  lemma AcceptedHas(s: string)
    requires ToBytes(Notation(s)).Bytes?
    ensures Digits(s) > 0 && Factor(DropNewline(s[Digits(s)..])) > 0
  {
    hide Digits, DropNewline, Factor;
  }

  /** Acceptance is exactly the grammar; a rejected text is a ValueError, and gives the default limit. */
  lemma SizeGrammar(s: string)
    ensures ToBytes(Notation(s)).Bytes? <==> exists digits, unit, b, newline :: Written(s, digits, unit, b, newline)
    ensures !ToBytes(Notation(s)).Bytes? ==> ToBytes(Notation(s)) == ValueError && MemLimit(Notation(s)) == 2 * GIGA
  {
    if ToBytes(Notation(s)).Bytes? {
      var digits, unit, b, newline := AcceptedIsWritten(s);
    }
    forall digits, unit, b, newline | Written(s, digits, unit, b, newline) ensures ToBytes(Notation(s)).Bytes? {
      WrittenIsAccepted(s, digits, unit, b, newline);
    }
  }

  // ----- printing -----

  function Decimal(n: nat): (r: string)
    ensures r != "" && forall c :: c in r ==> Digit(c)
  {
    var last := [('0' as int + n % 10) as char];
    if n < 10 then last else Decimal(n / 10) + last
  }

  function Zeros(z: nat): (r: string)
    ensures |r| == z && forall c :: c in r ==> c == '0'
  {
    if z == 0 then "" else Zeros(z - 1) + "0"
  }

  lemma {:induction false} ValueOfZeros(z: nat)
    ensures Value(Zeros(z)) == 0
  {
    if z > 0 {
      ValueOfZeros(z - 1);
      assert Zeros(z)[..z - 1] == Zeros(z - 1);
    }
  }

  lemma ValueAppends(digits: string, c: char)
    requires (forall d :: d in digits ==> Digit(d)) && Digit(c)
    ensures Value(digits + [c]) == 10 * Value(digits) + DigitValue(c)
  {
    assert (digits + [c])[..|digits|] == digits;
  }

  lemma {:induction false} ValueOfDecimal(z: nat, n: nat)
    ensures Value(Zeros(z) + Decimal(n)) == n
  {
    hide Value, Zeros;
    var last := ('0' as int + n % 10) as char;
    if n < 10 {
      ValueOfZeros(z);
      ValueAppends(Zeros(z), last);
    } else {
      ValueOfDecimal(z, n / 10);
      ValueAppends(Zeros(z) + Decimal(n / 10), last);
      assert Zeros(z) + Decimal(n) == Zeros(z) + Decimal(n / 10) + [last];
    }
  }

  /** Any number in decimal, after any zeros and before any unit, is read as the number times the unit. */
  lemma SizeRoundTrip(n: nat, z: nat, unit: string, b: string, newline: bool)
    requires Suffix(unit, b)
    ensures ToBytes(Notation((Zeros(z) + Decimal(n)) + (unit + b) + (if newline then "\n" else "")))
         == Bytes(n * UnitFactor(unit))
  {
    ValueOfDecimal(z, n);
    var digits := Zeros(z) + Decimal(n);
    WrittenIsAccepted(digits + (unit + b) + (if newline then "\n" else ""), digits, unit, b, newline);
  }

  function Printed(n: nat, unit: string): string {
    (Zeros(0) + Decimal(n)) + (unit + "") + ""
  }

  /** A larger unit is 1024 of the next smaller one, and a capital letter makes no difference. */
  lemma UnitLaws(n: nat)
    ensures ToBytes(Notation(Printed(n, ""))) == Bytes(n)
    ensures ToBytes(Notation(Printed(n, "k"))) == ToBytes(Notation(Printed(1024 * n, "")))
    ensures ToBytes(Notation(Printed(n, "m"))) == ToBytes(Notation(Printed(1024 * n, "k")))
    ensures ToBytes(Notation(Printed(n, "g"))) == ToBytes(Notation(Printed(1024 * n, "m")))
    ensures ToBytes(Notation(Printed(n, "K"))) == ToBytes(Notation(Printed(n, "k")))
    ensures ToBytes(Notation(Printed(n, "M"))) == ToBytes(Notation(Printed(n, "m")))
    ensures ToBytes(Notation(Printed(n, "G"))) == ToBytes(Notation(Printed(n, "g")))
  {
    hide ToBytes, Zeros, Decimal;
    forall unit, k: nat | Suffix(unit, "") ensures ToBytes(Notation(Printed(k, unit))) == Bytes(k * UnitFactor(unit)) {
      SizeRoundTrip(k, 0, unit, "", false);
    }
  }

  /** The limit of a container without a configured one, and of one whose configuration is no text. */
  lemma DefaultLimit()
    ensures MemLimit(Notation("2g")) == 2147483648 == MemLimit(Unfit)
  {
    SizeRoundTrip(2, 0, "g", "", false);
    assert (Zeros(0) + Decimal(2)) + ("g" + "") + "" == "2g";
  }

  /** A number is itself, and a text that is no size gives the default. */
  lemma OtherLimits(n: int)
    ensures ToBytes(Whole(n)) == Bytes(n) && MemLimit(Whole(n)) == n
    ensures ToBytes(Unfit) == TypeError
    ensures ToBytes(Notation("")) == ValueError && ToBytes(Notation("2x")) == ValueError
    ensures MemLimit(Notation("2x")) == 2147483648
  {
  }

  /** Samples of texts as they are written. */
  lemma WrittenSizes()
    ensures ToBytes(Notation("512MB")) == Bytes(536870912)
    ensures ToBytes(Notation("07kb")) == Bytes(7168)
    ensures ToBytes(Notation("12\n")) == Bytes(12)
  {
    hide ToBytes, Value, Suffix, UnitFactor;
    SuffixesAre("M", "B");
    SuffixesAre("k", "b");
    SuffixesAre("", "");
    WrittenIsAccepted("512MB", "512", "M", "B", false);
    WrittenIsAccepted("07kb", "07", "k", "b", false);
    WrittenIsAccepted("12\n", "12", "", "", true);
    DigitsRead();
  }

  lemma DigitsRead()
    ensures Value("512") == 512 && Value("07") == 7 && Value("12") == 12
  {
    assert "512"[..2] == "51" && "51"[..1] == "5" && "5"[..0] == "";
    assert "07"[..1] == "0" && "0"[..0] == "" && "12"[..1] == "1" && "1"[..0] == "";
  }
}
