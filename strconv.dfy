/** The parts of Go's `strconv` package that the permit gate relies on:
    `Atoi` (which turns the group's configuration strings into integers),
    `Itoa` (which renders the counts in the wait message) and `Quote`
    (which renders the offending string inside a parse error).
    Go's `int` is taken to be 64 bits wide. */
module Strconv {
  import opened Wrappers

  const MaxInt64: int := 0x7fff_ffff_ffff_ffff
  const MinInt64: int := -0x8000_0000_0000_0000
  const MaxUint64: int := 0xffff_ffff_ffff_ffff

  predicate InInt64(n: int) {
    MinInt64 <= n <= MaxInt64
  }

  /** `strconv.ErrSyntax` and `strconv.ErrRange`. */
  datatype NumErrorKind = ErrSyntax | ErrRange

  /** `strconv.NumError`: the failing function, the input and the reason. */
  datatype NumError = NumError(func: string, num: string, err: NumErrorKind)
  {
    /** The text of `(*NumError).Error()`. */
    function Error(): string {
      "strconv." + func + ": parsing " + Quote(num) + ": "
      + (match err
         case ErrSyntax => "invalid syntax"
         case ErrRange => "value out of range")
    }
  }

  // ---------------------------------------------------------------------
  // Decimal digits

  predicate IsDigit(c: char) {
    '0' <= c <= '9'
  }

  predicate AllDigits(s: string) {
    forall i :: 0 <= i < |s| ==> IsDigit(s[i])
  }

  function DigitValue(c: char): nat
    requires IsDigit(c)
  {
    c as int - '0' as int
  }

  function DigitChar(d: nat): (c: char)
    requires d < 10
    ensures IsDigit(c) && DigitValue(c) == d
  {
    ('0' as int + d) as char
  }

  /** The value of the digits `s` read after an already accumulated `acc`,
      most significant digit first. */
  function Horner(acc: nat, s: string): nat
    requires AllDigits(s)
    decreases s
  {
    if s == [] then acc else Horner(acc * 10 + DigitValue(s[0]), s[1..])
  }

  /** The value a string of decimal digits denotes. */
  function DecimalValue(digits: string): nat
    requires AllDigits(digits)
  {
    Horner(0, digits)
  }

  // ---------------------------------------------------------------------
  // Atoi

  /** Outcome of the digit loop of `strconv.ParseUint` in base 10 with a
      64-bit result. */
  datatype Scan = Value(n: nat) | Syntax | Overflow

  /** The digit loop of `ParseUint`: reading left to right, a character that
      is not a decimal digit is a syntax error, and an accumulated value that
      exceeds 2^64-1 is a range error as soon as it happens, even when a later
      character would have been a syntax error. */
  function ScanUint64(s: string, acc: nat): Scan
    requires acc <= MaxUint64
  {
    if s == [] then Value(acc)
    else if !IsDigit(s[0]) then Syntax
    else if acc * 10 + DigitValue(s[0]) > MaxUint64 then Overflow
    else ScanUint64(s[1..], acc * 10 + DigitValue(s[0]))
  }

  predicate HasSign(s: string) {
    |s| > 0 && (s[0] == '+' || s[0] == '-')
  }

  /** `s` with at most one leading sign removed. */
  function Unsigned(s: string): string {
    if HasSign(s) then s[1..] else s
  }

  /** What `Atoi` accepts syntactically: an optional sign followed by one or
      more decimal digits. */
  predicate WellFormed(s: string) {
    |Unsigned(s)| > 0 && AllDigits(Unsigned(s))
  }

  /** The integer a well-formed decimal string denotes. */
  function SignedValue(s: string): int
    requires WellFormed(s)
  {
    if s[0] == '-' then -(DecimalValue(Unsigned(s)) as int) else DecimalValue(Unsigned(s))
  }

  /** `strconv.Atoi` on a 64-bit platform. Its fast path for inputs shorter
      than 19 bytes yields the same results as the general `ParseInt` path
      modelled here, since such inputs cannot overflow. */
  function Atoi(s: string): (r: Result<int, NumError>)
    ensures r.Err? ==> r.error.func == "Atoi" && r.error.num == s
    ensures r.Ok? ==> InInt64(r.value)
  {
    var body := Unsigned(s);
    if body == [] then Err(NumError("Atoi", s, ErrSyntax))
    else
      match ScanUint64(body, 0)
      case Syntax => Err(NumError("Atoi", s, ErrSyntax))
      case Overflow => Err(NumError("Atoi", s, ErrRange))
      case Value(n) =>
        if s[0] == '-' then
          if n > -MinInt64 then Err(NumError("Atoi", s, ErrRange)) else Ok(-(n as int))
        else
          if n > MaxInt64 then Err(NumError("Atoi", s, ErrRange)) else Ok(n)
  }

  /** The longest prefix of `s` made of decimal digits: the characters the
      digit loop consumes before it stops or meets a non-digit. */
  function LeadingDigits(s: string): (r: string)
    ensures AllDigits(r) && r <= s
    ensures |r| < |s| ==> !IsDigit(s[|r|])
    ensures AllDigits(s) ==> r == s
  {
    if s == [] || !IsDigit(s[0]) then [] else [s[0]] + LeadingDigits(s[1..])
  }

  /** Whether the digits that follow the sign overflow 64 unsigned bits. */
  predicate DigitRunOverflows(s: string) {
    DecimalValue(LeadingDigits(Unsigned(s))) > MaxUint64
  }

  // ---------------------------------------------------------------------
  // Itoa

  /** The decimal digits of `n`, without leading zeros. */
  function FormatNat(n: nat): (r: string)
    ensures |r| > 0 && AllDigits(r)
    ensures r[0] == '0' ==> n == 0
  {
    if n < 10 then [DigitChar(n)] else FormatNat(n / 10) + [DigitChar(n % 10)]
  }

  /** `strconv.Itoa`, which `fmt`'s `%d` verb also produces. */
  function Itoa(n: int): string {
    if n < 0 then "-" + FormatNat(-n) else FormatNat(n)
  }

  // ---------------------------------------------------------------------
  // Quote

  /** Whether `Quote` copies `c` unchanged: printable ASCII other than the
      double quote and the backslash, or any non-ASCII character. */
  predicate QuotesVerbatim(c: char) {
    c != '"' && c != '\\' && (c as int >= 0x80 || 0x20 <= c as int < 0x7f)
  }

  function HexDigit(d: nat): char
    requires d < 16
  {
    if d < 10 then DigitChar(d) else ('a' as int + d - 10) as char
  }

  /** How `strconv.Quote` writes one character. */
  function QuoteChar(c: char): string {
    if c == '"' || c == '\\' then ['\\', c]
    else if QuotesVerbatim(c) then [c]
    else if c as int == 7 then "\\a"
    else if c as int == 8 then "\\b"
    else if c as int == 12 then "\\f"
    else if c as int == 10 then "\\n"
    else if c as int == 13 then "\\r"
    else if c as int == 9 then "\\t"
    else if c as int == 11 then "\\v"
    else "\\x" + [HexDigit(c as int / 16), HexDigit(c as int % 16)]
  }

  function QuoteChars(s: string): string {
    if s == [] then [] else QuoteChar(s[0]) + QuoteChars(s[1..])
  }

  /** `strconv.Quote`: a double-quoted Go string literal for `s`. */
  function Quote(s: string): string {
    "\"" + QuoteChars(s) + "\""
  }

  // ---------------------------------------------------------------------
  // Properties

  lemma {:induction false} HornerGrows(acc: nat, s: string)
    requires AllDigits(s)
    ensures Horner(acc, s) >= acc
    decreases s
  {
    if s != [] {
      HornerGrows(acc * 10 + DigitValue(s[0]), s[1..]);
    }
  }

  lemma {:induction false} HornerAppend(acc: nat, s: string, c: char)
    requires AllDigits(s) && IsDigit(c)
    ensures AllDigits(s + [c])
    ensures Horner(acc, s + [c]) == Horner(acc, s) * 10 + DigitValue(c)
    decreases s
  {
    if s != [] {
      assert (s + [c])[1..] == s[1..] + [c];
      HornerAppend(acc * 10 + DigitValue(s[0]), s[1..], c);
    }
  }

  /** The digit loop succeeds exactly on digit strings whose value fits in
      64 unsigned bits, and then yields that value. */
  lemma {:induction false} ScanUint64Value(s: string, acc: nat)
    requires acc <= MaxUint64
    ensures ScanUint64(s, acc).Value? <==> AllDigits(s) && Horner(acc, s) <= MaxUint64
    ensures ScanUint64(s, acc).Value? ==> ScanUint64(s, acc).n == Horner(acc, s)
  {
    if s != [] && IsDigit(s[0]) {
      var next := acc * 10 + DigitValue(s[0]);
      assert AllDigits(s) <==> AllDigits(s[1..]) by {
        assert forall i :: 0 < i < |s| ==> s[i] == s[1..][i - 1];
      }
      if next > MaxUint64 {
        if AllDigits(s) {
          HornerGrows(next, s[1..]);
        }
      } else {
        ScanUint64Value(s[1..], next);
      }
    }
  }

  /** `Atoi` accepts exactly the well-formed strings whose value fits in a
      64-bit `int`, and returns that value. */
  lemma AtoiAccepts(s: string)
    ensures Atoi(s).Ok? <==> WellFormed(s) && InInt64(SignedValue(s))
    ensures Atoi(s).Ok? ==> Atoi(s).value == SignedValue(s)
  {
    var body := Unsigned(s);
    if body != [] {
      ScanUint64Value(body, 0);
    }
  }

  /** The digit loop overflows exactly when the run of digits at the head of
      its input does. */
  lemma {:induction false} ScanUint64Overflow(s: string, acc: nat)
    requires acc <= MaxUint64
    ensures ScanUint64(s, acc) == Overflow <==> Horner(acc, LeadingDigits(s)) > MaxUint64
    decreases s
  {
    if s != [] && IsDigit(s[0]) {
      var next := acc * 10 + DigitValue(s[0]);
      var rest := LeadingDigits(s[1..]);
      assert LeadingDigits(s) == [s[0]] + rest;
      assert ([s[0]] + rest)[0] == s[0] && ([s[0]] + rest)[1..] == rest;
      assert Horner(acc, LeadingDigits(s)) == Horner(next, rest);
      if next > MaxUint64 {
        HornerGrows(next, rest);
      } else {
        ScanUint64Overflow(s[1..], next);
      }
    }
  }

  /** Which error `Atoi` reports: a range error when the digits after the
      sign overflow 64 unsigned bits (whatever follows them), or when the
      string is well formed but its value lies outside the 64-bit `int`
      range; a syntax error when it is not well formed and its leading digits
      do not overflow. */
  lemma AtoiErrorKind(s: string)
    ensures Atoi(s).Err? && Atoi(s).error.err == ErrRange
            <==> DigitRunOverflows(s) || (WellFormed(s) && !InInt64(SignedValue(s)))
    ensures Atoi(s).Err? && Atoi(s).error.err == ErrSyntax
            <==> !WellFormed(s) && !DigitRunOverflows(s)
  {
    var body := Unsigned(s);
    AtoiAccepts(s);
    if body != [] {
      ScanUint64Value(body, 0);
      ScanUint64Overflow(body, 0);
    }
  }

  /** `FormatNat` is read back by `DecimalValue`. */
  lemma {:induction false} FormatNatValue(n: nat)
    ensures DecimalValue(FormatNat(n)) == n
  {
    if n < 10 {
      var c := DigitChar(n);
      assert FormatNat(n) == [c];
      assert [c][1..] == [];
      assert Horner(0, [c]) == Horner(DigitValue(c), []);
    } else {
      FormatNatValue(n / 10);
      HornerAppend(0, FormatNat(n / 10), DigitChar(n % 10));
      assert n / 10 * 10 + n % 10 == n;
    }
  }

  /** `Atoi` inverts `Itoa` on every 64-bit integer. */
  lemma AtoiItoa(n: int)
    requires InInt64(n)
    ensures Atoi(Itoa(n)) == Ok(n)
  {
    var s := Itoa(n);
    var digits := FormatNat(if n < 0 then -n else n);
    assert Unsigned(s) == digits;
    FormatNatValue(if n < 0 then -n else n);
    AtoiAccepts(s);
  }

  /** A leading `+` is accepted: `Atoi("+" + Itoa(n))` is `n` for every
      non-negative 64-bit `n`. */
  lemma AtoiPlusSign(n: int)
    requires 0 <= n <= MaxInt64
    ensures Atoi("+" + Itoa(n)) == Ok(n)
  {
    var s := "+" + Itoa(n);
    assert Unsigned(s) == FormatNat(n);
    FormatNatValue(n);
    AtoiAccepts(s);
  }

  /** A string without quotes, backslashes or control characters is quoted by
      surrounding it with double quotes. */
  lemma {:induction false} QuoteVerbatim(s: string)
    requires forall i :: 0 <= i < |s| ==> QuotesVerbatim(s[i])
    ensures Quote(s) == "\"" + s + "\""
    ensures QuoteChars(s) == s
  {
    if s != [] {
      QuoteVerbatim(s[1..]);
      assert s == [s[0]] + s[1..];
    }
  }
}
