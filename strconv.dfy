/**
 * The parts of Go's strconv package and of fmt's %d verb that the Go debug
 * service relies on to read query parameters and to write them back.
 */
module GoStrconv {
  import opened Wrappers

  /** Bounds of Go's `int` on a 64-bit platform, the range Atoi accepts. */
  const MinInt64: int := -0x8000_0000_0000_0000
  const MaxInt64: int := 0x7FFF_FFFF_FFFF_FFFF

  predicate InInt64(n: int) { MinInt64 <= n <= MaxInt64 }

  /** The spellings strconv.ParseBool accepts as true and as false. */
  const TrueSpellings: set<string> := {"1", "t", "T", "TRUE", "true", "True"}
  const FalseSpellings: set<string> := {"0", "f", "F", "FALSE", "false", "False"}

  /** strconv.ParseBool: a value for the twelve recognised spellings, an error for anything else. */
  function ParseBool(s: string): (r: Option<bool>)
    ensures r == Some(true) <==> s in TrueSpellings
    ensures r == Some(false) <==> s in FalseSpellings
    ensures r == None <==> s !in TrueSpellings + FalseSpellings
  {
    if s in TrueSpellings then Some(true)
    else if s in FalseSpellings then Some(false)
    else None
  }

  predicate IsDigit(c: char) { '0' <= c <= '9' }

  predicate AllDigits(s: string) { forall i :: 0 <= i < |s| ==> IsDigit(s[i]) }

  function DigitValue(c: char): nat
    requires IsDigit(c)
  {
    (c as int) - ('0' as int)
  }

  function DigitChar(d: nat): (c: char)
    requires d < 10
    ensures IsDigit(c) && DigitValue(c) == d
  {
    (('0' as int) + d) as char
  }

  /** The number a string of decimal digits denotes, most significant digit first. */
  function ParseDigits(s: string): nat
    requires AllDigits(s)
  {
    if s == [] then 0 else ParseDigits(s[..|s| - 1]) * 10 + DigitValue(s[|s| - 1])
  }

  /** The shortest decimal spelling of a natural number. */
  function Digits(n: nat): (s: string)
    ensures |s| > 0 && AllDigits(s)
    decreases n
  {
    if n < 10 then [DigitChar(n)] else Digits(n / 10) + [DigitChar(n % 10)]
  }

  /** fmt's %d (and strconv.Itoa): a minus sign for negative numbers, then the digits. */
  function FormatInt(n: int): (s: string)
    ensures |s| > 0
    ensures n >= 0 <==> IsDigit(s[0])
    ensures n >= 0 ==> AllDigits(s)
    ensures n < 0 <==> s[0] == '-'
  {
    if n < 0 then "-" + Digits(-n) else Digits(n)
  }

  /** The text after an optional leading sign, and whether that sign was a minus. */
  function SplitSign(s: string): (string, bool)
  {
    if |s| > 0 && (s[0] == '+' || s[0] == '-') then (s[1..], s[0] == '-') else (s, false)
  }

  /** A magnitude with its sign applied. */
  function Signed(n: nat, negative: bool): int
  {
    if negative then 0 - n else n
  }

  /** The largest value of Go's `uint64`, where ParseUint stops with a range error. */
  const MaxUint64: int := 0xFFFF_FFFF_FFFF_FFFF

  /** The longest run of decimal digits at the start of a string. */
  function LeadingDigits(s: string): (run: string)
    ensures |run| <= |s| && run == s[..|run|] && AllDigits(run)
    ensures |run| < |s| ==> !IsDigit(s[|run|])
    ensures AllDigits(s) ==> run == s
  {
    if s == [] || !IsDigit(s[0]) then [] else [s[0]] + LeadingDigits(s[1..])
  }

  /** The error a strconv parse reports. */
  datatype NumError = NoError | SyntaxError | RangeError

  /**
   * The digit loop of strconv.ParseUint(s, 10, 64), continuing from the
   * value `n` read so far: a non-digit stops it with a syntax error (value
   * 0), a digit that would take the value past MaxUint64 stops it with a
   * range error (value MaxUint64), and the text after either is never read.
   */
  function ScanUint(s: string, n: nat): (nat, NumError)
    requires n <= MaxUint64
    decreases |s|
  {
    if s == [] then (n, NoError)
    else if !IsDigit(s[0]) then (0, SyntaxError)
    else if n * 10 + DigitValue(s[0]) > MaxUint64 then (MaxUint64, RangeError)
    else ScanUint(s[1..], n * 10 + DigitValue(s[0]))
  }

  /**
   * strconv.ParseInt(s, 10, 64): the sign, ParseUint on the rest (the empty
   * rest is a syntax error), then a clamp to the nearest 64-bit bound with a
   * range error. A syntax error gives 0. strconv.Atoi takes a shortcut for
   * strings under 19 bytes that gives the same value and error.
   */
  function ParseInt(s: string): (r: (int, NumError))
    ensures InInt64(r.0)
    ensures var (t, negative) := SplitSign(s);
      && (r.1 == NoError <==> t != [] && AllDigits(t) && InInt64(Signed(ParseDigits(t), negative)))
      && (r.1 == NoError ==> AllDigits(t) && r.0 == Signed(ParseDigits(t), negative))
    ensures var (t, negative) := SplitSign(s);
      var run := LeadingDigits(t);
      && (r.1 == SyntaxError <==> t == [] || (|run| < |t| && ParseDigits(run) <= MaxUint64))
      && (r.1 == SyntaxError ==> r.0 == 0)
      && (r.1 == RangeError ==> r.0 == if negative then MinInt64 else MaxInt64)
  {
    var (t, negative) := SplitSign(s);
    if t == [] then (0, SyntaxError)
    else
      ScanUintDigitRun(t);
      var (un, err) := ScanUint(t, 0);
      if err == SyntaxError then (0, SyntaxError)
      else if !negative && un > MaxInt64 then (MaxInt64, RangeError)
      else if negative && un > 0 - MinInt64 then (MinInt64, RangeError)
      else (Signed(un, negative), err)
  }

  /** The bound ParseUint's loop reaches, stated on the leading digit run. */
  lemma ScanUintDigitRun(t: string)
    requires t != []
    ensures var run := LeadingDigits(t);
      ScanUint(t, 0) ==
        if ParseDigits(run) > MaxUint64 then (MaxUint64, RangeError)
        else if |run| < |t| then (0, SyntaxError)
        else (ParseDigits(t), NoError)
  {
    assert t[..0] == [] && t[0..] == t;
    ScanUintFrom(t, 0);
  }

  lemma {:induction false} ScanUintFrom(t: string, i: nat)
    requires i <= |LeadingDigits(t)|
    requires AllDigits(t[..i]) && ParseDigits(t[..i]) <= MaxUint64
    ensures var run := LeadingDigits(t);
      ScanUint(t[i..], ParseDigits(t[..i])) ==
        if ParseDigits(run) > MaxUint64 then (MaxUint64, RangeError)
        else if |run| < |t| then (0, SyntaxError)
        else (ParseDigits(t), NoError)
    decreases |t| - i
  {
    var run := LeadingDigits(t);
    if i == |t| {
      assert t[..i] == t && run == t;
    } else if i == |run| {
      assert run == t[..i];
    } else {
      var n := ParseDigits(t[..i]);
      assert t[..i + 1][..i] == t[..i];
      assert ParseDigits(t[..i + 1]) == n * 10 + DigitValue(t[i]);
      assert t[i..][0] == t[i] && t[i..][1..] == t[i + 1..];
      if n * 10 + DigitValue(t[i]) > MaxUint64 {
        assert run[..i + 1] == t[..i + 1];
        ParseDigitsPrefix(run, i + 1);
      } else {
        ScanUintFrom(t, i + 1);
      }
    }
  }

  /** A prefix of a digit string never denotes more than the whole string. */
  lemma {:induction false} ParseDigitsPrefix(s: string, k: nat)
    requires AllDigits(s) && k <= |s|
    ensures ParseDigits(s[..k]) <= ParseDigits(s)
    decreases |s|
  {
    if k < |s| {
      var init := s[..|s| - 1];
      assert init[..k] == s[..k];
      assert ParseDigits(s) == ParseDigits(init) * 10 + DigitValue(s[|s| - 1]);
      ParseDigitsPrefix(init, k);
    } else {
      assert s[..k] == s;
    }
  }

  /**
   * strconv.Atoi: succeeds exactly on an optional '+' or '-' followed by at
   * least one decimal digit whose signed value fits in a 64-bit int, and
   * then gives that value.
   */
  function Atoi(s: string): (r: Option<int>)
    ensures var (t, negative) := SplitSign(s);
      && (r.Some? <==> t != [] && AllDigits(t) && InInt64(Signed(ParseDigits(t), negative)))
      && (r.Some? ==> AllDigits(t) && r.value == Signed(ParseDigits(t), negative))
    ensures s == "" ==> r == None
  {
    var (n, err) := ParseInt(s);
    if err == NoError then Some(n) else None
  }

  /**
   * The int strconv.Atoi returns beside its error, which callers that
   * discard the error go on to use: the parsed value on success; 0 after a
   * syntax error, that is an empty number or a non-digit met before the
   * digits read so far pass MaxUint64; and the 64-bit bound on the side of
   * the sign after a range error, which includes a digit run past MaxUint64
   * followed by any text.
   */
  function AtoiValue(s: string): (v: int)
    ensures InInt64(v)
    ensures Atoi(s).Some? ==> v == Atoi(s).value
    ensures var (t, negative) := SplitSign(s);
      var run := LeadingDigits(t);
      && (t == [] || (|run| < |t| && ParseDigits(run) <= MaxUint64) ==> v == 0)
      && (ParseDigits(run) > MaxUint64 ==> v == if negative then MinInt64 else MaxInt64)
      && (t != [] && AllDigits(t) && !InInt64(Signed(ParseDigits(t), negative)) ==>
            v == if negative then MinInt64 else MaxInt64)
  {
    ParseInt(s).0
  }

  function Pow10(k: nat): nat
  {
    if k == 0 then 1 else 10 * Pow10(k - 1)
  }

  lemma Pow10Past64Bits()
    ensures Pow10(20) > MaxUint64
  {
    assert Pow10(10) == 10_000_000_000;
  }

  /** `k` nines, the largest number of k digits. */
  function Nines(k: nat): (s: string)
    ensures |s| == k && AllDigits(s)
  {
    if k == 0 then "" else Nines(k - 1) + "9"
  }

  lemma {:induction false} NinesValue(k: nat)
    ensures ParseDigits(Nines(k)) == Pow10(k) - 1
  {
    if k > 0 {
      assert Nines(k)[..k - 1] == Nines(k - 1);
      NinesValue(k - 1);
    }
  }

  /**
   * Inputs on which the discarded int is not simply "0 on error": twenty
   * nines overflow uint64, so a range error is reported and the value is
   * clamped whatever text follows; a non-digit met earlier gives 0.
   */
  lemma AtoiValueExamples()
    ensures AtoiValue(Nines(20) + "x") == MaxInt64
    ensures AtoiValue("-" + Nines(20) + "x") == MinInt64
    ensures AtoiValue("1x2") == 0
  {
    var t := Nines(20) + "x";
    NinesValue(20);
    assert t[..20] == Nines(20);
    var run := LeadingDigits(t);
    assert t[20] == 'x';
    assert run == Nines(20);
    Pow10Past64Bits();
    assert ParseDigits(run) > MaxUint64;
    assert IsDigit(t[0]) && SplitSign(t) == (t, false);
    assert "-" + Nines(20) + "x" == "-" + t;
    assert ("-" + t)[1..] == t && SplitSign("-" + t) == (t, true);
  }

  lemma {:induction false} ParseDigitsOfDigits(n: nat)
    ensures ParseDigits(Digits(n)) == n
    decreases n
  {
    if n >= 10 {
      var s := Digits(n);
      assert s == Digits(n / 10) + [DigitChar(n % 10)];
      assert s[..|s| - 1] == Digits(n / 10);
      ParseDigitsOfDigits(n / 10);
    }
  }

  /** Formatting an int with %d and reading it back with Atoi gives the same int. */
  lemma AtoiFormatInt(n: int)
    requires InInt64(n)
    ensures Atoi(FormatInt(n)) == Some(n)
  {
    if n < 0 {
      var s := FormatInt(n);
      assert s[1..] == Digits(-n);
      ParseDigitsOfDigits(-n);
    } else {
      ParseDigitsOfDigits(n);
    }
  }
}
