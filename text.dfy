// The string and number conversions the PID store relies on: the decimal text
// `echo $!` writes, `bufio.Reader.ReadBytes('\n')`, `strings.ReplaceAll(_, "\n", "")`,
// `strconv.Atoi` on a 64-bit platform, `strings.Contains`, `strings.EqualFold`
// and `filepath.Join`.

module Text {
  import opened CmdErrors

  const MaxInt64: int := 0x7fff_ffff_ffff_ffff
  const MinInt64: int := -0x8000_0000_0000_0000
  const MaxUint64: int := 0xffff_ffff_ffff_ffff
  /** ParseUint's `cutoff` for base 10: the smallest n with n*10 beyond MaxUint64. */
  const UintCutoff: int := MaxUint64 / 10 + 1

  predicate IsDigit(c: char) {
    '0' <= c <= '9'
  }

  function DigitValue(c: char): nat
    requires IsDigit(c)
  {
    (c as int) - ('0' as int)
  }

  function DigitChar(d: nat): (c: char)
    requires d < 10
    ensures IsDigit(c) && DigitValue(c) == d
  {
    (('0' as int) + d) as char
  }

  predicate AllDigits(s: string) {
    forall i :: 0 <= i < |s| ==> IsDigit(s[i])
  }

  // ---------------------------------------------------------------- formatting

  /** Decimal text of a natural number, most significant digit first, no leading zeros. */
  function Digits(n: nat): (s: string)
    ensures |s| > 0 && AllDigits(s)
    decreases n
  {
    if n < 10 then [DigitChar(n)] else Digits(n / 10) + [DigitChar(n % 10)]
  }

  /** `strconv.Itoa`, which is also what the shell's `echo $!` prints for a
      PID: well-formed decimal text whose reference value is i, on one line. */
  function Itoa(i: int): (r: string)
    ensures IsDecimal(r) && DecimalValue(r) == i
    ensures '\n' !in r
  {
    if i < 0 then
      var r := "-" + Digits(-i);
      DigitsValue(-i);
      assert r[1..] == Digits(-i);
      assert forall k :: 1 <= k < |r| ==> IsDigit(r[k]) by {
        forall k | 1 <= k < |r| ensures IsDigit(r[k]) {
          assert r[k] == Digits(-i)[k - 1];
        }
      }
      r
    else
      var r := Digits(i);
      DigitsValue(i);
      assert IsDigit(r[0]);
      r
  }

  /** The PID file content the launcher's `echo $! > pidPath` writes: one
      line, which without its newline is the PID's decimal text. */
  function PidLine(pid: int): (r: string)
    ensures |r| > 0 && ReadLine(r) == Some(r)
    ensures StripNewlines(r) == Itoa(pid)
  {
    var t := Itoa(pid);
    var r := t + "\n";
    assert r[..|t|] == t && r[..|t| + 1] == r;
    StripNewlinesAppend(t);
    r
  }

  // ---------------------------------------------------------------- parsing

  /** The value of a digit string read left to right onto accumulator n: the
      reference meaning of decimal text, without any overflow check. */
  function Accumulate(n: nat, t: string): nat
    requires AllDigits(t)
    decreases |t|
  {
    if t == [] then n else Accumulate(n * 10 + DigitValue(t[0]), t[1..])
  }

  /** The outcome of strconv's decimal scan: a number, or the kind of rejection. */
  datatype Parsed = Number(v: int) | Rejected(kind: NumErrorKind)

  /** The digit loop of `strconv.ParseUint(s, 10, 64)` from position i with
      accumulator n: a non-digit is a syntax error, and the overflow checks come
      before the digit is added, so an overflow met before a bad character is
      reported as out of range. */
  function ScanUint(s: string, i: nat, n: nat): (r: Parsed)
    requires i <= |s| && n <= MaxUint64
    ensures r.Number? ==> 0 <= r.v <= MaxUint64
    decreases |s| - i
  {
    if i == |s| then Number(n)
    else if !IsDigit(s[i]) then Rejected(InvalidSyntax)
    else if n >= UintCutoff then Rejected(OutOfRange)
    else
      var n1 := n * 10 + DigitValue(s[i]);
      if n1 > MaxUint64 then Rejected(OutOfRange) else ScanUint(s, i + 1, n1)
  }

  /** `strconv.ParseInt(s, 10, 64)`: an optional sign, then ParseUint, then the
      signed range check. */
  function ParseInt10(s: string): Parsed {
    if s == [] then Rejected(InvalidSyntax)
    else
      var neg := s[0] == '-';
      var body := if s[0] == '-' || s[0] == '+' then s[1..] else s;
      if body == [] then Rejected(InvalidSyntax)
      else match ScanUint(body, 0, 0)
        case Rejected(k) => Rejected(k)
        case Number(un) =>
          if !neg && un > MaxInt64 then Rejected(OutOfRange)
          else if neg && un > -MinInt64 then Rejected(OutOfRange)
          else Number(if neg then -un else un)
  }

  /** Well-formed signed decimal text: an optional sign and at least one digit. */
  predicate IsDecimal(s: string) {
    var body := if |s| > 0 && (s[0] == '-' || s[0] == '+') then s[1..] else s;
    |body| > 0 && AllDigits(body)
  }

  /** The reference value of well-formed signed decimal text. */
  function DecimalValue(s: string): int
    requires IsDecimal(s)
  {
    if s[0] == '-' then 0 - Accumulate(0, s[1..])
    else if s[0] == '+' then Accumulate(0, s[1..])
    else Accumulate(0, s)
  }

  /** `strconv.Atoi` on a 64-bit platform. Its fast path for short strings gives
      the same answers as ParseInt, which is what is written here. It succeeds
      exactly on well-formed decimal text whose value fits in 64 bits. */
  function Atoi(s: string): (r: Result<int>)
    ensures r.Ok? <==> IsDecimal(s) && MinInt64 <= DecimalValue(s) <= MaxInt64
    ensures r.Ok? ==> r.value == DecimalValue(s)
    ensures r.Err? ==> r.error.NumError? && r.error.num == s
  {
    AtoiAgrees(s);
    match ParseInt10(s)
    case Number(v) => Ok(v)
    case Rejected(k) => Err(NumError(s, k))
  }

  /** `reader.ReadBytes('\n')` on a fresh reader: everything up to and including
      the first newline, or None when the data has no newline (Go then
      returns io.EOF). */
  function ReadLine(s: string): (r: Option<string>)
    ensures r.None? <==> '\n' !in s
    ensures r.Some? ==> exists k :: 0 <= k < |s| && s[k] == '\n' && '\n' !in s[..k] && r.value == s[..k + 1]
    decreases |s|
  {
    if s == [] then None
    else if s[0] == '\n' then
      assert s[..1] == "\n" && s[..0] == [];
      Some("\n")
    else match ReadLine(s[1..])
      case None => None
      case Some(l) =>
        ghost var k :| 0 <= k < |s[1..]| && s[1..][k] == '\n' && '\n' !in s[1..][..k] && l == s[1..][..k + 1];
        assert s[..k + 1] == [s[0]] + s[1..][..k];
        assert s[..k + 2] == [s[0]] + l;
        Some([s[0]] + l)
  }

  /** `strings.ReplaceAll(s, "\n", "")`: the characters of s other than
      newlines, in their order. */
  function StripNewlines(s: string): (r: string)
    ensures '\n' !in r
    ensures '\n' !in s ==> r == s
    ensures forall c :: c in r <==> c in s && c != '\n'
    decreases |s|
  {
    if s == [] then []
    else if s[0] == '\n' then StripNewlines(s[1..])
    else [s[0]] + StripNewlines(s[1..])
  }

  /** The parsing half of `readPID`: the first line, newlines removed, through
      Atoi. A file with no newline gives EOF; otherwise the result is Atoi's
      answer on the text before the first newline. */
  function ParsePidText(content: string): (r: Result<int>)
    ensures '\n' !in content ==> r == Err(EOF)
    ensures forall k | 0 <= k < |content| && content[k] == '\n' && '\n' !in content[..k] :: r == Atoi(content[..k])
    ensures r.Ok? ==> MinInt64 <= r.value <= MaxInt64
    ensures r.Ok? || r.error.EOF? || r.error.NumError?
  {
    match ReadLine(content)
    case None => Err(EOF)
    case Some(line) =>
      var j :| 0 <= j < |content| && content[j] == '\n' && '\n' !in content[..j] && line == content[..j + 1];
      assert line == content[..j] + "\n";
      StripNewlinesAppend(content[..j]);
      Atoi(StripNewlines(line))
  }

  // ---------------------------------------------------------------- proofs

  lemma {:induction false} AccumulateAtLeast(n: nat, t: string)
    requires AllDigits(t)
    ensures Accumulate(n, t) >= n
    decreases |t|
  {
    if t != [] {
      AccumulateAtLeast(n * 10 + DigitValue(t[0]), t[1..]);
    }
  }

  /** ScanUint computes the reference value whenever that value fits, and
      rejects the text when it does not. */
  lemma {:induction false} ScanMatchesAccumulate(s: string, i: nat, n: nat)
    requires i <= |s| && n <= MaxUint64 && AllDigits(s[i..])
    ensures Accumulate(n, s[i..]) <= MaxUint64 ==> ScanUint(s, i, n) == Number(Accumulate(n, s[i..]))
    ensures Accumulate(n, s[i..]) > MaxUint64 ==> ScanUint(s, i, n) == Rejected(OutOfRange)
    decreases |s| - i
  {
    if i < |s| {
      var d := DigitValue(s[i]);
      var n1 := n * 10 + d;
      assert s[i..][0] == s[i] && s[i..][1..] == s[i + 1..];
      assert Accumulate(n, s[i..]) == Accumulate(n1, s[i + 1..]);
      AccumulateAtLeast(n1, s[i + 1..]);
      if n >= UintCutoff {
        assert n1 > MaxUint64;
      } else if n1 <= MaxUint64 {
        ScanMatchesAccumulate(s, i + 1, n1);
      }
    }
  }

  lemma {:induction false} ScanRejectsNonDigits(s: string, i: nat, n: nat)
    requires i <= |s| && n <= MaxUint64 && !AllDigits(s[i..])
    ensures ScanUint(s, i, n).Rejected?
    decreases |s| - i
  {
    assert i < |s|;
    if IsDigit(s[i]) && n < UintCutoff && n * 10 + DigitValue(s[i]) <= MaxUint64 {
      assert !AllDigits(s[i + 1..]) by {
        var j :| 0 <= j < |s[i..]| && !IsDigit(s[i..][j]);
        assert j > 0 && s[i + 1..][j - 1] == s[i..][j];
      }
      ScanRejectsNonDigits(s, i + 1, n * 10 + DigitValue(s[i]));
    }
  }

  lemma AtoiAgrees(s: string)
    ensures ParseInt10(s).Number? <==> IsDecimal(s) && MinInt64 <= DecimalValue(s) <= MaxInt64
    ensures ParseInt10(s).Number? ==> ParseInt10(s).v == DecimalValue(s)
  {
    if s != [] {
      var body := if s[0] == '-' || s[0] == '+' then s[1..] else s;
      if body != [] {
        assert body[0..] == body;
        if AllDigits(body) {
          ScanMatchesAccumulate(body, 0, 0);
        } else {
          ScanRejectsNonDigits(body, 0, 0);
        }
      }
    }
  }

  lemma {:induction false} AccumulateAppend(n: nat, t: string, c: char)
    requires AllDigits(t) && IsDigit(c)
    ensures AllDigits(t + [c])
    ensures Accumulate(n, t + [c]) == Accumulate(n, t) * 10 + DigitValue(c)
    decreases |t|
  {
    if t == [] {
      assert (t + [c])[1..] == [];
    } else {
      assert (t + [c])[0] == t[0] && (t + [c])[1..] == t[1..] + [c];
      AccumulateAppend(n * 10 + DigitValue(t[0]), t[1..], c);
    }
  }

  /** Decimal formatting and Atoi's reference value are inverse. */
  lemma {:induction false} DigitsValue(n: nat)
    ensures Accumulate(0, Digits(n)) == n
    decreases n
  {
    if n >= 10 {
      DigitsValue(n / 10);
      AccumulateAppend(0, Digits(n / 10), DigitChar(n % 10));
    }
  }

  /** Atoi(Itoa(i)) == i for every 64-bit integer. */
  lemma AtoiItoa(i: int)
    requires MinInt64 <= i <= MaxInt64
    ensures Atoi(Itoa(i)) == Ok(i)
  {
  }

  lemma {:induction false} StripNewlinesAppend(s: string)
    requires '\n' !in s
    ensures StripNewlines(s + "\n") == s
    decreases |s|
  {
    if s == [] {
      assert s + "\n" == "\n";
    } else {
      assert (s + "\n")[0] == s[0] && (s + "\n")[1..] == s[1..] + "\n";
      StripNewlinesAppend(s[1..]);
    }
  }

  /** PID store round trip: the text `echo $!` leaves behind reads back as
      the same number, whatever follows the first line. */
  lemma PidLineRoundTrip(pid: int, rest: string)
    requires MinInt64 <= pid <= MaxInt64
    ensures ParsePidText(PidLine(pid) + rest) == Ok(pid)
  {
    var t := Itoa(pid);
    var content := PidLine(pid) + rest;
    assert content[|t|] == '\n' && content[..|t|] == t;
    AtoiItoa(pid);
  }

  // ---------------------------------------------------------------- strings

  /** t occurs in s at position i. */
  predicate OccursAt(s: string, t: string, i: int) {
    0 <= i && i + |t| <= |s| && s[i..i + |t|] == t
  }

  /** `strings.Contains(s, t)`. */
  function Contains(s: string, t: string): (r: bool)
    ensures r <==> exists i :: OccursAt(s, t, i)
    decreases |s|
  {
    if |t| > |s| then false
    else if s[..|t|] == t then assert OccursAt(s, t, 0); true
    else
      var r := Contains(s[1..], t);
      assert r ==> exists i :: OccursAt(s, t, i) by {
        if r {
          var i :| OccursAt(s[1..], t, i);
          assert s[i + 1..i + 1 + |t|] == s[1..][i..i + |t|];
          assert OccursAt(s, t, i + 1);
        }
      }
      assert (exists i :: OccursAt(s, t, i)) ==> r by {
        if exists i :: OccursAt(s, t, i) {
          var i :| OccursAt(s, t, i);
          assert i != 0;
          assert s[1..][i - 1..i - 1 + |t|] == s[i..i + |t|];
          assert OccursAt(s[1..], t, i - 1);
        }
      }
      r
  }

  /** The representative of a character's simple case-folding orbit, for the
      ASCII letters and the Kelvin sign U+212A, whose orbit is {k, K, U+212A}. */
  function FoldClass(c: char): char {
    if 'A' <= c <= 'Z' then ((c as int) + 32) as char
    else if c == '\U{212A}' then 'k'
    else c
  }

  /** `strings.EqualFold(s, t)`: equal under simple Unicode case folding, so
      equal strings match and matching strings have the same length. */
  predicate EqualFold(s: string, t: string): (r: bool)
    ensures s == t ==> r
    ensures r ==> |s| == |t|
  {
    |s| == |t| && forall i :: 0 <= i < |s| ==> FoldClass(s[i]) == FoldClass(t[i])
  }

  /** `filepath.Join(a, b)` for a clean, non-empty a (no path cleaning is modelled). */
  function Join(a: string, b: string): string {
    a + "/" + b
  }
}
