/**
 * Go's strconv.ParseUint for base 10, which the id check in
 * pkg/handlers/user.go calls with bitSize 32.
 *
 * `ParseUint` follows Go's own algorithm: reject the empty string, resolve the
 * bit size, then read the string left to right, multiplying a uint64
 * accumulator by 10, with a cutoff test before the multiplication and a
 * wrap-around or bound test after adding the digit. `ParseSpec` says the same
 * thing over the whole string at once; `ParseUint`'s postcondition, proved
 * through `ScanMeetsSpec`, says the two agree for every input.
 */
module Strconv {
  import opened Wrappers

  const MaxUint64: nat := 0xFFFF_FFFF_FFFF_FFFF
  const MaxUint32: nat := 0xFFFF_FFFF

  /** Go's cutoff for base 10: the smallest accumulator whose product with 10 overflows uint64. */
  const Cutoff10: nat := MaxUint64 / 10 + 1

  /** The three errors ParseUint reports (strconv.ErrSyntax, strconv.ErrRange, the bit-size error). */
  datatype NumError = ErrSyntax | ErrRange | ErrBitSize

  /** Go's `(uint64, error)` result of ParseUint. */
  datatype ParseResult = ParseResult(value: nat, err: Option<NumError>)

  predicate IsDigit(c: char) { '0' <= c <= '9' }

  function DigitValue(c: char): (d: nat)
    requires IsDigit(c)
    ensures d < 10
  {
    c as int - '0' as int
  }

  predicate AllDigits(s: string) { forall i :: 0 <= i < |s| ==> IsDigit(s[i]) }

  /** One or more ASCII digits and nothing else: no sign, no underscore, no space. */
  predicate IsDecimal(s: string) { |s| > 0 && AllDigits(s) }

  /** The number a string of digits denotes, most significant digit first. */
  function DecValue(s: string): nat
    requires AllDigits(s)
  {
    if s == [] then 0 else DecValue(s[..|s| - 1]) * 10 + DigitValue(s[|s| - 1])
  }

  /** The length of the longest prefix of `s` made of digits. */
  function LeadingDigits(s: string): (n: nat)
    ensures n <= |s| && AllDigits(s[..n])
    ensures n < |s| ==> !IsDigit(s[n])
  {
    if s == [] || !IsDigit(s[0]) then 0
    else
      var n := 1 + LeadingDigits(s[1..]);
      assert s[..n] == [s[0]] + s[1..][..n - 1];
      n
  }

  function Pow2(k: nat): (p: nat)
    ensures p >= 1
  {
    if k == 0 then 1 else 2 * Pow2(k - 1)
  }

  /** Go's `maxVal := 1<<bitSize - 1`. */
  function MaxValue(bitSize: nat): nat
    requires 1 <= bitSize <= 64
  {
    Pow2(bitSize) - 1
  }

  /**
   * What ParseUint(s, 10, bitSize) returns, over the whole string: a syntax
   * error (value 0) for the empty string, a range error (value maxVal) when
   * the digits before the first non-digit already exceed maxVal, a syntax
   * error when a non-digit follows them, and the value of the digits otherwise.
   */
  function ParseSpec(s: string, maxVal: nat): ParseResult
  {
    if s == [] then ParseResult(0, Some(ErrSyntax))
    else
      var p := LeadingDigits(s);
      if DecValue(s[..p]) > maxVal then ParseResult(maxVal, Some(ErrRange))
      else if p < |s| then ParseResult(0, Some(ErrSyntax))
      else ParseResult(DecValue(s), None)
  }

  /** Go's uint64 addition, which wraps modulo 2^64. */
  function AddUint64(a: nat, b: nat): nat
  {
    (a + b) % (MaxUint64 + 1)
  }

  /**
   * The digit loop of ParseUint from position `i`, with `n` the value read so
   * far. A letter or any other non-digit is a syntax error (Go rejects letters
   * because their digit value is not below the base); `n >= Cutoff10` means
   * `n * 10` would overflow; after the multiplication, a sum that wrapped
   * around or exceeds maxVal is a range error.
   */
  function Scan(s: string, i: nat, n: nat, maxVal: nat): ParseResult
    requires i <= |s|
    decreases |s| - i
  {
    if i == |s| then ParseResult(n, None)
    else if !IsDigit(s[i]) then ParseResult(0, Some(ErrSyntax))
    else if n >= Cutoff10 then ParseResult(maxVal, Some(ErrRange))
    else
      var m := n * 10;
      var n1 := AddUint64(m, DigitValue(s[i]));
      if n1 < m || n1 > maxVal then ParseResult(maxVal, Some(ErrRange))
      else Scan(s, i + 1, n1, maxVal)
  }

  /**
   * strconv.ParseUint(s, 10, bitSize). A bit size of 0 means the platform's
   * int size, taken to be 64; a bit size outside 0..64 is an error.
   */
  function ParseUint(s: string, bitSize: int): (r: ParseResult)
    ensures 0 <= bitSize <= 64 ==>
      r == ParseSpec(s, MaxValue(if bitSize == 0 then 64 else bitSize))
    ensures s != [] && (bitSize < 0 || bitSize > 64) ==> r == ParseResult(0, Some(ErrBitSize))
  {
    if s == [] then ParseResult(0, Some(ErrSyntax))
    else if bitSize < 0 || bitSize > 64 then ParseResult(0, Some(ErrBitSize))
    else
      var bits := if bitSize == 0 then 64 else bitSize;
      MaxValueBound(bits);
      ScanMeetsSpec(s, 0, MaxValue(bits));
      Scan(s, 0, 0, MaxValue(bits))
  }

  lemma {:induction false} MaxValueBound(bitSize: nat)
    requires 1 <= bitSize <= 64
    ensures MaxValue(bitSize) <= MaxUint64
  {
    PowMonotone(bitSize, 64);
    Pow2Values();
  }

  lemma {:induction false} Pow2Add(a: nat, b: nat)
    ensures Pow2(a + b) == Pow2(a) * Pow2(b)
  {
    if a > 0 { Pow2Add(a - 1, b); }
  }

  /** The two bit sizes that matter here: 32 (the id check) and 64 (Go's default). */
  lemma Pow2Values()
    ensures Pow2(32) == MaxUint32 + 1
    ensures Pow2(64) == MaxUint64 + 1
  {
    assert Pow2(4) == 16;
    Pow2Add(4, 4);
    assert Pow2(8) == 256;
    Pow2Add(8, 8);
    assert Pow2(16) == 65536;
    Pow2Add(16, 16);
    assert Pow2(32) == 65536 * 65536;
    Pow2Add(32, 32);
    assert Pow2(64) == (MaxUint32 + 1) * (MaxUint32 + 1);
  }

  lemma {:induction false} PowMonotone(j: nat, k: nat)
    requires j <= k
    ensures Pow2(j) <= Pow2(k)
  {
    if j < k { PowMonotone(j, k - 1); }
  }

  /** A prefix of a digit string is a digit string and denotes no larger a number. */
  lemma {:induction false} DecValuePrefix(s: string, j: nat, k: nat)
    requires j <= k <= |s| && AllDigits(s[..k])
    ensures AllDigits(s[..j]) && DecValue(s[..j]) <= DecValue(s[..k])
  {
    assert forall i :: 0 <= i < j ==> s[..j][i] == s[..k][i];
    if j < k {
      assert s[..k][..k - 1] == s[..k - 1];
      DecValuePrefix(s, j, k - 1);
    }
  }

  /** Reading one more digit multiplies the value by ten and adds the digit. */
  lemma DecValueExtend(s: string, i: nat)
    requires i < |s| && AllDigits(s[..i]) && IsDigit(s[i])
    ensures AllDigits(s[..i + 1])
    ensures DecValue(s[..i + 1]) == DecValue(s[..i]) * 10 + DigitValue(s[i])
  {
    assert s[..i + 1][..i] == s[..i];
  }

  /** Go's two overflow tests after `n *= 10` together say exactly that the new value exceeds maxVal. */
  lemma AddOverflow(m: nat, d: nat, maxVal: nat)
    requires m <= MaxUint64 - 5 && d < 10 && maxVal <= MaxUint64
    ensures (AddUint64(m, d) < m || AddUint64(m, d) > maxVal) <==> m + d > maxVal
  {
  }

  /** Once the digits read so far exceed maxVal, the specification reports a range error. */
  lemma SpecRange(s: string, k: nat, maxVal: nat)
    requires 0 < k <= |s| && AllDigits(s[..k]) && DecValue(s[..k]) > maxVal
    ensures ParseSpec(s, maxVal) == ParseResult(maxVal, Some(ErrRange))
  {
    var p := LeadingDigits(s);
    DecValuePrefix(s, k, p);
  }

  /**
   * The loop invariant of ParseUint: started at position `i` with the value of
   * the digits before it (which fits maxVal), the loop returns what the
   * whole-string specification says.
   */
  lemma {:induction false} ScanMeetsSpec(s: string, i: nat, maxVal: nat)
    requires 0 < |s| && i <= |s| && maxVal <= MaxUint64
    requires AllDigits(s[..i]) && DecValue(s[..i]) <= maxVal
    ensures Scan(s, i, DecValue(s[..i]), maxVal) == ParseSpec(s, maxVal)
    decreases |s| - i
  {
    var n := DecValue(s[..i]);
    var p := LeadingDigits(s);
    if i == |s| {
      assert s[..i] == s;
    } else if !IsDigit(s[i]) {
      assert p == i;
    } else {
      DecValueExtend(s, i);
      if n >= Cutoff10 {
        SpecRange(s, i + 1, maxVal);
      } else {
        assert Cutoff10 == 1844674407370955162;
        AddOverflow(n * 10, DigitValue(s[i]), maxVal);
        if n * 10 + DigitValue(s[i]) > maxVal {
          SpecRange(s, i + 1, maxVal);
        } else {
          assert AddUint64(n * 10, DigitValue(s[i])) == DecValue(s[..i + 1]);
          ScanMeetsSpec(s, i + 1, maxVal);
        }
      }
    }
  }

  /**
   * The specification succeeds exactly on decimal strings whose value fits,
   * and then returns that value; every failure is a syntax error with value 0
   * or a range error with value maxVal.
   */
  lemma ParseSpecAccepts(s: string, maxVal: nat)
    ensures ParseSpec(s, maxVal).err == None <==> IsDecimal(s) && DecValue(s) <= maxVal
    ensures ParseSpec(s, maxVal).err == None ==> ParseSpec(s, maxVal).value == DecValue(s)
    ensures ParseSpec(s, maxVal).err == Some(ErrSyntax) ==> ParseSpec(s, maxVal).value == 0
    ensures ParseSpec(s, maxVal).err == Some(ErrRange) ==> ParseSpec(s, maxVal).value == maxVal
  {
    if s != [] {
      var p := LeadingDigits(s);
      if p == |s| {
        assert s[..p] == s;
      }
    }
  }

  /**
   * The decimal rendering of a number, without leading zeros. The handlers
   * never render numbers; this is the inverse against which the id check's
   * round trip is stated.
   */
  function FormatUint(n: nat): (s: string)
    ensures IsDecimal(s)
  {
    var last := ['0' + (n % 10) as char];
    if n < 10 then last else FormatUint(n / 10) + last
  }

  /** Reading back a rendered number gives the number. */
  lemma {:induction false} FormatUintRoundTrip(n: nat)
    ensures DecValue(FormatUint(n)) == n
  {
    var s := FormatUint(n);
    if n >= 10 {
      FormatUintRoundTrip(n / 10);
      assert s[..|s| - 1] == FormatUint(n / 10);
    }
  }
}
