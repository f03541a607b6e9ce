/** The Fibonacci toy (fibonnachi/src/main.rs): a recursive `fibonacci` on
    signed 64-bit integers behind a result cache, and a `main` that reads one
    line, parses it as an `i64` and falls back to -1 when that fails. */
module Fibonacci {
  import opened Wrappers
  import opened Text

  const MinI64: int := -0x8000_0000_0000_0000
  const MaxI64: int := 0x7FFF_FFFF_FFFF_FFFF

  /** `fibonacci` on unbounded integers: every `n <= 1`, negative ones
      included, is its own value. */
  function Fib(n: int): int
    decreases if n <= 1 then 0 else n
  {
    if n <= 1 then n else Fib(n - 1) + Fib(n - 2)
  }

  /** The values from 0 on are non-negative and never decrease. */
  lemma {:induction false} FibGrows(n: nat)
    ensures 0 <= Fib(n) <= Fib(n + 1)
    decreases n
  {
    if n >= 1 {
      FibGrows(n - 1);
    }
  }

  /** Monotonic over any range of non-negative arguments. */
  lemma {:induction false} FibMonotonic(m: nat, n: nat)
    requires m <= n
    ensures Fib(m) <= Fib(n)
    decreases n - m
  {
    if m < n {
      FibMonotonic(m, n - 1);
      FibGrows(n - 1);
    }
  }

  /** Values at checkpoints, each computed from the previous pair. */
  lemma FibAt20()
    ensures Fib(20) == 6765 && Fib(21) == 10946
  {
  }

  lemma FibAt40()
    ensures Fib(40) == 102334155 && Fib(41) == 165580141
  {
    FibAt20();
  }

  lemma FibAt60()
    ensures Fib(60) == 1548008755920 && Fib(61) == 2504730781961
  {
    FibAt40();
  }

  lemma FibAt80()
    ensures Fib(80) == 23416728348467685 && Fib(81) == 37889062373143906
  {
    FibAt60();
  }

  /** The largest value an `i64` holds is passed between arguments 92 and 93. */
  lemma FibAroundLimit()
    ensures Fib(92) == 7540113804746346429
    ensures Fib(93) == 12200160415121876738
  {
    FibAt80();
  }

  /** For 0 <= n <= 92 the result fits in an `i64`; from 93 on the addition
      in the source overflows. */
  lemma FitsI64Exactly(n: nat)
    ensures Fib(n) <= MaxI64 <==> n <= 92
  {
    FibAroundLimit();
    if n <= 92 {
      FibMonotonic(n, 92);
    } else {
      FibMonotonic(93, n);
    }
  }

  /** The `#[cached]` memo of `fibonacci`: results already computed, by
      argument. */
  class FibCache {
    var memo: map<int, int>

    /** Every cached result is the function's value. */
    predicate Valid()
      reads this
    {
      forall k :: k in memo ==> memo[k] == Fib(k)
    }

    constructor ()
      ensures Valid() && memo == map[]
    {
      memo := map[];
    }

    /** `fibonacci` through the cache: a hit returns the stored result,
        a miss computes it recursively and stores it. The cache never
        changes a result and only grows. */
    method Fibonacci(n: int) returns (r: int)
      requires Valid()
      modifies this
      ensures Valid()
      ensures r == Fib(n)
      ensures n in memo && forall k :: k in old(memo) ==> k in memo
      decreases if n <= 1 then 0 else n
    {
      if n in memo {
        return memo[n];
      }
      if n <= 1 {
        r := n;
      } else {
        var a := Fibonacci(n - 1);
        var b := Fibonacci(n - 2);
        r := a + b;
      }
      memo := memo[n := r];
    }
  }

  /** `str::parse::<i64>`: an optional sign, then at least one decimal
      digit, the value in range. */
  function ParseI64(s: string): (r: Option<int>)
    ensures r.Some? ==> MinI64 <= r.value <= MaxI64
    ensures s == [] ==> r.None?
  {
    var negative := |s| > 0 && s[0] == '-';
    var digits := if |s| > 0 && (s[0] == '-' || s[0] == '+') then s[1..] else s;
    if digits == [] || !AllDigits(digits) then None
    else
      var magnitude: int := DecimalValue(digits);
      var v := if negative then -magnitude else magnitude;
      if MinI64 <= v <= MaxI64 then Some(v) else None
  }

  /** Parsing reads back what `{}` prints for every `i64`. */
  lemma ParsePrinted(n: int)
    requires MinI64 <= n <= MaxI64
    ensures ParseI64(IntToDecimal(n)) == Some(n)
  {
    if n < 0 {
      ParsePrintedNegative(n);
    } else {
      DecimalRoundTrip(n);
    }
  }

  lemma ParsePrintedNegative(n: int)
    requires MinI64 <= n < 0
    ensures ParseI64(IntToDecimal(n)) == Some(n)
  {
    var digits := NatToDecimal(-n);
    DecimalRoundTrip(-n);
    ParseSigned(digits);
  }

  /** A minus sign before a digit string negates its value. */
  lemma ParseSigned(digits: string)
    requires digits != [] && AllDigits(digits)
    requires DecimalValue(digits) <= -MinI64
    ensures ParseI64("-" + digits) == Some(-(DecimalValue(digits) as int))
  {
    var s := "-" + digits;
    assert s[0] == '-' && s[1..] == digits;
  }

  /** The number `main` works with: the trimmed line parsed, or -1. */
  function Input(line: string): (n: int)
    ensures MinI64 <= n <= MaxI64
    ensures ParseI64(Trim(line)).None? ==> n == -1
    ensures ParseI64(Trim(line)).Some? ==> n == ParseI64(Trim(line)).value
  {
    match ParseI64(Trim(line))
    case Some(v) => v
    case None => -1
  }

  /** What `main` prints for a line: the input and its Fibonacci value, or
      `None` where the `i64` addition overflows. */
  function Answer(line: string): (r: (int, Option<int>))
    ensures r.0 == Input(line)
    ensures r.1.Some? <==> r.0 <= 92
    ensures r.1.Some? ==> r.1.value == Fib(r.0) && MinI64 <= r.1.value <= MaxI64
  {
    var n := Input(line);
    if n <= 92 then
      assert MinI64 <= Fib(n) <= MaxI64 by {
        if n >= 0 {
          FitsI64Exactly(n);
          FibGrows(n);
        }
      }
      (n, Some(Fib(n)))
    else
      FitsI64Exactly(n);
      (n, None)
  }

  /** A line without a single digit prints -1 for both the input and its
      value. */
  lemma NoDigitPrintsMinusOne(line: string)
    requires forall i :: 0 <= i < |line| ==> !IsDigit(line[i])
    ensures Answer(line) == (-1, Some(-1))
  {
    var t := Trim(line);
    assert ParseI64(t).None? by {
      var k :| OccursAt(line, t, k);
      forall i | 0 <= i < |t|
        ensures !IsDigit(t[i])
      {
        assert t[i] == line[k + i];
      }
      NoDigitNoNumber(t);
    }
    assert Input(line) == -1;
    assert Fib(-1) == -1;
  }

  /** A string without a digit does not parse. */
  lemma NoDigitNoNumber(s: string)
    requires forall i :: 0 <= i < |s| ==> !IsDigit(s[i])
    ensures ParseI64(s).None?
  {
    if |s| > 1 {
      assert !IsDigit(s[1]);
      assert s[1..][0] == s[1];
    } else if |s| == 1 {
      assert !IsDigit(s[0]);
    }
  }
}
