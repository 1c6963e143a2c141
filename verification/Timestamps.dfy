/** How the two cores write the fraction of a second: Go drops trailing zeros, Rust writes three, six or nine digits. */
module Timestamps {

  function Digit(n: nat): char
    requires n < 10
  {
    '0' + n as char
  }

  /** The last k decimal digits. */
  function Digits(n: nat, k: nat): (s: string)
    ensures |s| == k
  {
    if k == 0 then "" else Digits(n / 10, k - 1) + [Digit(n % 10)]
  }

  /** Without trailing zeros. */
  function Trim(s: string): string {
    if s != "" && s[|s| - 1] == '0' then Trim(s[..|s| - 1]) else s
  }

  /** The digits after the point in the Go core; none, and no point, for a whole second. */
  function GoFraction(nanos: nat): string { Trim(Digits(nanos, 9)) }

  function RustFraction(nanos: nat): string {
    if nanos == 0 then ""
    else if nanos % 1_000_000 == 0 then Digits(nanos / 1_000_000, 3)
    else if nanos % 1_000 == 0 then Digits(nanos / 1_000, 6)
    else Digits(nanos, 9)
  }

  /** A reader takes missing digits for zeros. */
  function Pad(s: string): string
    decreases 9 - |s|
  {
    if |s| < 9 then Pad(s + "0") else s
  }

  lemma {:induction false} TrimPads(s: string)
    requires |s| <= 9
    ensures Pad(Trim(s)) == Pad(s)
  {
    if s != "" && s[|s| - 1] == '0' {
      var front := s[..|s| - 1];
      TrimPads(front);
      assert front + "0" == s;
    }
  }

  lemma TrimOne(n: nat, k: nat)
    requires k > 0 && n % 10 == 0
    ensures Trim(Digits(n, k)) == Trim(Digits(n / 10, k - 1))
  {
    assert Digits(n, k)[..k - 1] == Digits(n / 10, k - 1);
  }

  lemma TrimThree(n: nat, k: nat)
    requires k > 3 && n % 1_000 == 0
    ensures Trim(Digits(n, k)) == Trim(Digits(n / 1_000, k - 3))
  {
    hide Digits, Trim;
    Thousandth(n);
    TrimOne(n, k);
    TrimOne(n / 10, k - 1);
    TrimOne(n / 100, k - 2);
  }

  lemma Thousandth(n: nat)
    ensures n / 10 / 10 == n / 100 && n / 100 / 10 == n / 1_000
    ensures n % 1_000 == 0 ==> n % 10 == 0 && n / 10 % 10 == 0 && n / 100 % 10 == 0
  {
  }

  /** What Go writes is what Rust writes without its trailing zeros. */
  lemma GoTrimsRust(nanos: nat)
    requires nanos < 1_000_000_000
    ensures GoFraction(nanos) == Trim(RustFraction(nanos))
  {
    hide Digits, Trim;
    if nanos == 0 {
      TrimThree(0, 9);
      TrimThree(0, 6);
      TrimOne(0, 3);
      TrimOne(0, 2);
      TrimOne(0, 1);
    } else if nanos % 1_000_000 == 0 {
      TrimThree(nanos, 9);
      TrimThree(nanos / 1_000, 6);
      assert nanos / 1_000 / 1_000 == nanos / 1_000_000;
    } else if nanos % 1_000 == 0 {
      TrimThree(nanos, 9);
    }
  }

  lemma TrimmedExactly(s: string)
    ensures Trim(s) == s <==> s == "" || s[|s| - 1] != '0'
  {
    if s != "" && s[|s| - 1] == '0' { TrimShortens(s[..|s| - 1]); }
  }

  lemma {:induction false} TrimShortens(s: string)
    ensures |Trim(s)| <= |s|
  {
    if s != "" && s[|s| - 1] == '0' { TrimShortens(s[..|s| - 1]); }
  }

  /** The cores write one instant alike exactly when it is a whole second or its last written group ends in no zero. */
  lemma SpelledAlikeExactly(nanos: nat)
    requires nanos < 1_000_000_000
    ensures GoFraction(nanos) == RustFraction(nanos) <==>
            nanos == 0
            || (if nanos % 1_000_000 == 0 then nanos / 1_000_000 % 10 != 0
                else if nanos % 1_000 == 0 then nanos / 1_000 % 10 != 0
                else nanos % 10 != 0)
  {
    hide GoFraction, Trim;
    GoTrimsRust(nanos);
    TrimmedExactly(RustFraction(nanos));
  }

  /** Either spelling is read as the same nine digits. */
  lemma ReadAlike(nanos: nat)
    requires nanos < 1_000_000_000
    ensures Pad(GoFraction(nanos)) == Digits(nanos, 9) && Pad(RustFraction(nanos)) == Digits(nanos, 9)
  {
    hide Digits, Trim;
    GoTrimsRust(nanos);
    TrimPads(Digits(nanos, 9));
    TrimPads(RustFraction(nanos));
  }
}
