/** Decimal text and the names of HLS Segments (internal/streaming/manifest.go). */
module SegmentNames {
  import opened SegmentTable

  predicate HasPrefix(s: string, prefix: string) {
    |prefix| <= |s| && s[..|prefix|] == prefix
  }

  predicate IsDigit(c: char) {
    '0' <= c <= '9'
  }

  predicate AllDigits(s: string) {
    forall i :: 0 <= i < |s| ==> IsDigit(s[i])
  }

  function Digit(d: nat): (c: char)
    requires d < 10
    ensures IsDigit(c)
  {
    (48 + d) as char
  }

  /** The decimal digits of n. */
  function Digits(n: nat): (s: string)
    ensures |s| > 0 && AllDigits(s)
  {
    if n < 10 then [Digit(n)] else Digits(n / 10) + [Digit(n % 10)]
  }

  /** The number a string of digits stands for. */
  function Value(s: string): nat
    requires AllDigits(s)
  {
    if s == [] then 0
    else Value(s[..|s| - 1]) * 10 + (s[|s| - 1] as int - 48)
  }

  function Zeros(n: nat): (s: string)
    ensures |s| == n && forall i :: 0 <= i < n ==> s[i] == '0'
  {
    seq(n, i => '0')
  }

  /** n with at least width digits, as by the verb %0*d. */
  function Padded(n: nat, width: nat): (s: string)
    ensures AllDigits(s) && |s| >= width && |s| > 0
  {
    if |Digits(n)| >= width then Digits(n) else Zeros(width - |Digits(n)|) + Digits(n)
  }

  function Pow10(k: nat): (p: nat)
    ensures p >= 1
  {
    if k == 0 then 1 else 10 * Pow10(k - 1)
  }

  lemma ValueAppend(s: string, c: char)
    requires AllDigits(s) && IsDigit(c)
    ensures Value(s + [c]) == Value(s) * 10 + (c as int - 48)
  {
    assert (s + [c])[..|s|] == s;
  }

  lemma {:induction false} ValueOfZeros(n: nat, s: string)
    requires AllDigits(s)
    ensures Value(Zeros(n) + s) == Value(s)
    decreases n + |s|
  {
    if s != [] {
      var init := s[..|s| - 1];
      ValueOfZeros(n, init);
      ValueAppend(Zeros(n) + init, s[|s| - 1]);
      assert Zeros(n) + s == Zeros(n) + init + [s[|s| - 1]];
    } else if n > 0 {
      ValueOfZeros(n - 1, []);
      assert Zeros(n) + [] == (Zeros(n - 1) + []) + ['0'];
      ValueAppend(Zeros(n - 1) + [], '0');
    } else {
      assert Zeros(0) + s == s;
    }
  }

  lemma {:induction false} ValueOfDigits(n: nat)
    ensures Value(Digits(n)) == n
  {
    if n < 10 {
      assert Digits(n)[..0] == [];
    } else {
      ValueOfDigits(n / 10);
      ValueAppend(Digits(n / 10), Digit(n % 10));
    }
  }

  lemma ValueOfPadded(n: nat, width: nat)
    ensures Value(Padded(n, width)) == n
  {
    ValueOfDigits(n);
    if |Digits(n)| < width { ValueOfZeros(width - |Digits(n)|, Digits(n)); }
  }

  /** n needs no more than k digits exactly when it is below 10^k. */
  lemma {:induction false} DigitCount(n: nat, k: nat)
    requires k > 0
    ensures |Digits(n)| <= k <==> n < Pow10(k)
    decreases k
  {
    if k == 1 {
      assert Pow10(1) == 10 * Pow10(0);
    } else if n >= 10 {
      DigitCount(n / 10, k - 1);
    } else {
      assert Pow10(k) >= 10;
    }
  }

  /** A string of digits is the padded form of its value. */
  lemma {:induction false} PaddedOfValue(s: string)
    requires AllDigits(s) && s != []
    ensures Padded(Value(s), |s|) == s
    ensures Value(s) < Pow10(|s|)
  {
    var k := |s| - 1;
    var c := s[k];
    assert s == s[..k] + [c];
    if k == 0 {
      assert s[..0] == [];
      assert Value(s) < 10 && Digits(Value(s)) == [c];
      assert Pow10(1) == 10 * Pow10(0);
    } else {
      PaddedOfValue(s[..k]);
      var m := Value(s[..k]);
      var n := Value(s);
      assert n == m * 10 + (c as int - 48) && n / 10 == m && Digit(n % 10) == c;
      PaddedStep(n, k);
    }
  }

  lemma PaddedStep(n: nat, k: nat)
    requires k > 0 && |Padded(n / 10, k)| == k
    ensures Padded(n, k + 1) == Padded(n / 10, k) + [Digit(n % 10)]
  {
    if n < 10 {
      assert Digits(0) == ['0'];
      assert Zeros(k - 1) + ['0'] == Zeros(k);
    } else {
      assert Digits(n) == Digits(n / 10) + [Digit(n % 10)];
    }
  }

  // ----- Segment names -----

  const NAME_LIMIT := 100000

  function SegmentName(i: nat): (name: string) {
    "seg" + Padded(i, 5) + ".ts"
  }

  /** The index in a name of the form seg, five digits, .ts; None for any other name. */
  function ParseSegmentName(name: string): (idx: Option<nat>) {
    if |name| == 11 && name[..3] == "seg" && AllDigits(name[3..8]) && name[8..] == ".ts"
    then Some(Value(name[3..8]))
    else None
  }

  /** A segment's name reads back as its index exactly below 100000; past that the name has six
      digits and is not accepted. */
  lemma NameReadsBack(i: nat)
    ensures i < NAME_LIMIT ==> ParseSegmentName(SegmentName(i)) == Some(i)
    ensures i >= NAME_LIMIT ==> ParseSegmentName(SegmentName(i)) == None
  {
    FiveDigits(i);
    var name := SegmentName(i);
    var digits := Padded(i, 5);
    assert name[3..3 + |digits|] == digits;
    ValueOfPadded(i, 5);
    if |digits| == 5 {
      assert name[..3] == "seg" && name[3..8] == digits && name[8..] == ".ts";
    }
  }

  lemma FiveDigits(i: nat)
    ensures |Padded(i, 5)| == 5 <==> i < NAME_LIMIT
  {
    DigitCount(i, 5);
    assert Pow10(5) == 100000 by {
      assert Pow10(1) == 10 && Pow10(2) == 100 && Pow10(3) == 1000;
    }
  }

  /** No two names are read as the same segment. */
  lemma OnlyItsNameIsRead(name: string, i: nat)
    requires ParseSegmentName(name) == Some(i)
    ensures name == SegmentName(i) && i < NAME_LIMIT
  {
    PaddedOfValue(name[3..8]);
    FiveDigits(i);
    assert name == name[..3] + name[3..8] + name[8..];
  }

  lemma NamesDiffer(i: nat, j: nat)
    requires SegmentName(i) == SegmentName(j)
    ensures i == j
  {
    ValueOfPadded(i, 5);
    ValueOfPadded(j, 5);
    var name := SegmentName(i);
    assert |Padded(i, 5)| == |name| - 6 == |Padded(j, 5)|;
    assert name[3..|name| - 3] == Padded(i, 5);
    assert name[3..|name| - 3] == Padded(j, 5);
  }
}
