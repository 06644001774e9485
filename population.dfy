/** `population.toLocaleString('en-US')` of the `/:state/population` route
    (routes/states.js), for the non-negative integers the dataset holds:
    decimal digits grouped in threes by commas. */
module PopulationFormat {

  function DigitChar(d: nat): (c: char)
    requires d < 10
    ensures '0' <= c <= '9' && c as int - '0' as int == d
  {
    ('0' as int + d) as char
  }

  /** The plain decimal numeral of `n`, most significant digit first, with no
      leading zero. */
  function Digits(n: nat): (s: string)
    ensures 1 <= |s|
    ensures forall i :: 0 <= i < |s| ==> '0' <= s[i] <= '9'
    ensures n < 10 ==> |s| == 1
    ensures n < 100 ==> |s| <= 2
    ensures n < 1000 ==> |s| <= 3
  {
    if n < 10 then [DigitChar(n)] else Digits(n / 10) + [DigitChar(n % 10)]
  }

  /** The value a string of decimal digits denotes. */
  function ValueOf(s: string): nat
    requires forall i :: 0 <= i < |s| ==> '0' <= s[i] <= '9'
  {
    if s == [] then 0 else 10 * ValueOf(s[..|s| - 1]) + (s[|s| - 1] as int - '0' as int)
  }

  /** A group after a separator: exactly three digits, zero-padded. */
  function ThreeDigits(m: nat): (s: string)
    requires m < 1000
    ensures |s| == 3
  {
    [DigitChar(m / 100), DigitChar(m / 10 % 10), DigitChar(m % 10)]
  }

  /** The shape of an en-US grouped numeral: commas stand exactly at the
      positions a multiple of four characters from the end, so the groups after
      the first have three digits and the first has one to three; every other
      character is a digit. */
  predicate Grouped(s: string) {
    && |s| % 4 != 0
    && (forall i :: 0 <= i < |s| ==> (s[i] == ',' <==> (|s| - i) % 4 == 0))
    && (forall i :: 0 <= i < |s| ==> s[i] == ',' || '0' <= s[i] <= '9')
  }

  /** Adding a separator and a three-digit group keeps the shape. */
  lemma GroupedExtend(head: string, m: nat)
    requires Grouped(head) && m < 1000
    ensures Grouped(head + [','] + ThreeDigits(m))
  {
    var s := head + [','] + ThreeDigits(m);
    var n := |head|;
    assert |s| == n + 4;
    forall i | 0 <= i < |s|
      ensures s[i] == ',' <==> (|s| - i) % 4 == 0
      ensures s[i] == ',' || '0' <= s[i] <= '9'
    {
      if i < n {
        assert s[i] == head[i];
        assert |s| - i == (n - i) + 4;
      } else if i == n {
        assert s[i] == ',';
      } else {
        assert s[i] == ThreeDigits(m)[i - n - 1];
        assert 1 <= |s| - i <= 3;
      }
    }
  }

  /** The en-US display form of `n`. */
  function FormatPopulation(n: nat): (s: string)
    ensures Grouped(s)
  {
    if n < 1000 then Digits(n)
    else
      var head := FormatPopulation(n / 1000);
      GroupedExtend(head, n % 1000);
      head + [','] + ThreeDigits(n % 1000)
  }

  /** The string with its separators removed. */
  function StripCommas(s: string): (t: string)
    ensures forall i :: 0 <= i < |t| ==> t[i] != ','
  {
    if s == [] then []
    else if s[0] == ',' then StripCommas(s[1..])
    else [s[0]] + StripCommas(s[1..])
  }

  lemma {:induction false} StripCommasAppend(a: string, b: string)
    ensures StripCommas(a + b) == StripCommas(a) + StripCommas(b)
  {
    if a != [] {
      assert (a + b)[0] == a[0];
      assert (a + b)[1..] == a[1..] + b;
      StripCommasAppend(a[1..], b);
    } else {
      assert a + b == b;
    }
  }

  lemma {:induction false} StripCommasNoComma(s: string)
    requires forall i :: 0 <= i < |s| ==> s[i] != ','
    ensures StripCommas(s) == s
  {
    if s != [] {
      StripCommasNoComma(s[1..]);
    }
  }

  /** Splitting off the last three digits of a numeral of at least four digits. */
  lemma DigitsSplit(n: nat)
    requires 1000 <= n
    ensures Digits(n) == Digits(n / 1000) + ThreeDigits(n % 1000)
  {
    var q, r := n / 1000, n % 1000;
    assert n / 10 / 10 / 10 == q;
    assert n / 10 / 10 % 10 == r / 100;
    assert n / 10 % 10 == r / 10 % 10;
    assert n % 10 == r % 10;
    calc {
      Digits(n);
      Digits(n / 10) + [DigitChar(n % 10)];
      Digits(n / 10 / 10) + [DigitChar(n / 10 % 10)] + [DigitChar(n % 10)];
      Digits(q) + [DigitChar(n / 10 / 10 % 10)] + [DigitChar(n / 10 % 10)] + [DigitChar(n % 10)];
      Digits(q) + ThreeDigits(r);
    }
  }

  /** Removing the separators leaves exactly the decimal numeral of `n`. */
  lemma {:induction false} FormatStripsToDigits(n: nat)
    ensures StripCommas(FormatPopulation(n)) == Digits(n)
  {
    if n < 1000 {
      StripCommasNoComma(Digits(n));
    } else {
      var head := FormatPopulation(n / 1000);
      assert FormatPopulation(n) == head + ([','] + ThreeDigits(n % 1000));
      StripCommasAppend(head, [','] + ThreeDigits(n % 1000));
      FormatStripsToDigits(n / 1000);
      StripCommasNoComma(ThreeDigits(n % 1000));
      assert StripCommas([','] + ThreeDigits(n % 1000)) == StripCommas(ThreeDigits(n % 1000));
      DigitsSplit(n);
    }
  }

  /** The numeral reads back as the number it was made from. */
  lemma {:induction false} DigitsRoundTrip(n: nat)
    ensures ValueOf(Digits(n)) == n
  {
    if 10 <= n {
      var s := Digits(n);
      assert s[..|s| - 1] == Digits(n / 10);
      DigitsRoundTrip(n / 10);
    }
  }

  /** Reading the displayed population with its commas ignored gives back the
      population. */
  lemma FormatRoundTrip(n: nat)
    ensures var t := StripCommas(FormatPopulation(n));
            (forall i :: 0 <= i < |t| ==> '0' <= t[i] <= '9') && ValueOf(t) == n
  {
    FormatStripsToDigits(n);
    DigitsRoundTrip(n);
  }
}
