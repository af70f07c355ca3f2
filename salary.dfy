/** The target-salary field of the scenario form. On every keystroke the
    form keeps only the ASCII digits of what was typed, reads them as a
    number and stores that number written the en-US way ("1,234,567"); when
    no digit is left it stores the empty string. */
module Salary {

  predicate IsDigit(c: char) {
    '0' <= c <= '9'
  }

  predicate IsDigitString(s: string) {
    forall k :: 0 <= k < |s| ==> IsDigit(s[k])
  }

  function DigitValue(c: char): nat
    requires IsDigit(c)
  {
    c as int - '0' as int
  }

  function DigitChar(d: nat): (c: char)
    requires d < 10
    ensures IsDigit(c) && DigitValue(c) == d
  {
    ('0' as int + d) as char
  }

  /** `raw.replace(/[^0-9]/g, "")`: every ASCII digit of `s`, in order. */
  function StripNonDigits(s: string): (r: string)
    ensures IsDigitString(r)
    ensures |r| <= |s|
    ensures r == [] <==> forall k :: 0 <= k < |s| ==> !IsDigit(s[k])
    ensures IsDigitString(s) ==> r == s
  {
    if s == [] then []
    else (if IsDigit(s[0]) then [s[0]] else []) + StripNonDigits(s[1..])
  }

  /** Stripping works character by character: the digits of `a + b` are the
      digits of `a` followed by the digits of `b`, so every digit typed is
      kept, in the order it was typed. */
  lemma {:induction false} StripNonDigitsAppend(a: string, b: string)
    ensures StripNonDigits(a + b) == StripNonDigits(a) + StripNonDigits(b)
  {
    if a == [] {
      assert a + b == b;
    } else {
      assert (a + b)[1..] == a[1..] + b;
      StripNonDigitsAppend(a[1..], b);
    }
  }

  /** A single character is kept exactly when it is a digit. */
  lemma StripNonDigitsChar(c: char)
    ensures StripNonDigits([c]) == if IsDigit(c) then [c] else []
  {
    assert [c][1..] == [];
  }

  /** `Number(raw)` on a string of decimal digits, as an exact natural. */
  function Value(ds: string): nat
    requires IsDigitString(ds)
  {
    if ds == [] then 0 else Value(ds[..|ds| - 1]) * 10 + DigitValue(ds[|ds| - 1])
  }

  /** The decimal numeral of `n` with no leading zero; reading it back gives `n`. */
  function Decimal(n: nat): (r: string)
    ensures r != [] && IsDigitString(r)
    ensures Value(r) == n
    ensures r[0] == '0' <==> n == 0
  {
    if n < 10 then [DigitChar(n)]
    else
      var r := Decimal(n / 10) + [DigitChar(n % 10)];
      assert r[..|r| - 1] == Decimal(n / 10);
      r
  }

  /** Three digits, zero-padded: the groups after the first one. */
  function Pad3(m: nat): (r: string)
    requires m < 1000
    ensures |r| == 3 && IsDigitString(r)
  {
    [DigitChar(m / 100), DigitChar(m / 10 % 10), DigitChar(m % 10)]
  }

  /** `n.toLocaleString("en-US")` for a natural: the decimal numeral with a
      comma before every group of three digits counted from the right. */
  function Group(n: nat): string
  {
    if n < 1000 then Decimal(n) else Group(n / 1000) + "," + Pad3(n % 1000)
  }

  /** The salary `onChange` handler: what the form stores for a typed value. */
  function NormaliseSalary(typed: string): string
  {
    var raw := StripNonDigits(typed);
    if raw != [] then Group(Value(raw)) else ""
  }

  /** The same text with its commas deleted. */
  function RemoveCommas(s: string): (r: string)
    ensures |r| <= |s|
  {
    if s == [] then [] else (if s[0] == ',' then [] else [s[0]]) + RemoveCommas(s[1..])
  }

  /** A digit string with its leading zeros dropped, or "0" if it had no
      other digit: how `Number(raw).toLocaleString` treats extra zeros. */
  function DropLeadingZeros(ds: string): (r: string)
    ensures |r| <= |ds|
  {
    if ds != [] && ds[0] == '0' then DropLeadingZeros(ds[1..]) else ds
  }

  function CanonicalDigits(ds: string): string
  {
    var t := DropLeadingZeros(ds);
    if t == [] then "0" else t
  }

  /** Commas group digits in threes from the right: reading from the end,
      every fourth character is a comma, every other one a digit, and the
      text does not start with a comma. */
  predicate GroupedInThrees(s: string) {
    && s != []
    && s[0] != ','
    && (forall k :: 0 <= k < |s| ==> (s[k] == ',' <==> (|s| - 1 - k) % 4 == 3))
    && (forall k :: 0 <= k < |s| && s[k] != ',' ==> IsDigit(s[k]))
  }

  // ---- the normaliser's properties ----

  /** The stored salary is empty exactly when the typed text has no ASCII digit. */
  lemma NormalisedEmptyIff(typed: string)
    ensures NormaliseSalary(typed) == "" <==> forall k :: 0 <= k < |typed| ==> !IsDigit(typed[k])
  {
    var raw := StripNonDigits(typed);
    if raw != [] {
      GroupShape(Value(raw));
    }
  }

  /** Every stored salary is a well-formed en-US grouping of digits. */
  lemma {:induction false} GroupShape(n: nat)
    ensures GroupedInThrees(Group(n))
  {
    if n < 1000 {
      if n >= 100 {
        assert |Decimal(n / 10)| == 2;
      } else if n >= 10 {
        assert |Decimal(n / 10)| == 1;
      }
      assert |Decimal(n)| <= 3;
    } else {
      GroupShape(n / 1000);
      GroupedExtend(Group(n / 1000), Pad3(n % 1000));
    }
  }

  /** A grouped numeral followed by a comma and three more digits is grouped. */
  lemma GroupedExtend(g: string, d: string)
    requires GroupedInThrees(g)
    requires |d| == 3 && IsDigitString(d)
    ensures GroupedInThrees(g + "," + d)
  {
    var s := g + "," + d;
    forall k | 0 <= k < |s|
      ensures (s[k] == ',' <==> (|s| - 1 - k) % 4 == 3)
      ensures s[k] != ',' ==> IsDigit(s[k])
    {
      if k < |g| {
        assert s[k] == g[k];
        ModFour(|g| - 1 - k);
      } else if k > |g| {
        assert s[k] == d[k - |g| - 1];
      }
    }
  }

  lemma ModFour(a: int)
    requires a >= 0
    ensures (a + 4) % 4 == a % 4
  {
  }

  lemma {:induction false} RemoveCommasAppend(a: string, b: string)
    ensures RemoveCommas(a + b) == RemoveCommas(a) + RemoveCommas(b)
  {
    if a == [] {
      assert a + b == b;
    } else {
      assert (a + b)[1..] == a[1..] + b;
      RemoveCommasAppend(a[1..], b);
    }
  }

  lemma {:induction false} RemoveCommasOfDigits(ds: string)
    requires IsDigitString(ds)
    ensures RemoveCommas(ds) == ds
  {
    if ds != [] {
      RemoveCommasOfDigits(ds[1..]);
    }
  }

  /** Splitting off the last three digits of a numeral of four or more digits. */
  lemma DecimalSplit(n: nat)
    requires n >= 1000
    ensures Decimal(n) == Decimal(n / 1000) + Pad3(n % 1000)
  {
    var q, m := n / 1000, n % 1000;
    DigitsOfThousands(n);
    var a, b, c := DigitChar(m / 100), DigitChar(m / 10 % 10), DigitChar(m % 10);
    assert Decimal(n / 100) == Decimal(q) + [a];
    assert Decimal(n / 10) == Decimal(q) + [a] + [b];
    assert Decimal(n) == Decimal(q) + [a] + [b] + [c];
  }

  /** The last three decimal digits of `n` are those of `n % 1000`. */
  lemma DigitsOfThousands(n: nat)
    ensures n / 10 / 10 == n / 100 && n / 100 / 10 == n / 1000
    ensures n / 100 % 10 == n % 1000 / 100
    ensures n / 10 % 10 == n % 1000 / 10 % 10
    ensures n % 10 == n % 1000 % 10
  {
    var q, m := n / 1000, n % 1000;
    assert n == q * 1000 + m;
    var a, b, c := m / 100, m / 10 % 10, m % 10;
    assert m == a * 100 + b * 10 + c;
    assert n == (q * 100 + a * 10 + b) * 10 + c;
    assert n / 10 == q * 100 + a * 10 + b;
    assert n / 100 == q * 10 + a;
  }

  /** Deleting the commas of the en-US form gives back the plain numeral. */
  lemma {:induction false} RemoveCommasOfGroup(n: nat)
    ensures RemoveCommas(Group(n)) == Decimal(n)
  {
    if n < 1000 {
      RemoveCommasOfDigits(Decimal(n));
    } else {
      RemoveCommasOfGroup(n / 1000);
      RemoveCommasAppend(Group(n / 1000) + ",", Pad3(n % 1000));
      RemoveCommasAppend(Group(n / 1000), ",");
      RemoveCommasOfDigits(Pad3(n % 1000));
      DecimalSplit(n);
    }
  }

  lemma {:induction false} ValueIgnoresLeadingZero(t: string)
    requires IsDigitString(t)
    ensures Value("0" + t) == Value(t)
  {
    if t != [] {
      var z := "0" + t;
      assert z[..|z| - 1] == "0" + t[..|t| - 1];
      ValueIgnoresLeadingZero(t[..|t| - 1]);
    }
  }

  lemma {:induction false} ValueOfDropLeadingZeros(ds: string)
    requires IsDigitString(ds)
    ensures IsDigitString(DropLeadingZeros(ds))
    ensures Value(DropLeadingZeros(ds)) == Value(ds)
    ensures DropLeadingZeros(ds) == [] || DropLeadingZeros(ds)[0] != '0'
  {
    if ds != [] && ds[0] == '0' {
      assert ds == "0" + ds[1..];
      ValueIgnoresLeadingZero(ds[1..]);
      ValueOfDropLeadingZeros(ds[1..]);
    }
  }

  /** A numeral with no leading zero is worth at least 1. */
  lemma {:induction false} ValuePositive(ds: string)
    requires ds != [] && IsDigitString(ds) && ds[0] != '0'
    ensures Value(ds) >= 1
  {
    if |ds| > 1 {
      ValuePositive(ds[..|ds| - 1]);
    }
  }

  /** `Decimal` is the only numeral without leading zeros for its value. */
  lemma {:induction false} DecimalUnique(ds: string)
    requires ds != [] && IsDigitString(ds) && ds[0] != '0'
    ensures Decimal(Value(ds)) == ds
  {
    var p, c := ds[..|ds| - 1], ds[|ds| - 1];
    var n := Value(ds);
    if |ds| == 1 {
      assert n == DigitValue(c) && n < 10;
      assert DigitChar(n) == c;
    } else {
      ValuePositive(p);
      DecimalUnique(p);
      assert n == Value(p) * 10 + DigitValue(c);
      assert n / 10 == Value(p) && n % 10 == DigitValue(c);
      assert DigitChar(n % 10) == c;
      assert ds == p + [c];
    }
  }

  /** Deleting the commas of the stored salary gives the typed digits with
      their leading zeros dropped ("0" when every digit was a zero). */
  lemma SalaryKeepsTypedDigits(typed: string)
    requires StripNonDigits(typed) != []
    ensures RemoveCommas(NormaliseSalary(typed)) == CanonicalDigits(StripNonDigits(typed))
  {
    var raw := StripNonDigits(typed);
    var t := DropLeadingZeros(raw);
    ValueOfDropLeadingZeros(raw);
    RemoveCommasOfGroup(Value(raw));
    if t != [] {
      DecimalUnique(t);
    }
  }
}
