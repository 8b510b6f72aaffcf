/** Cache and counter keys built by template strings: a prefix, a colon and a number in decimal. */
module Text {
  import opened Wrappers

  function Digit(d: nat): char
    requires d < 10
  {
    "0123456789"[d]
  }

  function Decimal(n: nat): (text: string)
    ensures |text| > 0 && ':' !in text
  {
    if n < 10 then [Digit(n)] else Decimal(n / 10) + [Digit(n % 10)]
  }

  /** What a text of decimal digits stands for; None if it is none. */
  function Number(text: string): Option<nat> {
    if text == "" then Some(0)
    else
      var n, last := Number(text[..|text| - 1]), text[|text| - 1];
      if n.Some? && '0' <= last <= '9' then Some(n.value * 10 + (last as int - '0' as int)) else None
  }

  /** Decimal writes the number's digits, without a leading zero. */
  lemma {:induction false} DecimalMeaning(n: nat)
    ensures Number(Decimal(n)) == Some(n) && (n > 0 ==> Decimal(n)[0] != '0') && (n == 0 ==> Decimal(n) == "0")
  {
    var text := Decimal(n);
    if n < 10 {
      assert text[..0] == "" && text[0] == Digit(n);
    } else {
      DecimalMeaning(n / 10);
      assert text[..|text| - 1] == Decimal(n / 10) && text[|text| - 1] == Digit(n % 10);
    }
  }

  function Keyed(prefix: string, n: nat): string {
    prefix + ":" + Decimal(n)
  }

  /** Decimal rendering determines the number. */
  lemma {:induction false} DecimalInjective(m: nat, n: nat)
    requires Decimal(m) == Decimal(n)
    ensures m == n
  {
    var a, b := Decimal(m), Decimal(n);
    assert a[|a| - 1] == Digit(m % 10) && b[|b| - 1] == Digit(n % 10);
    assert m % 10 == n % 10;
    if m >= 10 && n >= 10 {
      assert a[..|a| - 1] == Decimal(m / 10) && b[..|b| - 1] == Decimal(n / 10);
      DecimalInjective(m / 10, n / 10);
    }
  }

  /** A key determines its prefix, whatever colons that holds, and its number. */
  lemma KeyedInjective(p: string, m: nat, q: string, n: nat)
    requires Keyed(p, m) == Keyed(q, n)
    ensures p == q && m == n
  {
    var key := Keyed(p, m);
    var a, b := Decimal(m), Decimal(n);
    assert key[|p|] == ':' && key[|q|] == ':';
    forall i | |p| < i < |key|
      ensures key[i] != ':'
    {
      assert key[i] == a[i - |p| - 1];
    }
    forall i | |q| < i < |key|
      ensures key[i] != ':'
    {
      assert key[i] == b[i - |q| - 1];
    }
    assert key[..|p|] == p && key[..|q|] == q && key[|p| + 1..] == a && key[|q| + 1..] == b;
    DecimalInjective(m, n);
  }
}
