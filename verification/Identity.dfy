/**
 The order of decision identities: their undecorated decimal text, compared character by
 character, so that decision 10 comes before decision 9.
 */
module Identity {

  function Digit(d: nat): (c: char)
    requires d < 10
  {
    '0' + d as char
  }

  function Digits(n: nat): (s: string)
    ensures s != []
  {
    if n < 10 then [Digit(n)] else Digits(n / 10) + [Digit(n % 10)]
  }

  function Text(id: int): string { if id < 0 then "-" + Digits(-id) else Digits(id) }

  predicate TextLess(a: string, b: string) {
    b != [] && (a == [] || a[0] < b[0] || (a[0] == b[0] && TextLess(a[1..], b[1..])))
  }

  predicate Before(a: int, b: int) { TextLess(Text(a), Text(b)) }

  // ---------------------------------------------------------------- a total order

  lemma {:induction false} TextIsIrreflexive(a: string)
    ensures !TextLess(a, a)
  {
    if a != [] { TextIsIrreflexive(a[1..]); }
  }

  lemma {:induction false} TextIsTransitive(a: string, b: string, c: string)
    requires TextLess(a, b) && TextLess(b, c)
    ensures TextLess(a, c)
  {
    if a != [] && a[0] == b[0] == c[0] { TextIsTransitive(a[1..], b[1..], c[1..]); }
  }

  lemma {:induction false} TextIsTotal(a: string, b: string)
    ensures a == b || TextLess(a, b) || TextLess(b, a)
  {
    if a != [] && b != [] && a[0] == b[0] {
      TextIsTotal(a[1..], b[1..]);
      assert a == [a[0]] + a[1..] && b == [b[0]] + b[1..];
    }
  }

  lemma {:induction false} DigitsAreDigits(n: nat)
    ensures forall c <- Digits(n) :: '0' <= c <= '9'
  {
    if n >= 10 { DigitsAreDigits(n / 10); }
  }

  lemma {:induction false} DigitsAreInjective(m: nat, n: nat)
    requires Digits(m) == Digits(n)
    ensures m == n
  {
    var s := Digits(m);
    if m >= 10 && n >= 10 {
      var a, b := Digits(m / 10), Digits(n / 10);
      assert s[|s| - 1] == Digit(m % 10) == Digit(n % 10);
      assert a == s[..|s| - 1] == b;
      DigitsAreInjective(m / 10, n / 10);
    } else if m < 10 && n < 10 {
      assert s[0] == Digit(m) == Digit(n);
    }
  }

  lemma SignIsVisible(m: nat, n: nat)
    ensures "-" + Digits(m) != Digits(n)
  {
    DigitsAreDigits(n);
    assert Digits(n)[0] in Digits(n);
  }

  lemma TextIsInjective(a: int, b: int)
    requires Text(a) == Text(b)
    ensures a == b
  {
    if a < 0 && b < 0 {
      assert Text(a)[1..] == Digits(-a) == Digits(-b);
      DigitsAreInjective(-a, -b);
    } else if a >= 0 && b >= 0 {
      DigitsAreInjective(a, b);
    } else if a < 0 {
      SignIsVisible(-a, b);
    } else {
      SignIsVisible(-b, a);
    }
  }

  lemma BeforeIsStrict(a: int)
    ensures !Before(a, a)
  {
    TextIsIrreflexive(Text(a));
  }

  lemma BeforeIsTransitive(a: int, b: int, c: int)
    requires Before(a, b) && Before(b, c)
    ensures Before(a, c)
  {
    TextIsTransitive(Text(a), Text(b), Text(c));
  }

  /** Different decisions are always ordered one way. */
  lemma BeforeIsTotal(a: int, b: int)
    ensures a == b || Before(a, b) || Before(b, a)
  {
    TextIsTotal(Text(a), Text(b));
    if Text(a) == Text(b) { TextIsInjective(a, b); }
  }

  /** The order is not the numeric one. */
  lemma TenComesBeforeNine()
    ensures Before(10, 9)
  {
    assert Text(10) == Digits(1) + [Digit(0)];
    assert Text(10)[0] == Digit(1);
  }
}
