/** Go's int64 arithmetic and the decimal text the service sends to Daraja. */
module Money {
  import opened Base

  const TWO_63: int := 0x8000_0000_0000_0000
  const TWO_64: int := 0x1_0000_0000_0000_0000

  type int64 = x: int | -TWO_63 <= x < TWO_63

  // Two's-complement wrap-around of an int64 addition.
  function Wrap(x: int): (r: int64)
    ensures (x - r) % TWO_64 == 0
  {
    var m := x % TWO_64;
    if m < TWO_63 then m else m - TWO_64
  }

  // An accumulator that is already wrapped loses nothing by wrapping again.
  lemma WrapAdd(x: int, y: int)
    ensures Wrap(Wrap(x) + y) == Wrap(x + y)
  {
    assert (Wrap(x) + y) % TWO_64 == (x + y) % TWO_64 by {
      var k := (x - Wrap(x)) / TWO_64;
      assert x + y == Wrap(x) + y + k * TWO_64;
    }
  }

  lemma WrapEqual(x: int, y: int)
    ensures Wrap(x) == Wrap(y) <==> (x - y) % TWO_64 == 0
  {
    var j, k := (x - Wrap(x)) / TWO_64, (y - Wrap(y)) / TWO_64;
    assert x == Wrap(x) + j * TWO_64 && y == Wrap(y) + k * TWO_64;
    if Wrap(x) == Wrap(y) {
      assert x - y == (j - k) * TWO_64;
    } else {
      assert x - y == (Wrap(x) - Wrap(y)) + (j - k) * TWO_64;
      assert -TWO_64 < Wrap(x) - Wrap(y) < TWO_64;
    }
  }

  function Digit(n: nat): char
    requires n < 10
  {
    '0' + n as char
  }

  // What fmt.Sprintf("%d", n) prints for a non-negative n.
  function Decimal(n: nat): string {
    if n < 10 then [Digit(n)] else Decimal(n / 10) + [Digit(n % 10)]
  }

  function Itoa(n: int): string {
    if n < 0 then "-" + Decimal(-n) else Decimal(n)
  }

  predicate IsDigit(c: char) {
    '0' <= c <= '9'
  }

  // The value of a non-empty digit string; None for anything else.
  function ParseDecimal(s: string): Option<nat> {
    if s == [] || !IsDigit(s[|s| - 1]) then None
    else
      var d := (s[|s| - 1] - '0') as nat;
      if |s| == 1 then Some(d)
      else
        match ParseDecimal(s[..|s| - 1])
        case None => None
        case Some(rest) => Some(10 * rest + d)
  }

  // Parsing what was printed gives the number back, for every number.
  lemma {:induction false} DecimalRoundTrip(n: nat)
    ensures ParseDecimal(Decimal(n)) == Some(n)
  {
    if n >= 10 {
      DecimalRoundTrip(n / 10);
      var s := Decimal(n);
      assert s[..|s| - 1] == Decimal(n / 10);
    }
  }

  // The same for the sign that fmt.Sprintf writes.
  lemma ItoaRoundTrip(n: int)
    ensures n >= 0 ==> ParseDecimal(Itoa(n)) == Some(n)
    ensures n < 0 ==> Itoa(n) != [] && Itoa(n)[0] == '-' && ParseDecimal(Itoa(n)[1..]) == Some(-n)
  {
    if n >= 0 {
      DecimalRoundTrip(n);
    } else {
      DecimalRoundTrip(-n);
      assert Itoa(n)[1..] == Decimal(-n);
    }
  }

  // Base ten, most significant digit first, on a number whose digits all differ.
  lemma DecimalReads()
    ensures Decimal(1050) == "1050" && Decimal(23) == "23" && Itoa(-7) == "-7"
  {
    assert Decimal(1) == "1" && Decimal(10) == "10" && Decimal(105) == "105" && Decimal(2) == "2";
  }

  // What a provider is asked to charge: Daraja takes whole shillings as text,
  // Paystack takes integer subunits.
  datatype Billed = Shillings(text: string) | Subunits(cents: int64)

  // The amount, in cents, that the provider reads out of the request.
  function BilledCents(b: Billed): Option<int> {
    match b
    case Shillings(text) =>
      (match ParseDecimal(text) case None => None case Some(n) => Some(100 * n))
    case Subunits(cents) => Some(cents)
  }
}
