/** Dollar amounts with thousands separators, over the reals. */
module Money {
  import opened Common

  const MAX_INT64 := 0x7fff_ffff_ffff_ffff

  // ---- Decimal digits ----

  function Digit(d: int): char requires 0 <= d < 10 { '0' + d as char }
  predicate IsDigit(c: char) { '0' <= c <= '9' }
  predicate AllDigits(s: string) { forall i :: 0 <= i < |s| ==> IsDigit(s[i]) }

  function Decimal(n: nat): (s: string)
    ensures s != "" && AllDigits(s)
  {
    if n < 10 then [Digit(n)] else Decimal(n / 10) + [Digit(n % 10)]
  }

  function TwoDigits(n: nat): string requires n < 100 { [Digit(n / 10), Digit(n % 10)] }

  function Number(s: string): nat
    requires AllDigits(s)
    decreases |s|
  {
    if s == "" then 0 else Number(s[..|s| - 1]) * 10 + (s[|s| - 1] - '0') as int
  }

  lemma {:induction false} NumberOfDecimal(n: nat)
    ensures Number(Decimal(n)) == n
  {
    if n < 10 {
      assert Decimal(n)[..0] == "";
    } else {
      NumberOfDecimal(n / 10);
      var s := Decimal(n);
      assert s[..|s| - 1] == Decimal(n / 10);
    }
  }

  lemma NumberOfTwoDigits(n: nat)
    requires n < 100
    ensures AllDigits(TwoDigits(n)) && Number(TwoDigits(n)) == n
  {
    var s := TwoDigits(n);
    assert s[..1] == [Digit(n / 10)] && s[..1][..0] == "";
    assert Number(s[..1]) == n / 10;
  }

  // ---- Groups of three ----

  function Groups(digits: string): seq<string>
    decreases |digits|
  {
    if |digits| <= 3 then [digits]
    else Groups(digits[..|digits| - 3]) + [digits[|digits| - 3..]]
  }

  function Join(parts: seq<string>): string
    decreases |parts|
  {
    if parts == [] then ""
    else if |parts| == 1 then parts[0]
    else Join(parts[..|parts| - 1]) + "," + parts[|parts| - 1]
  }

  function WithoutCommas(s: string): string {
    if s == "" then "" else (if s[0] == ',' then "" else [s[0]]) + WithoutCommas(s[1..])
  }

  lemma {:induction false} WithoutCommasAppend(a: string, b: string)
    ensures WithoutCommas(a + b) == WithoutCommas(a) + WithoutCommas(b)
    decreases |a|
  {
    if a == "" {
      assert a + b == b;
    } else {
      assert (a + b)[1..] == a[1..] + b;
      WithoutCommasAppend(a[1..], b);
    }
  }

  lemma {:induction false} DigitsHaveNoCommas(s: string)
    requires AllDigits(s)
    ensures WithoutCommas(s) == s
    decreases |s|
  {
    if s != "" {
      DigitsHaveNoCommas(s[1..]);
    }
  }

  /** A first group of one to three digits, then groups of exactly three. */
  lemma {:induction false} GroupsOfThree(digits: string)
    requires AllDigits(digits) && digits != ""
    ensures
      var g := Groups(digits);
      && g != []
      && 1 <= |g[0]| <= 3
      && (forall i :: 0 < i < |g| ==> |g[i]| == 3)
      && (forall i :: 0 <= i < |g| ==> AllDigits(g[i]))
    decreases |digits|
  {
    if |digits| > 3 {
      GroupsOfThree(digits[..|digits| - 3]);
    }
  }

  lemma CommaThenDigits(a: string, b: string)
    requires AllDigits(b)
    ensures WithoutCommas(a + "," + b) == WithoutCommas(a) + b
  {
    assert a + "," + b == a + ("," + b);
    WithoutCommasAppend(a, "," + b);
    assert ("," + b)[1..] == b;
    DigitsHaveNoCommas(b);
  }

  /** Taking the commas out of the joined groups gives the digits back. */
  lemma {:induction false} GroupsJoin(digits: string)
    requires AllDigits(digits)
    ensures WithoutCommas(Join(Groups(digits))) == digits
    decreases |digits|
  {
    if |digits| <= 3 {
      DigitsHaveNoCommas(digits);
    } else {
      var head, tail := digits[..|digits| - 3], digits[|digits| - 3..];
      GroupsJoin(head);
      JoinLast(Groups(head), tail);
      CommaThenDigits(Join(Groups(head)), tail);
      assert head + tail == digits;
    }
  }

  lemma JoinLast(parts: seq<string>, last: string)
    requires parts != []
    ensures Join(parts + [last]) == Join(parts) + "," + last
  {
    assert (parts + [last])[..|parts|] == parts;
  }

  // ---- The formatter ----

  function Magnitude(v: real): real { if v < 0.0 then -v else v }

  /** Whole cents, halves rounded up. */
  function RoundedCents(v: real): nat
    requires v >= 0.0
  {
    (v * 100.0 + 0.5).Floor
  }

  function Shown(symbol: string, negative: bool, cents: nat): string {
    (if negative then "-" else "") + (symbol + Body(cents))
  }

  function Body(cents: nat): string { Join(Groups(Decimal(cents / 100))) + "." + TwoDigits(cents % 100) }

  /** Splitting off the whole part first and carrying at one hundred cents loses nothing. */
  lemma SplitRounding(v: real, whole: int, cents: int)
    requires v >= 0.0 && whole == v.Floor && cents == ((v - whole as real) * 100.0 + 0.5).Floor
    ensures 0 <= cents <= 100 && whole * 100 + cents == RoundedCents(v)
  {
    var f := v - whole as real;
    assert 0.0 <= f < 1.0;
    assert v * 100.0 + 0.5 == (f * 100.0 + 0.5) + (whole * 100) as real;
  }

  lemma Carry(whole: int, cents: int)
    requires 0 <= whole && 0 <= cents <= 100
    ensures (whole * 100 + cents) / 100 == (if cents >= 100 then whole + 1 else whole)
    ensures (whole * 100 + cents) % 100 == (if cents >= 100 then cents - 100 else cents)
  {
  }

  /** The comma-separating loop, which cuts groups off the end. */
  method Separate(digits: string) returns (s: string)
    ensures s == Join(Groups(digits))
  {
    s := digits;
    if |s| > 3 {
      var parts: seq<string> := [];
      while |s| > 3
        invariant Groups(digits) == Groups(s) + parts
      {
        parts := [s[|s| - 3..]] + parts;
        s := s[..|s| - 3];
      }
      parts := [s] + parts;
      s := Join(parts);
    }
  }

  method Format(symbol: string, value: real) returns (r: string)
    requires Magnitude(value) <= MAX_INT64 as real
    ensures r == Shown(symbol, value < 0.0, RoundedCents(Magnitude(value)))
  {
    var v := value;
    var negative := v < 0.0;
    if negative {
      v := -v;
    }
    var whole := v.Floor;
    var cents := ((v - whole as real) * 100.0 + 0.5).Floor;
    SplitRounding(v, whole, cents);
    Carry(whole, cents);
    if cents >= 100 {
      whole := whole + 1;
      cents := cents - 100;
    }
    assert whole <= MAX_INT64;
    var s := Separate(Decimal(whole));
    var amount := s + "." + TwoDigits(cents);
    if negative {
      return "-" + (symbol + amount);
    }
    return symbol + amount;
  }

  method FormatMoney(v: real) returns (r: string)
    requires Magnitude(v) <= MAX_INT64 as real
    ensures r == Shown("$", v < 0.0, RoundedCents(Magnitude(v)))
  {
    r := Format("$", v);
  }

  function Upper(s: string): string {
    seq(|s|, i requires 0 <= i < |s| => if 'a' <= s[i] <= 'z' then s[i] - 'a' + 'A' else s[i])
  }

  function CurrencySymbol(currency: string): string {
    if Upper(currency) == "AUD" then "A$" else if Upper(currency) == "USD" then "US$" else "$"
  }

  method FormatMoneyWithCurrency(v: real, currency: string) returns (r: string)
    requires Magnitude(v) <= MAX_INT64 as real
    ensures r == Shown(CurrencySymbol(currency), v < 0.0, RoundedCents(Magnitude(v)))
  {
    r := Format(CurrencySymbol(currency), v);
  }

  // ---- Reading it back ----

  datatype Amount = Amount(negative: bool, cents: nat)

  /** Dollars and cents without sign and symbol, commas dropped. */
  function ReadBody(body: string): Option<nat> {
    if |body| < 4 || body[|body| - 3] != '.' then None
    else
      var dollars, cents := WithoutCommas(body[..|body| - 3]), body[|body| - 2..];
      if AllDigits(dollars) && AllDigits(cents) then Some(Number(dollars) * 100 + Number(cents)) else None
  }

  /** Takes off sign and symbol and reads the rest. */
  function Read(s: string, symbol: string): Option<Amount> {
    var negative := s != "" && s[0] == '-';
    var rest := if negative then s[1..] else s;
    if !(symbol <= rest) then None
    else
      var cents := ReadBody(rest[|symbol|..]);
      if cents.None? then None else Some(Amount(negative, cents.value))
  }

  lemma BodyParts(dollars: string, two: string)
    requires |two| == 2
    ensures
      var b := dollars + "." + two;
      |b| == |dollars| + 3 && b[..|b| - 3] == dollars && b[|b| - 3] == '.' && b[|b| - 2..] == two
  {
  }

  lemma BodyReadsBack(cents: nat)
    ensures ReadBody(Body(cents)) == Some(cents)
  {
    var digits := Decimal(cents / 100);
    BodyParts(Join(Groups(digits)), TwoDigits(cents % 100));
    GroupsJoin(digits);
    assert Join(Groups(digits)) != "" by {
      assert WithoutCommas("") == "";
    }
    NumberOfDecimal(cents / 100);
    NumberOfTwoDigits(cents % 100);
  }

  /** What is shown reads back as the rounded amount, with a sign exactly when it was negative. */
  lemma ShownReadsBack(symbol: string, negative: bool, cents: nat)
    requires symbol != "" && symbol[0] != '-'
    ensures Read(Shown(symbol, negative, cents), symbol) == Some(Amount(negative, cents))
  {
    var s, tail := Shown(symbol, negative, cents), symbol + Body(cents);
    var rest := if negative then s[1..] else s;
    assert rest == tail;
    assert tail[|symbol|..] == Body(cents);
    BodyReadsBack(cents);
  }

  /** For every amount, the formatted text reads back as the amount rounded half-up to cents,
      whatever the currency. */
  lemma FormattedMoneyReadsBack(v: real, currency: string)
    ensures
      var cents, symbol := RoundedCents(Magnitude(v)), CurrencySymbol(currency);
      && Read(Shown(symbol, v < 0.0, cents), symbol) == Some(Amount(v < 0.0, cents))
      && cents as real <= Magnitude(v) * 100.0 + 0.5 < cents as real + 1.0
  {
    ShownReadsBack(CurrencySymbol(currency), v < 0.0, RoundedCents(Magnitude(v)));
  }
}
