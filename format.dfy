/** Text formatting used by ids and error messages: Rust's `{}` rendering
    of an unsigned integer, the `prefix_N` ids the counter generators mint,
    and the "insufficient stock" message of the product services. */
module Format {
  import opened Base

  function DigitChar(d: nat): (c: char)
    requires d < 10
    ensures '0' <= c <= '9'
  {
    (48 + d) as char
  }

  /** Decimal rendering without leading zeros, as `format!("{}", n)`. */
  function Decimal(n: nat): (s: string)
    ensures |s| >= 1
    ensures forall i :: 0 <= i < |s| ==> '0' <= s[i] <= '9'
    decreases n
  {
    if n < 10 then [DigitChar(n)] else Decimal(n / 10) + [DigitChar(n % 10)]
  }

  /** Reads a string of decimal digits back as a number. */
  function DecimalValue(s: string): int
    decreases |s|
  {
    if s == [] then 0 else 10 * DecimalValue(s[..|s| - 1]) + (s[|s| - 1] as int - '0' as int)
  }

  lemma {:induction false} DecimalRoundTrip(n: nat)
    ensures DecimalValue(Decimal(n)) == n
    decreases n
  {
    if n >= 10 {
      var s := Decimal(n);
      assert s[..|s| - 1] == Decimal(n / 10);
      DecimalRoundTrip(n / 10);
    }
  }

  lemma DecimalInjective(a: nat, b: nat)
    ensures Decimal(a) == Decimal(b) ==> a == b
  {
    DecimalRoundTrip(a);
    DecimalRoundTrip(b);
  }

  /** The id `format!("{prefix}_{}", n)` minted by a counter generator. */
  function FormatId(prefix: string, n: nat): string {
    prefix + "_" + Decimal(n)
  }

  /** Distinct counter values give distinct ids. */
  lemma FormatIdInjective(prefix: string, a: nat, b: nat)
    ensures FormatId(prefix, a) == FormatId(prefix, b) ==> a == b
  {
    if FormatId(prefix, a) == FormatId(prefix, b) {
      var k := |prefix| + 1;
      assert Decimal(a) == FormatId(prefix, a)[k..];
      assert Decimal(b) == FormatId(prefix, b)[k..];
      DecimalInjective(a, b);
    }
  }

  /** `id` is one a counter generator handed out before its counter
      reached `bound`. */
  ghost predicate Minted(prefix: string, id: string, bound: nat) {
    exists n: nat :: n < bound && id == FormatId(prefix, n)
  }

  /** The id a generator mints next was not handed out before. */
  lemma FreshIdNotMinted(prefix: string, bound: nat)
    ensures !Minted(prefix, FormatId(prefix, bound), bound)
  {
    if Minted(prefix, FormatId(prefix, bound), bound) {
      var n: nat :| n < bound && FormatId(prefix, bound) == FormatId(prefix, n);
      FormatIdInjective(prefix, n, bound);
    }
  }

  const InsufficientPrefix := "Insufficient stock: requested "
  const AvailableInfix := ", available "

  /** "Insufficient stock: requested {requested}, available {available}". */
  function InsufficientStockText(requested: nat, available: nat): string {
    InsufficientPrefix + Decimal(requested) + AvailableInfix + Decimal(available)
  }

  /** Position of the first `c` in `s`, or `|s|` when there is none. */
  function IndexOf(s: string, c: char): (i: nat)
    ensures i <= |s|
    ensures forall j :: 0 <= j < i ==> s[j] != c
    ensures i < |s| ==> s[i] == c
    decreases |s|
  {
    if s == [] then 0 else if s[0] == c then 0 else 1 + IndexOf(s[1..], c)
  }

  /** Recovers the two numbers of an insufficient-stock message. */
  function ParseInsufficientStock(msg: string): Option<(int, int)> {
    var p := |InsufficientPrefix|;
    if |msg| < p || msg[..p] != InsufficientPrefix then None
    else
      var rest := msg[p..];
      var i := IndexOf(rest, ',');
      var tail := rest[i..];
      var q := |AvailableInfix|;
      if |tail| < q || tail[..q] != AvailableInfix then None
      else Some((DecimalValue(rest[..i]), DecimalValue(tail[q..])))
  }

  /** The first `c` in `x + y` is the first of `y` when `x` holds none. */
  lemma {:induction false} IndexOfPastPrefix(x: string, y: string, c: char)
    requires forall j :: 0 <= j < |x| ==> x[j] != c
    requires |y| > 0 && y[0] == c
    ensures IndexOf(x + y, c) == |x|
    decreases |x|
  {
    if x != [] {
      assert (x + y)[1..] == x[1..] + y;
      IndexOfPastPrefix(x[1..], y, c);
    }
  }

  /** The message loses nothing: both numbers can be read back from it. */
  lemma InsufficientStockTextParses(requested: nat, available: nat)
    ensures ParseInsufficientStock(InsufficientStockText(requested, available)) == Some((requested, available))
  {
    var r, a := Decimal(requested), Decimal(available);
    var tail := AvailableInfix + a;
    var rest := r + tail;
    var msg := InsufficientPrefix + rest;
    assert msg == InsufficientStockText(requested, available);
    assert msg[..|InsufficientPrefix|] == InsufficientPrefix;
    assert msg[|InsufficientPrefix|..] == rest;
    IndexOfPastPrefix(r, tail, ',');
    assert rest[..|r|] == r;
    assert rest[|r|..] == tail;
    assert tail[..|AvailableInfix|] == AvailableInfix;
    assert tail[|AvailableInfix|..] == a;
    DecimalRoundTrip(requested);
    DecimalRoundTrip(available);
  }
}
