/** The two Korean tick-size tables: the one the signal generator rounds with and the
    one the KIS broker client rounds with. Both truncate with Python's `int()` first. */
module TickGrid {

  /** Python's `int(Decimal)`: truncation towards zero. */
  function Truncate(p: real): (n: int)
    ensures p >= 0.0 ==> n as real <= p < n as real + 1.0
    ensures p <= 0.0 ==> n as real - 1.0 < p <= n as real
  {
    if p >= 0.0 then p.Floor else -((-p).Floor)
  }

  lemma TruncateOfInt(n: int)
    ensures Truncate(n as real) == n
  {}

  lemma TruncateMonotone(p: real, q: real)
    requires p <= q
    ensures Truncate(p) <= Truncate(q)
  {}

  // ----- Signal generator grid ------------------------------------------------

  function SignalTick(n: int): (t: int)
    ensures t > 0
  {
    if n < 1000 then 1
    else if n < 5000 then 5
    else if n < 10000 then 10
    else if n < 50000 then 50
    else if n < 100000 then 100
    else if n < 500000 then 500
    else 1000
  }

  /** `normalize_kr_price_tick`; the result is a whole number of won. */
  function SignalPrice(p: real): int { SignalFloor(Truncate(p)) }

  function SignalFloor(n: int): int { (n / SignalTick(n)) * SignalTick(n) }

  // ----- Broker grid ----------------------------------------------------------

  function BrokerTick(n: int): (t: int)
    ensures t > 0
  {
    if n < 2000 then 1
    else if n < 5000 then 5
    else if n < 20000 then 10
    else if n < 50000 then 50
    else if n < 200000 then 100
    else if n < 500000 then 500
    else 1000
  }

  /** `_round_to_tick`. */
  function BrokerPrice(p: real): int { BrokerFloor(Truncate(p)) }

  function BrokerFloor(n: int): int { n - n % BrokerTick(n) }

  /** Both tables by one rule: ticks of one, ten, a hundred and a thousand won apply from 500 ticks
      of their size on, the ones between from 200 ticks on for signals and 400 at the broker. */
  lemma TablesTell(n: int)
    ensures SignalTick(n) in {1, 5, 10, 50, 100, 500, 1000} && BrokerTick(n) in {1, 5, 10, 50, 100, 500, 1000}
    ensures forall t :: t in {10, 100, 1000} ==>
      (SignalTick(n) >= t <==> n >= 500 * t) && (BrokerTick(n) >= t <==> n >= 500 * t)
    ensures forall t :: t in {5, 50, 500} ==>
      (SignalTick(n) >= t <==> n >= 200 * t) && (BrokerTick(n) >= t <==> n >= 400 * t)
  {}

  // ----- Both grids on whole prices -------------------------------------------

  /** On whole prices the rounding stays in its own band, lands on that band's grid
      and gives up less than one tick. */
  lemma SignalOnInts(n: int)
    ensures var r := SignalFloor(n);
      && SignalTick(r) == SignalTick(n)
      && r % SignalTick(r) == 0
      && n - SignalTick(n) < r <= n
  {}

  lemma BrokerOnInts(n: int)
    ensures var r := BrokerFloor(n);
      && BrokerTick(r) == BrokerTick(n)
      && r % BrokerTick(r) == 0
      && n - BrokerTick(n) < r <= n
  {}

  lemma MulMonotone(a: int, b: int, t: int)
    requires a <= b && t > 0
    ensures a * t <= b * t
    ensures a * t == (a - 1) * t + t
  {}

  lemma FloorMonotone(n: int, m: int, t: int)
    requires n <= m && t > 0
    ensures (n / t) * t <= (m / t) * t
    ensures (n / t) * t == n - n % t && (m / t) * t == m - m % t
  {
    var a, b := n / t, m / t;
    assert n == a * t + n % t && m == b * t + m % t;
    if a > b {
      MulMonotone(b + 1, a, t);
    } else {
      MulMonotone(a, b, t);
    }
  }

  // ----- Results --------------------------------------------------------------

  /** Rounding lands on the grid of the result's own band, loses less than one tick plus
      the truncated fraction, and stays at or below the price exactly when the price is
      not a negative fraction: `int()` truncates those upwards. */
  lemma SignalBounds(p: real)
    ensures var r := SignalPrice(p);
      && r % SignalTick(r) == 0
      && p - SignalTick(r) as real - (p - Truncate(p) as real) < r as real
      && (r as real <= p <==> (p >= 0.0 || p == Truncate(p) as real))
  {
    SignalOnInts(Truncate(p));
  }

  lemma BrokerBounds(p: real)
    ensures var r := BrokerPrice(p);
      && r % BrokerTick(r) == 0
      && p - BrokerTick(r) as real - (p - Truncate(p) as real) < r as real
      && (r as real <= p <==> (p >= 0.0 || p == Truncate(p) as real))
  {
    BrokerOnInts(Truncate(p));
  }

  lemma SignalMonotone(p: real, q: real)
    requires p <= q
    ensures SignalPrice(p) <= SignalPrice(q)
  {
    TruncateMonotone(p, q);
    var n, m := Truncate(p), Truncate(q);
    SignalOnInts(n);
    SignalOnInts(m);
    if SignalTick(n) == SignalTick(m) {
      FloorMonotone(n, m, SignalTick(n));
    }
  }

  lemma BrokerMonotone(p: real, q: real)
    requires p <= q
    ensures BrokerPrice(p) <= BrokerPrice(q)
  {
    TruncateMonotone(p, q);
    var n, m := Truncate(p), Truncate(q);
    BrokerOnInts(n);
    BrokerOnInts(m);
    if BrokerTick(n) == BrokerTick(m) {
      FloorMonotone(n, m, BrokerTick(n));
    }
  }

  /** For every non-negative price each rounder returns the greatest price not above it
      that lies on the grid. */
  lemma SignalIsGreatest(p: real, x: int)
    requires x as real <= p && x % SignalTick(x) == 0
    ensures x <= SignalPrice(p)
  {
    SignalMonotone(x as real, p);
    TruncateOfInt(x);
    FloorMonotone(x, x, SignalTick(x));
  }

  lemma BrokerIsGreatest(p: real, x: int)
    requires x as real <= p && x % BrokerTick(x) == 0
    ensures x <= BrokerPrice(p)
  {
    BrokerMonotone(x as real, p);
    TruncateOfInt(x);
  }

  /** A price on the signal grid is on the broker grid: in every band the signal tick is one
      or five or ten times the broker's. */
  lemma {:induction false} SignalGridRefinesBrokerGrid(n: int)
    requires n % SignalTick(n) == 0
    ensures n % BrokerTick(n) == 0
  {
    var s, b := SignalTick(n), BrokerTick(n);
    assert (s, b) in {
      (1, 1), (5, 1), (5, 5), (10, 10), (50, 10), (50, 50), (100, 100), (500, 100), (500, 500), (1000, 1000)};
    hide SignalTick, BrokerTick;
    match s
    case 5 =>
    case 50 =>
    case 100 =>
    case 500 =>
    case _ =>
  }

  /** Rounding to the broker's finer grid first cannot cross a signal grid point. */
  lemma SignalOfBroker(n: int)
    ensures SignalFloor(BrokerFloor(n)) == SignalFloor(n)
  {
    var b, s := BrokerFloor(n), SignalFloor(n);
    BrokerOnInts(n);
    SignalOnInts(n);
    SignalGridRefinesBrokerGrid(s);
    SameBrokerBand(n);
    FloorMonotone(s, n, BrokerTick(n));
    assert s <= b <= n;
    FloorMonotone(s, b, SignalTick(n));
    FloorMonotone(b, n, SignalTick(n));
  }

  /** Every broker band boundary is on the signal grid, so rounding on the signal grid
      does not leave the broker band. */
  lemma SameBrokerBand(n: int)
    ensures BrokerTick(SignalFloor(n)) == BrokerTick(n)
    ensures SignalTick(BrokerFloor(n)) == SignalTick(n)
  {}

  /** Rounding twice on one grid changes nothing, the broker never changes a price the
      signal generator produced, and rounding for the broker first does not change what
      the signal generator would have asked for. */
  lemma RoundingComposes(p: real)
    ensures SignalPrice(SignalPrice(p) as real) == SignalPrice(p)
    ensures BrokerPrice(BrokerPrice(p) as real) == BrokerPrice(p)
    ensures BrokerPrice(SignalPrice(p) as real) == SignalPrice(p)
    ensures SignalPrice(BrokerPrice(p) as real) == SignalPrice(p)
  {
    var n := Truncate(p);
    SignalOnInts(n);
    BrokerOnInts(n);
    TruncateOfInt(SignalPrice(p));
    TruncateOfInt(BrokerPrice(p));
    SignalGridRefinesBrokerGrid(SignalFloor(n));
    SignalOfBroker(n);
    FloorMonotone(SignalFloor(n), SignalFloor(n), SignalTick(n));
  }

  /** The converse fails: the broker's grid is strictly finer, so a broker price survives
      the signal grid exactly when it already lies on it. */
  lemma BrokerPriceOnSignalGrid(p: real)
    ensures var r := BrokerPrice(p);
      SignalPrice(r as real) == r <==> r % SignalTick(r) == 0
    ensures BrokerPrice(1003.0) == 1003 && SignalPrice(1003.0) == 1000
  {
    var r := BrokerPrice(p);
    TruncateOfInt(r);
    FloorMonotone(r, r, SignalTick(r));
  }
}
