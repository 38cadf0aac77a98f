/**
  The next trigger time of an interval periodic (periodic_recalc of deps/ev/ev.c).
 */
module Recalculation {

  const MIN_INTERVAL: real := 0.0001220703125

  // t lies on the grid offset + n * interval
  ghost predicate OnGrid(t: real, offset: real, interval: real) {
    exists n: int :: GridPoint(n, offset, interval) == t
  }

  function GridPoint(n: int, offset: real, interval: real): real {
    offset + interval * n as real
  }

  // t is the first point of the grid after now
  ghost predicate NextOnGrid(t: real, offset: real, interval: real, now: real) {
    OnGrid(t, offset, interval) && now < t <= now + interval
  }

  // point n is the last one of the grid that is not after now
  predicate IsFloor(n: int, offset: real, interval: real, now: real) {
    GridPoint(n, offset, interval) <= now < GridPoint(n, offset, interval) + interval
  }

  // An interval below MIN_INTERVAL is counted from the last point of the grid of that width.
  ghost predicate NextOnFineGrid(t: real, offset: real, interval: real, now: real) {
    exists n: int ::
      IsFloor(n, offset, MIN_INTERVAL, now) && NextOnGrid(t, GridPoint(n, offset, MIN_INTERVAL), interval, now)
  }

  // There is only one such point, too.
  lemma NextOnFineGridUnique(s: real, t: real, offset: real, interval: real, now: real)
    requires interval > 0.0 && NextOnFineGrid(s, offset, interval, now) && NextOnFineGrid(t, offset, interval, now)
    ensures s == t
  {
    var m: int :| IsFloor(m, offset, MIN_INTERVAL, now) && NextOnGrid(s, GridPoint(m, offset, MIN_INTERVAL), interval, now);
    var n: int :| IsFloor(n, offset, MIN_INTERVAL, now) && NextOnGrid(t, GridPoint(n, offset, MIN_INTERVAL), interval, now);
    if m < n {
      PointsApart(m, n, offset, MIN_INTERVAL);
    } else if n < m {
      PointsApart(n, m, offset, MIN_INTERVAL);
    }
    NextOnGridUnique(s, t, GridPoint(m, offset, MIN_INTERVAL), interval, now);
  }

  lemma TimesOrder(a: real, b: real, c: real)
    requires a <= b && 0.0 < c
    ensures c * a <= c * b
  {
    assert c * (b - a) == c * b - c * a;
    assert c * (b - a) >= 0.0;
  }

  // the grid point found by rounding down is the last one not after now
  lemma FloorPoint(offset: real, interval: real, now: real, n: int)
    requires interval > 0.0 && n == ((now - offset) / interval).Floor
    ensures GridPoint(n, offset, interval) <= now < GridPoint(n, offset, interval) + interval
  {
    var q := (now - offset) / interval;
    var f := n as real;
    assert f <= q < f + 1.0;
    assert q * interval == now - offset;
    Between(interval, f, q, now - offset, q - f);
  }

  lemma Between(interval: real, f: real, q: real, gap: real, d: real)
    requires interval > 0.0 && f <= q < f + 1.0 && q * interval == gap && d == q - f
    ensures interval * f <= gap < interval * f + interval
  {
    TimesOrder(f, q, interval);
    Distribute(interval, q, f, d);
    TimesStrict(d, interval);
    BelowSum(interval, interval * f, interval * q, interval * d);
  }

  // linear, once the products have names
  lemma BelowSum(i: real, p: real, q: real, d: real)
    requires d == q - p && d < i
    ensures q < p + i
  {
  }

  lemma Distribute(c: real, a: real, b: real, d: real)
    requires d == a - b
    ensures c * d == c * a - c * b
  {
  }

  lemma TimesStrict(x: real, c: real)
    requires x < 1.0 && 0.0 < c
    ensures c * x < c
  {
    assert c * (1.0 - x) == c - c * x;
    assert c * (1.0 - x) > 0.0;
  }

  // There is only one such point.
  lemma NextOnGridUnique(s: real, t: real, offset: real, interval: real, now: real)
    requires interval > 0.0 && NextOnGrid(s, offset, interval, now) && NextOnGrid(t, offset, interval, now)
    ensures s == t
  {
    var m: int :| GridPoint(m, offset, interval) == s;
    var n: int :| GridPoint(n, offset, interval) == t;
    if m < n {
      PointsApart(m, n, offset, interval);
    } else if n < m {
      PointsApart(n, m, offset, interval);
    }
  }

  // And it is the first of all points after now.
  lemma NextOnGridLeast(at: real, t: real, offset: real, interval: real, now: real)
    requires interval > 0.0 && NextOnGrid(at, offset, interval, now) && OnGrid(t, offset, interval) && t > now
    ensures at <= t
  {
    var m: int :| GridPoint(m, offset, interval) == at;
    var n: int :| GridPoint(n, offset, interval) == t;
    if n < m {
      PointsApart(n, m, offset, interval);
    }
  }

  lemma PointsApart(m: int, n: int, offset: real, interval: real)
    requires interval > 0.0 && m < n
    ensures GridPoint(m, offset, interval) + interval <= GridPoint(n, offset, interval)
  {
    TimesOrder(1.0, (n - m) as real, interval);
    Distribute(interval, n as real, m as real, (n - m) as real);
  }

  // how many steps of the given length it takes at most to get past now
  lemma StepsPast(gap: real, interval: real) returns (n: nat)
    requires interval > 0.0 && gap > 0.0
    ensures interval * n as real >= gap
  {
    var q := gap / interval;
    assert interval * q == gap;
    n := q.Floor + 1;
    TimesOrder(q, n as real, interval);
  }

  // counting on from a point of the grid
  lemma GridsMeet(n: int, k: int, offset: real, interval: real)
    ensures GridPoint(k, GridPoint(n, offset, interval), interval) == GridPoint(n + k, offset, interval)
  {
    assert interval * (n + k) as real == interval * n as real + interval * k as real;
  }

  // periodic_recalc, in exact arithmetic
  method PeriodicRecalc(offset: real, length: real, now: real) returns (at: real)
    requires length > 0.0
    ensures now < at <= now + length
    ensures length >= MIN_INTERVAL ==> NextOnGrid(at, offset, length, now)
    ensures length < MIN_INTERVAL ==> NextOnFineGrid(at, offset, length, now)
  {
    var interval := if length > MIN_INTERVAL then length else MIN_INTERVAL;
    var q := ((now - offset) / interval).Floor;
    at := offset + interval * q as real;
    FloorPoint(offset, interval, now, q);
    ghost var n: nat := StepsPast(interval, length);
    ghost var base, k: int := at, 0;
    while at <= now
      invariant now < at + length * n as real && at <= now + length
      invariant at == GridPoint(k, base, length)
      decreases n
    {
      assert n != 0;
      assert length * (n - 1) as real == length * n as real - length;
      assert length * (k + 1) as real == length * k as real + length;
      at := at + length;  // never equal to the old value, as length is not zero
      n, k := n - 1, k + 1;
    }
    GridsMeet(q, k, offset, length);
    assert IsFloor(q, offset, interval, now) && NextOnGrid(at, base, length, now);
  }
}
