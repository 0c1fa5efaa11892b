/**
 * The uptime split of the report: `Duration.ofSeconds(u)` followed by
 * `toHours()`, `toMinutesPart()` and `toSecondsPart()`.  These use Java's
 * `/` and `%` on `long`, which truncate toward zero, so the split is defined
 * here for every second count, negative ones included.
 */
module Uptime {

  /** Java's `a / b` for a positive divisor: the quotient truncated toward zero. */
  function Quot(a: int, b: int): int
    requires b > 0
  {
    if a >= 0 then a / b else -((-a) / b)
  }

  /** Java's `a % b` for a positive divisor: the remainder keeps the sign of `a`. */
  function Rem(a: int, b: int): (r: int)
    requires b > 0
    ensures a == b * Quot(a, b) + r
    ensures a >= 0 ==> 0 <= r < b
    ensures a < 0 ==> -b < r <= 0
  {
    a - b * Quot(a, b)
  }

  /** Whole hours, minutes of the hour and seconds of the minute. */
  datatype HMS = HMS(hours: int, minutes: int, seconds: int)

  /** What updateStats computes from the uptime in seconds. */
  function Split(u: int): HMS {
    HMS(Quot(u, 3600), Rem(Quot(u, 60), 60), Rem(u, 60))
  }

  /** Truncating division by 60 twice is truncating division by 3600. */
  lemma QuotQuot(u: int)
    ensures Quot(Quot(u, 60), 60) == Quot(u, 3600)
  {
    var n: nat := if u >= 0 then u else -u;
    var q := n / 3600;
    var r := n % 3600;
    assert n == 3600 * q + r && 0 <= r < 3600;
    assert n == 60 * (60 * q + r / 60) + r % 60;
    assert n / 60 == 60 * q + r / 60;
    assert (n / 60) / 60 == q;
  }

  /** The three parts add back up to the uptime, for every second count. */
  lemma {:induction false} SplitReconstructs(u: int)
    ensures Split(u).hours * 3600 + Split(u).minutes * 60 + Split(u).seconds == u
  {
    QuotQuot(u);
    var m := Quot(u, 60);
    assert m == 60 * Quot(m, 60) + Rem(m, 60);
    assert u == 60 * m + Rem(u, 60);
  }

  /**
   * For a non-negative uptime the hours are the whole hours, and minutes and
   * seconds are each in [0, 60).
   */
  lemma SplitBounds(u: int)
    requires u >= 0
    ensures Split(u).hours == u / 3600
    ensures 0 <= Split(u).minutes < 60 && 0 <= Split(u).seconds < 60
  {
  }

  /** The split is the only decomposition into whole hours and in-range minutes and seconds. */
  lemma SplitUnique(u: int, h: int, m: int, s: int)
    requires h >= 0 && 0 <= m < 60 && 0 <= s < 60
    requires h * 3600 + m * 60 + s == u
    ensures Split(u) == HMS(h, m, s)
  {
    SplitReconstructs(u);
    SplitBounds(u);
    var p := Split(u);
    var t := p.minutes * 60 + p.seconds;
    var t' := m * 60 + s;
    assert 0 <= t < 3600 && 0 <= t' < 3600;
    assert (p.hours - h) * 3600 == t' - t;
    assert p.hours == h;
    assert (p.minutes - m) * 60 == s - p.seconds;
    assert p.minutes == m;
  }

  /** Hours are not reduced modulo 24: an uptime reaches 24 hours exactly when it reaches a day. */
  lemma HoursNotWrapped(u: int)
    requires u >= 0
    ensures Split(u).hours >= 24 <==> u >= 86400
  {
  }

  lemma QuotNegated(a: int, b: int)
    requires b > 0
    ensures Quot(-a, b) == -Quot(a, b)
  {
  }

  lemma RemNegated(a: int, b: int)
    requires b > 0
    ensures Rem(-a, b) == -Rem(a, b)
  {
    QuotNegated(a, b);
    var q := Quot(a, b);
    assert b * -q == -(b * q);
  }

  /** A negative uptime splits into the negated parts of its magnitude. */
  lemma SplitNegated(u: int)
    ensures Split(-u) == HMS(-Split(u).hours, -Split(u).minutes, -Split(u).seconds)
  {
    QuotNegated(u, 3600);
    QuotNegated(u, 60);
    RemNegated(Quot(u, 60), 60);
    RemNegated(u, 60);
  }
}
