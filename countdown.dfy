/**
 * The countdown to the wedding (CoupleSection): once a second the component
 * takes the milliseconds left until the wedding instant and splits them
 * into whole weeks, days, hours, minutes and seconds.
 *
 * Instants are integer milliseconds, as Date.getTime() returns them.
 */
module Countdown {
  import opened JsMath

  const MsPerSecond: int := 1000
  const MsPerMinute: int := 60 * MsPerSecond
  const MsPerHour: int := 60 * MsPerMinute
  const MsPerDay: int := 24 * MsPerHour
  const MsPerWeek: int := 7 * MsPerDay

  datatype CountdownValue = CountdownValue(
    weeks: int,
    days: int,
    hours: int,
    minutes: int,
    seconds: int,
    isExpired: bool)

  /** The value the component shows before its first computation. */
  const Unstarted: CountdownValue := CountdownValue(0, 0, 0, 0, 0, false)

  /** The value shown once the wedding instant has passed. */
  const Expired: CountdownValue := CountdownValue(0, 0, 0, 0, 0, true)

  /** The five fields read back as a number of whole seconds. */
  function TotalSeconds(c: CountdownValue): int {
    c.weeks * 604800 + c.days * 86400 + c.hours * 3600 + c.minutes * 60 + c.seconds
  }

  /** Every field lies in its bucket: days below 7, hours below 24, and so on. */
  predicate WellBucketed(c: CountdownValue) {
    && 0 <= c.weeks
    && 0 <= c.days < 7
    && 0 <= c.hours < 24
    && 0 <= c.minutes < 60
    && 0 <= c.seconds < 60
  }

  /**
   * The body of calculateCountdown for a given difference. The remainders
   * are taken of a positive difference, where JavaScript's `%` and
   * `Math.floor` agree with Dafny's `%` and `/`.
   */
  function Decompose(difference: int): (c: CountdownValue)
    ensures c.isExpired <==> difference <= 0
    ensures c.isExpired ==> c == Expired
    ensures !c.isExpired ==> WellBucketed(c) && TotalSeconds(c) == difference / MsPerSecond
  {
    if difference <= 0 then Expired
    else
      var weeks := difference / MsPerWeek;
      var days := (difference % MsPerWeek) / MsPerDay;
      var hours := (difference % MsPerDay) / MsPerHour;
      var minutes := (difference % MsPerHour) / MsPerMinute;
      var seconds := (difference % MsPerMinute) / MsPerSecond;
      BucketsRecombine(difference);
      CountdownValue(weeks, days, hours, minutes, seconds, false)
  }

  /** The successive div/mod of a non-negative difference add back up to its whole seconds. */
  lemma BucketsRecombine(d: int)
    requires d >= 0
    ensures var c := CountdownValue(d / MsPerWeek, (d % MsPerWeek) / MsPerDay,
                                    (d % MsPerDay) / MsPerHour, (d % MsPerHour) / MsPerMinute,
                                    (d % MsPerMinute) / MsPerSecond, false);
      WellBucketed(c) && TotalSeconds(c) == d / MsPerSecond
  {
    var q, r := d / 1000, d % 1000;
    // In whole seconds q: weeks, then the remainders by a week, a day, an hour, a minute.
    var weeks, w := q / 604800, q % 604800;
    var days, dr := w / 86400, w % 86400;
    var hours, hr := dr / 3600, dr % 3600;
    var minutes, seconds := hr / 60, hr % 60;
    assert q == weeks * 604800 + days * 86400 + hours * 3600 + minutes * 60 + seconds;
    // Each millisecond remainder is the matching remainder of q, in milliseconds.
    ModOfProduct(d, 1000, 604800);
    ModOfProduct(d, 1000, 86400);
    ModOfProduct(d, 1000, 3600);
    ModOfProduct(d, 1000, 60);
    ModMod(q, 86400, 7);
    ModMod(q, 3600, 24);
    ModMod(q, 60, 60);
    assert q % 86400 == dr && q % 3600 == hr && q % 60 == seconds by {
      ModMod(q, 3600, 168);
      ModMod(q, 60, 10080);
      ModMod(q, 60, 1440);
    }
    DivOfScaled(w, r, 86400);
    DivOfScaled(dr, r, 3600);
    DivOfScaled(hr, r, 60);
    DivOfScaled(seconds, r, 1);
  }

  /** A remainder by a multiple of n, taken again by n, is the remainder by n. */
  lemma ModMod(q: int, n: int, k: int)
    requires q >= 0 && n > 0 && k > 0
    ensures (q % (n * k)) % n == q % n
  {
    ModOfProduct(q, n, k);
    DivModUnique(q % (n * k), n, (q / n) % k, q % n);
  }

  /** Dividing by n*k is dividing by n then by k; the remainder splits accordingly. */
  lemma ModOfProduct(d: int, n: int, k: int)
    requires d >= 0 && n > 0 && k > 0
    ensures d / (n * k) == (d / n) / k
    ensures d % (n * k) == ((d / n) % k) * n + d % n
  {
    var q, r := d / n, d % n;
    var q2, r2 := q / k, q % k;
    assert d == q2 * (n * k) + (r2 * n + r) by {
      assert d == q * n + r;
      assert q == q2 * k + r2;
    }
    assert r2 * n <= (k - 1) * n;
    DivModUnique(d, n * k, q2, r2 * n + r);
  }

  /** Milliseconds of whole seconds plus a sub-second leftover, divided by a number of seconds. */
  lemma DivOfScaled(s: int, r: int, k: int)
    requires s >= 0 && 0 <= r < 1000 && k > 0
    ensures (s * 1000 + r) / (k * 1000) == s / k
  {
    var q2, r2 := s / k, s % k;
    assert s * 1000 + r == q2 * (k * 1000) + (r2 * 1000 + r);
    assert r2 * 1000 <= (k - 1) * 1000;
    DivModUnique(s * 1000 + r, k * 1000, q2, r2 * 1000 + r);
  }

  /** calculateCountdown at instant `now`, for the wedding instant `target`. */
  function CountdownAt(target: int, now: int): CountdownValue {
    Decompose(target - now)
  }

  /** With the wedding instant fixed and the clock moving forward, expiry is permanent. */
  lemma ExpiryIsPermanent(target: int, now: int, later: int)
    requires now <= later && CountdownAt(target, now).isExpired
    ensures CountdownAt(target, later) == Expired
  {
  }

  /**
   * Within the last second before the wedding every field reads 0 but the
   * countdown is not yet expired.
   */
  lemma LastSecondShowsZeros(target: int, now: int)
    requires 0 < target - now < MsPerSecond
    ensures CountdownAt(target, now) == Unstarted
  {
  }

  /** One week and one day before the wedding. */
  lemma WeekAndDayBefore(target: int)
    ensures CountdownAt(target, target - (MsPerWeek + MsPerDay)) == CountdownValue(1, 1, 0, 0, 0, false)
  {
  }

  /**
   * Decompose is a bijection between positive differences, taken to the
   * second, and well-bucketed values: any such value is recovered from the
   * milliseconds it stands for, whatever the leftover milliseconds.
   */
  lemma DecomposeRecovers(c: CountdownValue, ms: int)
    requires WellBucketed(c) && !c.isExpired && 0 <= ms < MsPerSecond
    requires TotalSeconds(c) > 0 || ms > 0
    ensures Decompose(TotalSeconds(c) * MsPerSecond + ms) == c
  {
    var d := TotalSeconds(c) * MsPerSecond + ms;
    var r := Decompose(d);
    assert d / MsPerSecond == TotalSeconds(c);
    BucketsUnique(r, c);
  }

  /** Two well-bucketed values with the same total are equal field by field. */
  lemma BucketsUnique(a: CountdownValue, b: CountdownValue)
    requires WellBucketed(a) && WellBucketed(b) && TotalSeconds(a) == TotalSeconds(b)
    ensures a.weeks == b.weeks && a.days == b.days && a.hours == b.hours
    ensures a.minutes == b.minutes && a.seconds == b.seconds
  {
    var ta := a.days * 86400 + a.hours * 3600 + a.minutes * 60 + a.seconds;
    var tb := b.days * 86400 + b.hours * 3600 + b.minutes * 60 + b.seconds;
    assert 0 <= ta < 604800 && 0 <= tb < 604800;
    assert a.weeks == b.weeks;
  }

  /** The component: its countdown state, overwritten on each tick of the 1 s interval. */
  class CountdownTimer {
    const target: int
    var countdown: CountdownValue

    constructor (target: int)
      ensures this.target == target && countdown == Unstarted
    {
      this.target := target;
      countdown := Unstarted;
    }

    /** One run of calculateCountdown at instant `now`. */
    method Tick(now: int)
      modifies this
      ensures countdown == CountdownAt(target, now)
    {
      var difference := target - now;
      if difference <= 0 {
        countdown := Expired;
        return;
      }
      var weeks := difference / MsPerWeek;
      var days := (difference % MsPerWeek) / MsPerDay;
      var hours := (difference % MsPerDay) / MsPerHour;
      var minutes := (difference % MsPerHour) / MsPerMinute;
      var seconds := (difference % MsPerMinute) / MsPerSecond;
      countdown := CountdownValue(weeks, days, hours, minutes, seconds, false);
    }
  }
}
