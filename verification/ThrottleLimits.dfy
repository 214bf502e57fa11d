/** What the limits of block/blk-throttle.c let pass, and what they make wait, in jiffies, bytes and operations: exactly
    when a bio passes, how long one is told to wait, and that starting, extending and trimming a slice do not take
    anything away that the rate allows. */
module ThrottleLimits {
  import opened ThrottleRate

  /** k slices are the least number of slices, at least one, that cover the elapsed time. */
  predicate Covers(slice: nat, elapsed: int, k: nat) {
    k >= 1 && elapsed <= k * slice && (k == 1 || (k - 1) * slice < elapsed)
  }

  lemma RoundupIs(x: nat, y: nat, k: nat)
    requires y > 0 && x > 0 && Covers(y, x, k)
    ensures Roundup(x, y) == k * y
  {
    var q := (x + (y - 1)) / y;
    RoundupBounds(x, y);
    if q < k {
      MulLe(y, q, k - 1);
    } else if k < q {
      MulLe(y, k, q - 1);
      Distribute(y, q - 1, 1);
    }
  }

  lemma ElapsedIs(r: Limits, m: Meter, now: nat, k: nat)
    requires LimitsOk(r) && m.start <= now && Covers(r.hz / 10, now - m.start, k)
    ensures ElapsedRounded(r, m, now) == k * (r.hz / 10)
  {
    hide Roundup;
    var slice := r.hz / 10;
    if now == m.start {
      RoundupOne(slice);
    } else {
      RoundupIs(now - m.start, slice, k);
    }
  }

  /** Within an allowance that is rounded down is within the rate. */
  lemma AllowanceIff(rate: nat, jiffies: nat, hz: nat, amount: nat)
    requires hz > 0
    ensures amount <= Allowance(rate, jiffies, hz) <==> amount * hz <= rate * jiffies
  {
    var n := rate * jiffies;
    assert n == n / hz * hz + n % hz;
    if amount <= n / hz {
      MulLe(hz, amount, n / hz);
    } else {
      MulLe(hz, n / hz + 1, amount);
      Distribute(hz, n / hz, 1);
    }
  }

  /** The slice a bio is measured in: the last one while it lasts, and otherwise a new one. */
  predicate Current(m: Meter, now: nat, start: nat, bytes: nat, ios: nat) {
    if m.start <= now <= m.end then start == m.start && bytes == m.bytes && ios == m.ios
    else start == now && bytes == 0 && ios == 0
  }

  lemma CurrentIs(r: Limits, m: Meter, now: nat, start: nat, bytes: nat, ios: nat)
    requires LimitsOk(r) && Current(m, now, start, bytes, ios)
    ensures var c := CurrentSlice(r, m, now); c.start == start && c.bytes == bytes && c.ios == ios
  {
    hide Roundup;
  }

  lemma BpsIff(r: Limits, m: Meter, now: nat, size: nat, k: nat)
    requires LimitsOk(r) && m.start <= now && Covers(r.hz / 10, now - m.start, k)
    ensures BpsWait(r, m, now, size) == 0 <==> (m.bytes + size) * r.hz <= r.bps * (k * (r.hz / 10))
  {
    hide ElapsedRounded, Allowance, TimeFor, Covers;
    ElapsedIs(r, m, now, k);
    AllowanceIff(r.bps, ElapsedRounded(r, m, now), r.hz, m.bytes + size);
  }

  lemma IopsIff(r: Limits, m: Meter, now: nat, k: nat)
    requires LimitsOk(r) && m.start <= now && Covers(r.hz / 10, now - m.start, k)
    ensures IopsWait(r, m, now) == 0 <==>
              (m.ios + 1) * r.hz <= r.iops * (k * (r.hz / 10)) && m.ios + 1 <= 0xffff_ffff
  {
    hide ElapsedRounded, Allowance, TimeFor, Covers;
    ElapsedIs(r, m, now, k);
    AllowanceIff(r.iops, ElapsedRounded(r, m, now), r.hz, m.ios + 1);
  }

  /** Exactly when a bio passes: with what was charged to the slice since its start, it is within both rates for the
      time since then in whole slices, and the count of operations does not overflow. */
  lemma PassesIff(r: Limits, m: Meter, now: nat, size: nat, start: nat, bytes: nat, ios: nat, k: nat)
    requires LimitsOk(r) && Current(m, now, start, bytes, ios) && start <= now && Covers(r.hz / 10, now - start, k)
    ensures DispatchWait(r, m, now, size) == 0 <==>
              && (bytes + size) * r.hz <= r.bps * (k * (r.hz / 10))
              && (ios + 1) * r.hz <= r.iops * (k * (r.hz / 10))
              && ios + 1 <= 0xffff_ffff
  {
    hide BpsWait, IopsWait, CurrentSlice, Covers, Current;
    CurrentIs(r, m, now, start, bytes, ios);
    var c := CurrentSlice(r, m, now);
    BpsIff(r, c, now, size, k);
    IopsIff(r, c, now, k);
  }

  // ---------------------------------------------------------------------------------------
  // The wait

  /** q is the quotient, rounded down. */
  lemma QuotientIs(n: nat, d: nat)
    requires d > 0
    ensures n / d * d <= n < (n / d + 1) * d
  {
    assert n == n / d * d + n % d;
    Distribute(d, n / d, 1);
  }

  /** How long a bio that is over the byte rate is told to wait: to the end of the slices counted so far, and then as
      long as the bytes over take at the rate, rounded down, but at least one jiffy. */
  lemma BpsWaitIs(r: Limits, m: Meter, now: nat, size: nat, k: nat)
    requires LimitsOk(r) && m.start <= now && Covers(r.hz / 10, now - m.start, k)
    requires (m.bytes + size) * r.hz > r.bps * (k * (r.hz / 10))
    ensures var e := k * (r.hz / 10);
            var extra := m.bytes + size - r.bps * e / r.hz;
            var d := BpsWait(r, m, now, size) - (e - (now - m.start));
            && extra > 0 && d >= 1 && (d > 1 ==> d * r.bps <= extra * r.hz) && extra * r.hz < (d + 1) * r.bps
  {
    hide ElapsedRounded, Covers;
    ElapsedIs(r, m, now, k);
    var e := k * (r.hz / 10);
    AllowanceIff(r.bps, e, r.hz, m.bytes + size);
    CoversIs(r.hz / 10, now - m.start, k);
    var extra := m.bytes + size - Allowance(r.bps, e, r.hz);
    QuotientIs(extra * r.hz, r.bps);
    Distribute(r.bps, 1, 1);
  }

  lemma CoversIs(slice: nat, elapsed: int, k: nat)
    requires Covers(slice, elapsed, k)
    ensures elapsed <= k * slice
  {
  }

  /** How long a bio that is over the rate of operations is told to wait: until one more operation than there have been
      is within the rate, but at least one jiffy. */
  lemma IopsWaitIs(r: Limits, m: Meter, now: nat, k: nat)
    requires LimitsOk(r) && m.start <= now && Covers(r.hz / 10, now - m.start, k) && IopsWait(r, m, now) > 0
    ensures var w, elapsed := IopsWait(r, m, now), now - m.start;
            && (w > 1 ==> (elapsed + w - 1) * r.iops <= (m.ios + 1) * r.hz)
            && (m.ios + 1) * r.hz < (elapsed + w) * r.iops
  {
    hide ElapsedRounded, Allowance, Covers;
    var n := (m.ios + 1) * r.hz / r.iops + 1;
    QuotientIs((m.ios + 1) * r.hz, r.iops);
    var elapsed := now - m.start;
    if n <= elapsed {
      MulLe(r.iops, n, elapsed + 1);
    }
  }

  /** The wait is enough. While the slice lasts and nothing else is charged to it, a bio that was told to wait for the
      byte rate is within that rate once the wait is over. */
  lemma BpsWaitEnough(r: Limits, m: Meter, now: nat, size: nat, k: nat, t: nat, k': nat)
    requires LimitsOk(r) && m.start <= now && Covers(r.hz / 10, now - m.start, k)
    requires (m.bytes + size) * r.hz > r.bps * (k * (r.hz / 10))
    requires t > now + BpsWait(r, m, now, size) && Covers(r.hz / 10, t - m.start, k')
    ensures BpsWait(r, m, t, size) == 0
  {
    hide BpsWait;
    var e, w := k * (r.hz / 10), BpsWait(r, m, now, size);
    var extra, d := m.bytes + size - r.bps * e / r.hz, w - (e - (now - m.start));
    BpsWaitIs(r, m, now, size, k);
    QuotientIs(r.bps * e, r.hz);
    MulLe(r.bps, e + (d + 1), k' * (r.hz / 10));
    Distribute(r.bps, e, d + 1);
    Distribute(r.hz, r.bps * e / r.hz, extra);
    BpsIff(r, m, t, size, k');
  }

  lemma StillWithin(x: nat, rate: nat, time: int, e: int)
    requires x < time * rate && time <= e
    ensures x <= rate * e
  {
    MulLe(rate, time, e);
  }

  /** And one that was told to wait for the rate of operations is within that rate, unless the count is at its end. */
  lemma IopsWaitEnough(r: Limits, m: Meter, now: nat, k: nat, t: nat, k': nat)
    requires LimitsOk(r) && m.start <= now && Covers(r.hz / 10, now - m.start, k) && IopsWait(r, m, now) > 0
    requires t >= now + IopsWait(r, m, now) && Covers(r.hz / 10, t - m.start, k')
    ensures IopsWait(r, m, t) == 0 <==> m.ios + 1 <= 0xffff_ffff
  {
    hide IopsWait, Covers;
    var w, e := IopsWait(r, m, now), k' * (r.hz / 10);
    IopsWaitIs(r, m, now, k);
    CoversIs(r.hz / 10, t - m.start, k');
    StillWithin((m.ios + 1) * r.hz, r.iops, now - m.start + w, e);
    IopsIff(r, m, t, k');
  }

  /** A look at a bio charges nothing, and leaves a slice that lasts for at least one slice and for the wait, and not
      longer than it did or than whole slices ask for. */
  lemma LookKeeps(r: Limits, m: Meter, now: nat, size: nat)
    requires LimitsOk(r)
    ensures var m', w, slice := MayDispatch(r, m, now, size), DispatchWait(r, m, now, size), r.hz / 10;
            && Current(m, now, m'.start, m'.bytes, m'.ios)
            && now + slice <= m'.end && now + w <= m'.end
            && (m'.end < now + (if w > slice then w else slice) + slice || (m.start <= now && m'.end == m.end))
            && (m.start <= now && now + slice <= m.end && now + w <= m.end ==> m'.end == m.end)
  {
    hide Roundup, DispatchWait;
    var slice, w := r.hz / 10, DispatchWait(r, m, now, size);
    RoundupBounds(now + slice, slice);
    RoundupBounds(now + w, slice);
  }

  // ---------------------------------------------------------------------------------------
  // Charging and trimming

  /** Taking off what a rate allows in a number of jiffies, rounded down, and not below zero. */
  predicate TakenOff(hz: nat, rate: nat, jiffies: nat, before: nat, after: nat) {
    && after <= before && (before - after) * hz <= rate * jiffies
    && (after > 0 ==> rate * jiffies < (before - after + 1) * hz)
  }

  lemma MinusTakesOff(hz: nat, rate: nat, jiffies: nat, before: nat)
    requires hz > 0
    ensures TakenOff(hz, rate, jiffies, before, Minus(before, Allowance(rate, jiffies, hz)))
  {
    var trim := Allowance(rate, jiffies, hz);
    QuotientIs(rate * jiffies, hz);
    if before < trim {
      MulLe(hz, before, trim);
    }
  }

  /** Taking nothing off, in no time. */
  lemma NothingOff(hz: nat, rate: nat, before: nat)
    requires hz > 0
    ensures TakenOff(hz, rate, 0, before, before)
  {
  }

  lemma NoSlices(slice: nat)
    ensures 0 * slice == 0
  {
  }

  /** All whole slices that have gone by. */
  lemma SlicesBy(start: nat, now: nat, slice: nat, j: nat)
    requires slice > 0 && start <= now
    ensures var n := (now - start) / slice;
            && n >= 0 && start + n * slice <= now < start + n * slice + slice
            && (start + j * slice <= now ==> j <= n)
  {
    var n := (now - start) / slice;
    QuotientIs(now - start, slice);
    Distribute(slice, n, 1);
    if j > n {
      MulLe(slice, n + 1, j);
    }
  }

  /** A rate that allows nothing in the whole slices gone by allows nothing in fewer. */
  lemma NothingAllowed(rate: nat, hz: nat, j: nat, n: nat, slice: nat)
    requires hz > 0 && j <= n && Allowance(rate, n * slice, hz) == 0
    ensures rate * (j * slice) < hz
  {
    QuotientIs(rate * (n * slice), hz);
    MulLe(slice, j, n);
    MulLe(rate, j * slice, n * slice);
  }

  /** A trim moves the start of the slice over all whole slices that have gone by, with what the rates allow in that
      time; unless neither rate allows anything in it. */
  lemma TrimMoves(r: Limits, m: Meter, now: nat) returns (n: nat)
    requires LimitsOk(r) && m.start <= now <= m.end
    ensures var m', slice := TrimSlice(r, m, now), r.hz / 10;
            && m'.start == m.start + n * slice && m'.start <= now
            && TakenOff(r.hz, r.bps, n * slice, m.bytes, m'.bytes)
            && TakenOff(r.hz, r.iops, n * slice, m.ios, m'.ios)
            && (now < m'.start + slice
                || (n == 0 && forall j: nat | m.start + j * slice <= now ::
                                r.bps * (j * slice) < r.hz && r.iops * (j * slice) < r.hz))
            && now + slice <= m'.end < now + slice + slice
  {
    hide Roundup, Allowance, TakenOff, Minus;
    var slice := r.hz / 10;
    var q := (now - m.start) / slice;
    RoundupBounds(now + slice, slice);
    SlicesBy(m.start, now, slice, 0);
    NothingOff(r.hz, r.bps, m.bytes);
    NothingOff(r.hz, r.iops, m.ios);
    NoSlices(slice);
    if Allowance(r.bps, q * slice, r.hz) == 0 && Allowance(r.iops, q * slice, r.hz) == 0 {
      n := 0;
      forall j: nat | m.start + j * slice <= now
        ensures r.bps * (j * slice) < r.hz && r.iops * (j * slice) < r.hz
      {
        SlicesBy(m.start, now, slice, j);
        NothingAllowed(r.bps, r.hz, j, q, slice);
        NothingAllowed(r.iops, r.hz, j, q, slice);
      }
    } else {
      n := q;
      MinusTakesOff(r.hz, r.bps, q * slice, m.bytes);
      MinusTakesOff(r.hz, r.iops, q * slice, m.ios);
    }
  }

  /** A dispatch charges the bio's bytes and one operation, before the trim. */
  lemma DispatchCharges(r: Limits, m: Meter, now: nat, size: nat) returns (n: nat)
    requires LimitsOk(r) && m.start <= now <= m.end
    ensures var m', slice := ChargeAndTrim(r, m, now, size), r.hz / 10;
            && m'.start == m.start + n * slice && m'.start <= now
            && TakenOff(r.hz, r.bps, n * slice, m.bytes + size, m'.bytes)
            && TakenOff(r.hz, r.iops, n * slice, m.ios + 1, m'.ios)
  {
    hide TrimSlice, TakenOff;
    n := TrimMoves(r, m.(bytes := m.bytes + size, ios := m.ios + 1), now);
  }

  /** Trimming takes nothing away that the rate allows, and gives nothing: at any time after the new start, what is
      within the rate by the trimmed slice was within it by the old one; and what was, with one unit to spare and as
      much charged as was taken off, still is. */
  lemma TrimIsFair(hz: nat, rate: nat, slice: nat, n: nat, k: nat, before: nat, after: nat, size: nat)
    requires hz > 0 && n <= k && TakenOff(hz, rate, n * slice, before, after)
    ensures (after + size) * hz <= rate * ((k - n) * slice) ==> (before + size) * hz <= rate * (k * slice)
    ensures after > 0 && (before + size + 1) * hz <= rate * (k * slice) ==>
              (after + size) * hz <= rate * ((k - n) * slice)
  {
    Distribute(slice, k - n, n);
    Distribute(rate, (k - n) * slice, n * slice);
    Distribute(hz, after + size, before - after);
    Distribute(hz, after + size, before - after + 1);
  }

  /** The number of slices that cover a time counts down with the start. */
  lemma CoversLess(slice: nat, elapsed: int, n: nat, k: nat)
    requires Covers(slice, elapsed, k) && n * slice < elapsed
    ensures n < k && Covers(slice, elapsed - n * slice, k - n)
  {
    if k <= n {
      MulLe(slice, k, n);
    }
    Distribute(slice, k - n, n);
    Distribute(slice, k - n - 1, n);
  }
}
