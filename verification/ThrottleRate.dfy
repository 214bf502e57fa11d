/** The slice-based rate limiter of block/blk-throttle.c for one direction of one group, and the
    bound on the rate over every run. Limits are finite and do not change; time does not run
    backwards. */
module ThrottleRate {

  /** HZ and the limits of the group in this direction. */
  datatype Limits = Limits(hz: nat, bps: nat, iops: nat)

  predicate LimitsOk(r: Limits) {
    r.hz >= 10 && r.bps > 0 && r.iops > 0
  }

  const UINT_MAX: nat := 0xffff_ffff

  /** throtl_slice: 100 ms */
  function Slice(r: Limits): (s: nat)
    requires LimitsOk(r)
    ensures s > 0
  {
    r.hz / 10
  }

  /** bytes_disp, io_disp, slice_start and slice_end of one direction */
  datatype Meter = Meter(bytes: nat, ios: nat, start: nat, end: nat)

  function Roundup(x: nat, y: nat): nat
    requires y > 0
  {
    ((x + (y - 1)) / y) * y
  }

  /** throtl_slice_used */
  predicate SliceUsed(m: Meter, now: nat) {
    !(m.start <= now <= m.end)
  }

  /** throtl_start_new_slice */
  function StartNewSlice(r: Limits, now: nat): Meter
    requires LimitsOk(r)
  {
    Meter(0, 0, now, now + Slice(r))
  }

  /** throtl_extend_slice */
  function ExtendSlice(r: Limits, m: Meter, end: nat): Meter
    requires LimitsOk(r)
  {
    m.(end := Roundup(end, Slice(r)))
  }

  function Minus(a: nat, b: nat): nat {
    if a >= b then a - b else 0
  }

  /** How much a rate per second allows in the given number of jiffies, rounded down. */
  function Allowance(rate: nat, jiffies: nat, hz: nat): nat
    requires hz > 0
  {
    (rate * jiffies) / hz
  }

  /** How many jiffies the amount takes at a rate per second, rounded down. */
  function TimeFor(amount: nat, rate: nat, hz: nat): nat
    requires rate > 0
  {
    (amount * hz) / rate
  }

  function Times(n: nat, slice: nat): nat {
    n * slice
  }

  /** throtl_trim_slice */
  function TrimSlice(r: Limits, m: Meter, now: nat): Meter
    requires LimitsOk(r)
  {
    if SliceUsed(m, now) then m else
    var m1 := m.(end := Roundup(now + Slice(r), Slice(r)));
    var nrSlices := (now - m.start) / Slice(r);
    if nrSlices == 0 then m1 else
    var bytesTrim := Allowance(r.bps, Times(nrSlices, Slice(r)), r.hz);
    var ioTrim := Allowance(r.iops, Times(nrSlices, Slice(r)), r.hz);
    if bytesTrim == 0 && ioTrim == 0 then m1 else
    Meter(Minus(m1.bytes, bytesTrim), Minus(m1.ios, ioTrim), m.start + Times(nrSlices, Slice(r)), m1.end)
  }

  /** The time that counts for a limit: rounded up to whole slices, at least one. */
  function ElapsedRounded(r: Limits, m: Meter, now: nat): nat
    requires LimitsOk(r) && m.start <= now
  {
    Roundup(if now == m.start then Slice(r) else now - m.start, Slice(r))
  }

  /** tg_with_in_iops_limit: 0 when within the limit, and otherwise the jiffies to wait. */
  function IopsWait(r: Limits, m: Meter, now: nat): nat
    requires LimitsOk(r) && m.start <= now
  {
    var tmp := Allowance(r.iops, ElapsedRounded(r, m, now), r.hz);
    var allowed := if tmp > UINT_MAX then UINT_MAX else tmp;
    if m.ios + 1 <= allowed then 0 else
    var wait := TimeFor(m.ios + 1, r.iops, r.hz) + 1;
    if wait > now - m.start then wait - (now - m.start) else 1
  }

  /** tg_with_in_bps_limit */
  function BpsWait(r: Limits, m: Meter, now: nat, size: nat): nat
    requires LimitsOk(r) && m.start <= now
  {
    var rounded := ElapsedRounded(r, m, now);
    var allowed := Allowance(r.bps, rounded, r.hz);
    if m.bytes + size <= allowed then 0 else
    var wait := TimeFor(m.bytes + size - allowed, r.bps, r.hz);
    (if wait == 0 then 1 else wait) + (if rounded >= now - m.start then rounded - (now - m.start) else 0)
  }

  /** The slice tg_may_dispatch works in: a new one if the last has expired, and otherwise the last,
      made at least one slice long from now. */
  function CurrentSlice(r: Limits, m: Meter, now: nat): (m': Meter)
    requires LimitsOk(r)
    ensures m'.start <= now
  {
    if SliceUsed(m, now) then StartNewSlice(r, now)
    else if m.end < now + Slice(r) then ExtendSlice(r, m, now + Slice(r))
    else m
  }

  /** The wait tg_may_dispatch finds; 0 means that the bio may be dispatched. The iops limit is looked
      at only when the bps limit lets the bio pass. */
  function DispatchWait(r: Limits, m: Meter, now: nat, size: nat): nat
    requires LimitsOk(r)
  {
    var m1 := CurrentSlice(r, m, now);
    var bpsWait := BpsWait(r, m1, now, size);
    if bpsWait == 0 then IopsWait(r, m1, now) else bpsWait
  }

  /** The meter after tg_may_dispatch. */
  function MayDispatch(r: Limits, m: Meter, now: nat, size: nat): Meter
    requires LimitsOk(r)
  {
    var m1 := CurrentSlice(r, m, now);
    var wait := DispatchWait(r, m, now, size);
    if wait > 0 && m1.end < now + wait then ExtendSlice(r, m1, now + wait) else m1
  }

  /** throtl_charge_bio followed by throtl_trim_slice. */
  function ChargeAndTrim(r: Limits, m: Meter, now: nat, size: nat): Meter
    requires LimitsOk(r)
  {
    TrimSlice(r, m.(bytes := m.bytes + size, ios := m.ios + 1), now)
  }

  // ---------------------------------------------------------------------------------------
  // Runs

  /** A bio of the given size is looked at; if `commit` holds it is dispatched when it may be. */
  datatype Attempt = Attempt(now: nat, size: nat, commit: bool)

  /** The meter, and all that has been dispatched. */
  datatype Account = Account(meter: Meter, bytes: nat, ios: nat)

  function Try(r: Limits, a: Account, t: Attempt): Account
    requires LimitsOk(r)
  {
    var m := MayDispatch(r, a.meter, t.now, t.size);
    if t.commit && DispatchWait(r, a.meter, t.now, t.size) == 0 then
      Account(ChargeAndTrim(r, m, t.now, t.size), a.bytes + t.size, a.ios + 1)
    else
      a.(meter := m)
  }

  predicate Forward(run: seq<Attempt>) {
    forall i, j | 0 <= i <= j < |run| :: run[i].now <= run[j].now
  }

  function TryAll(r: Limits, a: Account, run: seq<Attempt>): Account
    requires LimitsOk(r)
  {
    if run == [] then a else Try(r, TryAll(r, a, run[..|run| - 1]), run[|run| - 1])
  }

  /** A group as throtl_alloc_tg leaves it. */
  function Fresh(): Account {
    Account(Meter(0, 0, 0, 0), 0, 0)
  }

  // ---------------------------------------------------------------------------------------
  // Arithmetic

  lemma RoundupBounds(x: nat, y: nat)
    requires y > 0
    ensures x <= Roundup(x, y) < x + y
  {
    var q := (x + (y - 1)) / y;
    assert x + (y - 1) == q * y + (x + (y - 1)) % y;
  }

  lemma MulLe(a: nat, b: int, c: int)
    requires b <= c
    ensures a * b <= a * c
  {
  }

  lemma Distribute(a: int, b: int, c: int)
    ensures a * (b + c) == a * b + a * c && (b + c) * a == b * a + c * a
  {
  }

  lemma AllowanceMul(rate: nat, jiffies: nat, hz: nat)
    requires hz > 0
    ensures Allowance(rate, jiffies, hz) * hz <= rate * jiffies
  {
  }

  // ---------------------------------------------------------------------------------------
  // The rate

  /** What is charged before the current slice is within the rate up to its start, and the whole is
      within the rate up to one slice after the last dispatch. */
  predicate Within(hz: nat, rate: nat, slice: nat, total: nat, charged: nat, start: int, t0: int, last: int) {
    && charged <= total
    && (total - charged) * hz <= rate * (start - t0)
    && total * hz <= rate * (last - t0 + slice)
  }

  predicate InRate(r: Limits, a: Account, t0: int, last: int, now: int)
    requires LimitsOk(r)
  {
    && t0 <= a.meter.start <= now && t0 <= last <= now && last + Slice(r) <= a.meter.end
    && Within(r.hz, r.bps, Slice(r), a.bytes, a.meter.bytes, a.meter.start, t0, last)
    && Within(r.hz, r.iops, Slice(r), a.ios, a.meter.ios, a.meter.start, t0, last)
  }

  /** A slice that starts no earlier than one slice after the last dispatch. */
  lemma WithinNew(hz: nat, rate: nat, slice: nat, total: nat, charged: nat, start: int, t0: int, last: int, now: int)
    requires Within(hz, rate, slice, total, charged, start, t0, last) && last + slice <= now
    ensures Within(hz, rate, slice, total, 0, now, t0, last)
  {
    MulLe(rate, last - t0 + slice, now - t0);
  }

  /** A charge that the limit allows. */
  lemma WithinCharge(hz: nat, rate: nat, slice: nat, total: nat, charged: nat, start: int, t0: int, last: int,
                     now: int, rounded: nat, cost: nat)
    requires hz > 0 && Within(hz, rate, slice, total, charged, start, t0, last)
    requires charged + cost <= Allowance(rate, rounded, hz) && rounded <= now - start + slice
    ensures Within(hz, rate, slice, total + cost, charged + cost, start, t0, now)
  {
    hide Allowance;
    calc {
      (total + cost) * hz;
    == { Distribute(hz, total - charged, charged + cost); }
      (total - charged) * hz + (charged + cost) * hz;
    <= { MulLe(hz, charged + cost, Allowance(rate, rounded, hz)); }
      (total - charged) * hz + Allowance(rate, rounded, hz) * hz;
    <= { AllowanceMul(rate, rounded, hz); }
      (total - charged) * hz + rate * rounded;
    <= { MulLe(rate, rounded, now - start + slice); }
      rate * (start - t0) + rate * (now - start + slice);
    == { Distribute(rate, start - t0, now - start + slice); }
      rate * (now - t0 + slice);
    }
  }

  /** A trim by whole slices. */
  lemma WithinTrim(hz: nat, rate: nat, slice: nat, total: nat, charged: nat, start: int, t0: int, last: int, span: nat)
    requires hz > 0 && Within(hz, rate, slice, total, charged, start, t0, last)
    ensures Within(hz, rate, slice, total, Minus(charged, Allowance(rate, span, hz)), start + span, t0, last)
  {
    hide Allowance;
    var trim := Allowance(rate, span, hz);
    var charged' := Minus(charged, trim);
    calc {
      (total - charged') * hz;
    <= { MulLe(hz, total - charged', total - charged + trim); }
      (total - charged + trim) * hz;
    == { Distribute(hz, total - charged, trim); }
      (total - charged) * hz + trim * hz;
    <= { AllowanceMul(rate, span, hz); }
      rate * (start - t0) + rate * span;
    == { Distribute(rate, start - t0, span); }
      rate * (start + span - t0);
    }
  }

  // ---------------------------------------------------------------------------------------
  // Every step keeps the rate

  lemma CurrentSliceKeeps(r: Limits, a: Account, t0: int, last: int, before: int, now: nat)
    requires LimitsOk(r) && InRate(r, a, t0, last, before) && before <= now
    ensures InRate(r, a.(meter := CurrentSlice(r, a.meter, now)), t0, last, now)
    ensures now + Slice(r) <= CurrentSlice(r, a.meter, now).end
  {
    hide Within, Roundup;
    var m := a.meter;
    RoundupBounds(now + Slice(r), Slice(r));
    if SliceUsed(m, now) {
      WithinNew(r.hz, r.bps, Slice(r), a.bytes, m.bytes, m.start, t0, last, now);
      WithinNew(r.hz, r.iops, Slice(r), a.ios, m.ios, m.start, t0, last, now);
    }
  }

  lemma MayDispatchKeeps(r: Limits, a: Account, t0: int, last: int, before: int, now: nat, size: nat)
    requires LimitsOk(r) && InRate(r, a, t0, last, before) && before <= now
    ensures InRate(r, a.(meter := MayDispatch(r, a.meter, now, size)), t0, last, now)
    ensures DispatchWait(r, a.meter, now, size) == 0 ==>
              MayDispatch(r, a.meter, now, size) == CurrentSlice(r, a.meter, now)
  {
    hide Within, Roundup, DispatchWait, CurrentSlice;
    CurrentSliceKeeps(r, a, t0, last, before, now);
    RoundupBounds(now + DispatchWait(r, a.meter, now, size), Slice(r));
  }

  lemma ElapsedBound(r: Limits, m: Meter, now: nat)
    requires LimitsOk(r) && m.start <= now
    ensures now - m.start <= ElapsedRounded(r, m, now) <= now - m.start + Slice(r)
  {
    hide Roundup;
    RoundupBounds(now - m.start, Slice(r));
    RoundupOne(Slice(r));
  }

  lemma RoundupOne(y: nat)
    requires y > 0
    ensures Roundup(y, y) == y
  {
    assert y + (y - 1) == 1 * y + (y - 1);
    assert (y + (y - 1)) / y == 1;
  }

  /** A dispatch that both limits allow, before the trim. */
  lemma ChargeKeeps(r: Limits, a: Account, t0: int, last: int, now: nat, size: nat)
    requires LimitsOk(r) && InRate(r, a, t0, last, now) && now + Slice(r) <= a.meter.end
    requires BpsWait(r, a.meter, now, size) == 0 && IopsWait(r, a.meter, now) == 0
    ensures var m := a.meter;
            InRate(r, Account(m.(bytes := m.bytes + size, ios := m.ios + 1), a.bytes + size, a.ios + 1), t0, now, now)
  {
    hide Within, ElapsedRounded, Allowance, TimeFor;
    var m := a.meter;
    var rounded := ElapsedRounded(r, m, now);
    ElapsedBound(r, m, now);
    WithinCharge(r.hz, r.bps, Slice(r), a.bytes, m.bytes, m.start, t0, last, now, rounded, size);
    WithinCharge(r.hz, r.iops, Slice(r), a.ios, m.ios, m.start, t0, last, now, rounded, 1);
  }

  lemma WholeSlices(elapsed: nat, slice: nat)
    requires slice > 0
    ensures Times(elapsed / slice, slice) <= elapsed
  {
  }

  lemma TrimKeeps(r: Limits, a: Account, t0: int, now: nat)
    requires LimitsOk(r) && InRate(r, a, t0, now, now) && now + Slice(r) <= a.meter.end
    ensures InRate(r, a.(meter := TrimSlice(r, a.meter, now)), t0, now, now)
  {
    hide Within, Roundup, Allowance, Times, Slice;
    var m := a.meter;
    RoundupBounds(now + Slice(r), Slice(r));
    var span := Times((now - m.start) / Slice(r), Slice(r));
    WholeSlices(now - m.start, Slice(r));
    WithinTrim(r.hz, r.bps, Slice(r), a.bytes, m.bytes, m.start, t0, now, span);
    WithinTrim(r.hz, r.iops, Slice(r), a.ios, m.ios, m.start, t0, now, span);
  }

  lemma TryKeeps(r: Limits, a: Account, t0: int, last: int, before: int, t: Attempt) returns (last': int)
    requires LimitsOk(r) && InRate(r, a, t0, last, before) && before <= t.now
    ensures InRate(r, Try(r, a, t), t0, last', t.now)
  {
    hide Within, TrimSlice, CurrentSlice, BpsWait, IopsWait;
    MayDispatchKeeps(r, a, t0, last, before, t.now, t.size);
    CurrentSliceKeeps(r, a, t0, last, before, t.now);
    last' := last;
    if t.commit && DispatchWait(r, a.meter, t.now, t.size) == 0 {
      var m := CurrentSlice(r, a.meter, t.now);
      var a1 := a.(meter := m);
      ChargeKeeps(r, a1, t0, last, t.now, t.size);
      TrimKeeps(r, Account(m.(bytes := m.bytes + t.size, ios := m.ios + 1), a.bytes + t.size, a.ios + 1), t0, t.now);
      last' := t.now;
    }
  }

  /** The first attempt starts the first slice. */
  lemma FirstTry(r: Limits, t: Attempt) returns (last: int)
    requires LimitsOk(r)
    ensures InRate(r, Try(r, Fresh(), t), t.now, last, t.now)
  {
    hide TrimSlice, BpsWait, IopsWait, Roundup;
    var m := CurrentSlice(r, Fresh().meter, t.now);
    RoundupBounds(t.now + Slice(r), Slice(r));
    assert m.start == t.now && m.bytes == 0 && m.ios == 0;
    var a1 := Fresh().(meter := m);
    assert InRate(r, a1, t.now, t.now, t.now);
    RoundupBounds(t.now + DispatchWait(r, Fresh().meter, t.now, t.size), Slice(r));
    last := t.now;
    if t.commit && DispatchWait(r, Fresh().meter, t.now, t.size) == 0 {
      ChargeKeeps(r, a1, t.now, t.now, t.now, t.size);
      TrimKeeps(r, Account(m.(bytes := t.size, ios := 1), t.size, 1), t.now, t.now);
    }
  }

  lemma {:induction false} RunInRate(r: Limits, run: seq<Attempt>) returns (last: int)
    requires LimitsOk(r) && Forward(run) && run != []
    ensures InRate(r, TryAll(r, Fresh(), run), run[0].now, last, run[|run| - 1].now)
    decreases |run|
  {
    hide InRate, Try;
    if |run| == 1 {
      assert run[..0] == [];
      last := FirstTry(r, run[0]);
    } else {
      var front := run[..|run| - 1];
      last := RunInRate(r, front);
      last := TryKeeps(r, TryAll(r, Fresh(), front), run[0].now, last, front[|front| - 1].now, run[|run| - 1]);
    }
  }

  /** The rate bound: over every run, with any mix of slice starts, extensions and trims, what is
      dispatched from the start of the first slice to time t is no more than the limit allows in that
      time and one more slice. */
  lemma RateBound(r: Limits, run: seq<Attempt>, t: nat)
    requires LimitsOk(r) && Forward(run) && run != [] && run[|run| - 1].now <= t
    ensures var a := TryAll(r, Fresh(), run);
            && a.bytes * r.hz <= r.bps * (t - run[0].now + Slice(r))
            && a.ios * r.hz <= r.iops * (t - run[0].now + Slice(r))
  {
    hide TryAll, Slice;
    var last := RunInRate(r, run);
    MulLe(r.bps, last - run[0].now + Slice(r), t - run[0].now + Slice(r));
    MulLe(r.iops, last - run[0].now + Slice(r), t - run[0].now + Slice(r));
  }
}
