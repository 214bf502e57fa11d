/** Whole runs of the deadline scheduler: both views stay the same set, every request leaves exactly once,
    and neither direction starves. */
module DeadlineRuns {
  import opened Common
  import opened ListOps
  import opened DeadlineModel
  import opened DeadlineStructure

  // ---------------------------------------------------------------------------------------
  // The invariant

  ghost predicate Sides(c: Tunables, d: Dd) {
    && SideOk(d.rqs, d.read, Read, d.clock + c.readExpire)
    && SideOk(d.rqs, d.write, Write, d.clock + c.writeExpire)
  }

  /** Every request is queued, was dispatched once, or was absorbed once; nr_sorted counts the queued. */
  ghost predicate Accounts(d: Dd) {
    && d.nrSorted == |d.read.sort| + |d.write.sort|
    && NoDup(d.queue) && NoDup(d.absorbed)
    && (forall x :: x in d.rqs <==> x in d.read.sort || x in d.write.sort || x in d.queue || x in d.absorbed)
    && (forall x | x in d.queue :: x !in d.read.sort && x !in d.write.sort && x !in d.absorbed)
    && (forall x | x in d.absorbed :: x !in d.read.sort && x !in d.write.sort)
  }

  /** Only the direction of the last dispatch has a next request. */
  ghost predicate OneWay(d: Dd) {
    && (d.queue == [] ==> d.read.next.None? && d.write.next.None?)
    && (d.queue != [] && d.queue[|d.queue| - 1] in d.rqs ==>
          if d.rqs[d.queue[|d.queue| - 1]].dir == Read then d.write.next.None? else d.read.next.None?)
  }

  ghost predicate Cursor(c: Tunables, d: Dd) {
    && d.starved <= c.writesStarved
    && (d.read.next.Some? || d.write.next.Some? ==> d.batching >= 1)
    && (d.write.next.Some? ==> d.starved == 0)
  }

  ghost predicate Inv(c: Tunables, d: Dd) {
    Sides(c, d) && Accounts(d) && OneWay(d) && Cursor(c, d)
  }

  function Init(): Dd { Dd(map[], Side([], [], None), Side([], [], None), 0, 0, 0, 0, [], [], 0) }

  lemma InitInv(c: Tunables)
    ensures Inv(c, Init())
  {
  }

  // ---------------------------------------------------------------------------------------
  // Steps

  /** A request arrives, grows at either end, absorbs the request behind it, or the scheduler is asked for one. */
  datatype Action = Add(x: nat, rq: Rq, now: int) | Back(x: nat, n: nat) | Front(x: nat, n: nat)
                  | Merge(x: nat, y: nat) | Run(now: int)

  predicate Allowed(d: Dd, a: Action) {
    match a
    case Add(x, rq, now) => x !in d.rqs && now >= d.clock
    case Back(x, n) => Queued(d, x)
    case Front(x, n) => Queued(d, x) && n <= d.rqs[x].pos
    case Merge(x, y) => Queued(d, x) && Queued(d, y) && x != y && d.rqs[x].dir == d.rqs[y].dir
    case Run(now) => now >= d.clock
  }

  /** What the operations ask for holds whenever the invariant does. */
  lemma Ready(c: Tunables, d: Dd, a: Action)
    requires Sides(c, d) && Accounts(d) && Allowed(d, a)
    ensures Known(d.rqs, d.read.sort) && Known(d.rqs, d.write.sort)
    ensures Known(d.rqs, d.read.fifo) && Known(d.rqs, d.write.fifo)
    ensures a.Merge? ==> var s := Of(d, d.rqs[a.x].dir);
                         a.x in s.fifo && a.y in s.fifo && NoDup(s.fifo) && a.y in FifoMerged(d.rqs, s.fifo, a.x, a.y)
    ensures a.Run? && Pick(c, d, a.now).Some? ==> PickOk(c, d, a.now, Pick(c, d, a.now).value)
  {
    if a.Merge? {
      hide FifoMerged;
      var s, rx, ry := Of(d, d.rqs[a.x].dir), d.rqs[a.x], d.rqs[a.y];
      MergedByTime(d.rqs, s.fifo, a.x, a.y, rx.(time := Earlier(rx.time, ry.time)));
    }
  }

  /** The picked request is queued, in the direction of the batch. */
  ghost predicate PickOk(c: Tunables, d: Dd, now: int, x: nat) {
    && Queued(d, x) && x in Of(d, d.rqs[x].dir).fifo
    && d.rqs[x].dir == if Batching(c, d) then (if d.write.next.Some? then Write else Read) else NewDir(c, d)
  }

  ghost function Step(c: Tunables, d: Dd, a: Action): Dd
    requires Sides(c, d) && Accounts(d) && Allowed(d, a)
  {
    Ready(c, d, a);
    match a
    case Add(x, rq, now) => Added(c, d, x, rq, now)
    case Back(x, n) => BackMerged(d, x, n)
    case Front(x, n) => FrontMerged(d, x, n)
    case Merge(x, y) => RequestsMerged(d, x, y)
    case Run(now) => Dispatched(c, d, now)
  }

  // ---------------------------------------------------------------------------------------
  // Each step keeps the invariant

  /** The other direction, when a request changes or time passes. */
  lemma OtherSide(c: Tunables, d: Dd, x: nat, rq: Rq, now: int)
    requires Sides(c, d) && now >= d.clock
    ensures x !in d.read.sort ==> SideOk(d.rqs[x := rq], d.read, Read, now + c.readExpire)
    ensures x !in d.write.sort ==> SideOk(d.rqs[x := rq], d.write, Write, now + c.writeExpire)
  {
    hide SideOk;
    if x !in d.read.sort {
      SideFrame(d.rqs, d.read, Read, d.clock + c.readExpire, x, rq, now + c.readExpire);
    }
    if x !in d.write.sort {
      SideFrame(d.rqs, d.write, Write, d.clock + c.writeExpire, x, rq, now + c.writeExpire);
    }
  }

  lemma OneSide(c: Tunables, d: Dd, x: nat)
    requires Sides(c, d) && Queued(d, x)
    ensures d.rqs[x].dir == Read ==> x !in d.write.sort
    ensures d.rqs[x].dir == Write ==> x !in d.read.sort
  {
  }

  lemma AddSides(c: Tunables, d: Dd, x: nat, rq: Rq, now: int)
    requires Sides(c, d) && Accounts(d) && x !in d.rqs && now >= d.clock
    ensures Known(d.rqs, Of(d, rq.dir).sort) && Sides(c, Added(c, d, x, rq, now))
  {
    hide SideOk, RbAdd;
    var r := rq.(time := now + Expire(c, rq.dir));
    OtherSide(c, d, x, r, now);
    Ready(c, d, Run(d.clock));
    SideAdded(d.rqs[x := r], Of(d, rq.dir), rq.dir, now + Expire(c, rq.dir), x);
  }

  lemma AddAccounts(c: Tunables, d: Dd, x: nat, rq: Rq, now: int)
    requires Sides(c, d) && Accounts(d) && x !in d.rqs && now >= d.clock
    requires Known(d.rqs, Of(d, rq.dir).sort)
    ensures Accounts(Added(c, d, x, rq, now))
  {
    hide SideOk, NoDup, RbAdd;
    var r := rq.(time := now + Expire(c, rq.dir));
    var s := Of(d, rq.dir);
    AddedMembers(c, d, x, r, rq.dir);
  }

  lemma AddedMembers(c: Tunables, d: Dd, x: nat, r: Rq, dir: Dir)
    requires Sides(c, d) && Accounts(d) && x !in d.rqs
    ensures Known(d.rqs[x := r], Of(d, dir).sort)
    ensures |RbAdd(d.rqs[x := r], Of(d, dir).sort, x)| == |Of(d, dir).sort| + 1
    ensures forall y :: y in RbAdd(d.rqs[x := r], Of(d, dir).sort, x) <==> y in Of(d, dir).sort || y == x
  {
    Ready(c, d, Run(d.clock));
    var s := Of(d, dir).sort;
    InsertMembers(s, Place(d.rqs[x := r], s, r.pos), x);
  }

  lemma AddInv(c: Tunables, d: Dd, x: nat, rq: Rq, now: int)
    requires Inv(c, d) && Allowed(d, Add(x, rq, now))
    ensures Inv(c, Step(c, d, Add(x, rq, now)))
  {
    hide Sides, Accounts, RbAdd, Expire;
    AddSides(c, d, x, rq, now);
    AddAccounts(c, d, x, rq, now);
    LastIsKnown(d);
  }

  lemma LastIsKnown(d: Dd)
    requires Accounts(d)
    ensures d.queue != [] ==> d.queue[|d.queue| - 1] in d.rqs
  {
  }

  lemma BackInv(c: Tunables, d: Dd, x: nat, n: nat)
    requires Inv(c, d) && Allowed(d, Back(x, n))
    ensures Inv(c, Step(c, d, Back(x, n)))
  {
    hide SideOk, NoDup;
    var r := d.rqs[x].(sectors := d.rqs[x].sectors + n);
    OneSide(c, d, x);
    OtherSide(c, d, x, r, d.clock);
    SideBack(d.rqs, Of(d, r.dir), r.dir, d.clock + Expire(c, r.dir), x, r);
  }

  lemma FrontInv(c: Tunables, d: Dd, x: nat, n: nat)
    requires Inv(c, d) && Allowed(d, Front(x, n))
    ensures Inv(c, Step(c, d, Front(x, n)))
  {
    hide SideOk, NoDup, RbAdd, Without;
    var r := d.rqs[x].(pos := d.rqs[x].pos - n, sectors := d.rqs[x].sectors + n);
    OneSide(c, d, x);
    OtherSide(c, d, x, r, d.clock);
    SideFront(d.rqs, Of(d, r.dir), r.dir, d.clock + Expire(c, r.dir), x, r);
  }

  lemma MergeSides(c: Tunables, d: Dd, x: nat, y: nat)
    requires Sides(c, d) && Accounts(d) && Allowed(d, Merge(x, y))
    ensures Sides(c, Step(c, d, Merge(x, y)))
  {
    hide SideOk, Accounts, FifoMerged, Removed;
    var rx, ry := d.rqs[x], d.rqs[y];
    var r := rx.(sectors := rx.sectors + ry.sectors, time := Earlier(rx.time, ry.time));
    OneSide(c, d, x);
    OtherSide(c, d, x, r, d.clock);
    SideMerged(d.rqs, Of(d, r.dir), r.dir, d.clock + Expire(c, r.dir), x, y, r);
  }

  lemma MergeAccounts(c: Tunables, d: Dd, x: nat, y: nat)
    requires Sides(c, d) && Accounts(d) && Allowed(d, Merge(x, y))
    ensures Accounts(Step(c, d, Merge(x, y)))
  {
    hide SideOk, FifoMerged, Without, Latter;
    var rx, ry := d.rqs[x], d.rqs[y];
    var r := rx.(sectors := rx.sectors + ry.sectors, time := Earlier(rx.time, ry.time));
    OneSide(c, d, y);
    SideMerged(d.rqs, Of(d, r.dir), r.dir, d.clock + Expire(c, r.dir), x, y, r);
  }

  lemma MergeInv(c: Tunables, d: Dd, x: nat, y: nat)
    requires Inv(c, d) && Allowed(d, Merge(x, y))
    ensures Inv(c, Step(c, d, Merge(x, y)))
  {
    hide Sides, Accounts, FifoMerged, Without, Latter;
    MergeSides(c, d, x, y);
    MergeAccounts(c, d, x, y);
    LastIsKnown(d);
  }

  lemma MovedSides(c: Tunables, d: Dd, x: nat)
    requires Sides(c, d) && Accounts(d) && Queued(d, x) && x in Of(d, d.rqs[x].dir).fifo
    ensures Sides(c, Moved(d, x)) && Accounts(Moved(d, x))
  {
    hide SideOk, Without, Latter;
    var dir := d.rqs[x].dir;
    var s := Of(d, dir);
    OneSide(c, d, x);
    SideNext(d.rqs, d.read, Read, d.clock + c.readExpire);
    SideNext(d.rqs, d.write, Write, d.clock + c.writeExpire);
    SideRemoved(d.rqs, s, dir, d.clock + Expire(c, dir), x);
    SideLatter(d.rqs, s, dir, d.clock + Expire(c, dir), x);
  }

  lemma SideLatter(rqs: map<nat, Rq>, s: Side, dir: Dir, limit: int, x: nat)
    requires SideOk(rqs, s, dir, limit) && x in s.sort
    ensures SideOk(rqs, Side(Without(s.sort, x), Without(s.fifo, x), Latter(s.sort, x)), dir, limit)
  {
    hide NoDup, ByPos, ByTime, Without, Latter;
    SideRemoved(rqs, s, dir, limit, x);
  }

  /** The state in which the picked request is moved. */
  ghost function Chosen(c: Tunables, d: Dd, now: int): Dd {
    if Batching(c, d) then d.(batching := d.batching + 1, clock := now)
    else d.(batching := 1, starved := NewStarved(c, d), clock := now)
  }

  lemma RunSides(c: Tunables, d: Dd, now: int)
    requires Sides(c, d) && Accounts(d) && Allowed(d, Run(now))
    ensures Sides(c, Step(c, d, Run(now))) && Accounts(Step(c, d, Run(now)))
  {
    hide SideOk, Without, Latter, NoDup, Moved, Pick, NewStarved, Batching;
    Ready(c, d, Run(now));
    SideLater(d.rqs, d.read, Read, d.clock + c.readExpire, now + c.readExpire);
    SideLater(d.rqs, d.write, Write, d.clock + c.writeExpire, now + c.writeExpire);
    if Pick(c, d, now).Some? {
      MovedSides(c, Chosen(c, d, now), Pick(c, d, now).value);
    }
  }

  lemma RunCursor(c: Tunables, d: Dd, now: int)
    requires Inv(c, d) && Allowed(d, Run(now))
    ensures OneWay(Step(c, d, Run(now))) && Cursor(c, Step(c, d, Run(now)))
  {
    hide Sides, Accounts, Without, Latter, NewFirst;
    Ready(c, d, Run(now));
  }

  lemma RunInv(c: Tunables, d: Dd, now: int)
    requires Inv(c, d) && Allowed(d, Run(now))
    ensures Inv(c, Step(c, d, Run(now)))
  {
    hide Sides, Accounts, OneWay, Cursor, Step;
    RunSides(c, d, now);
    RunCursor(c, d, now);
  }

  lemma StepInv(c: Tunables, d: Dd, a: Action)
    requires Inv(c, d) && Allowed(d, a)
    ensures Inv(c, Step(c, d, a))
  {
    hide Inv, Step, Allowed;
    match a
    case Add(x, rq, now) => AddInv(c, d, x, rq, now);
    case Back(x, n) => BackInv(c, d, x, n);
    case Front(x, n) => FrontInv(c, d, x, n);
    case Merge(x, y) => MergeInv(c, d, x, y);
    case Run(now) => RunInv(c, d, now);
  }

  // ---------------------------------------------------------------------------------------
  // Runs

  ghost predicate Legal(c: Tunables, d: Dd, acts: seq<Action>)
    requires Inv(c, d)
    decreases |acts|
  {
    acts == [] || (Allowed(d, acts[0]) && (StepInv(c, d, acts[0]); Legal(c, Step(c, d, acts[0]), acts[1..])))
  }

  ghost function After(c: Tunables, d: Dd, acts: seq<Action>): Dd
    requires Inv(c, d) && Legal(c, d, acts)
    decreases |acts|
  {
    if acts == [] then d
    else
      StepInv(c, d, acts[0]);
      After(c, Step(c, d, acts[0]), acts[1..])
  }

  lemma {:induction false} RunKeepsInv(c: Tunables, d: Dd, acts: seq<Action>)
    requires Inv(c, d) && Legal(c, d, acts)
    ensures Inv(c, After(c, d, acts))
    decreases |acts|
  {
    hide Sides, Accounts, OneWay, Cursor, Step, Allowed;
    if acts != [] {
      StepInv(c, d, acts[0]);
      RunKeepsInv(c, Step(c, d, acts[0]), acts[1..]);
    }
  }

  /** Over every run: the two views of a direction hold the same requests, in position order and in expiry
      order; next_rq is null or queued, in at most one direction; nr_sorted counts the queued requests; and
      each request ever added is queued, or was dispatched once, or was absorbed once, and only one of these. */
  lemma TwoViewsOneSet(c: Tunables, acts: seq<Action>)
    requires (InitInv(c); Legal(c, Init(), acts))
    ensures (InitInv(c);
             var d := After(c, Init(), acts);
             && (forall dir :: var s := Of(d, dir);
                   && NoDup(s.sort) && NoDup(s.fifo) && (forall x :: x in s.sort <==> x in s.fifo)
                   && ByPos(d.rqs, s.sort) && ByTime(d.rqs, s.fifo)
                   && (s.next.Some? ==> s.next.value in s.sort))
             && (d.read.next.None? || d.write.next.None?)
             && d.nrSorted == |d.read.sort| + |d.write.sort|
             && (forall x | x in d.rqs :: OnceOnly(d, x)))
  {
    InitInv(c);
    RunKeepsInv(c, Init(), acts);
    hide NoDup, ByPos, ByTime, Legal, After;
    var d := After(c, Init(), acts);
    LastIsKnown(d);
    forall x | x in d.rqs ensures OnceOnly(d, x) {
      Once(c, d, x);
    }
  }

  function Count(s: seq<nat>, x: nat): nat {
    if s == [] then 0 else (if s[0] == x then 1 else 0) + Count(s[1..], x)
  }

  /** Queued in its direction, dispatched or absorbed: one of the three, and once. */
  ghost predicate OnceOnly(d: Dd, x: nat)
    requires x in d.rqs
  {
    Count(d.read.sort, x) + Count(d.write.sort, x) + Count(d.queue, x) + Count(d.absorbed, x) == 1
  }

  lemma {:induction false} CountNoDup(s: seq<nat>, x: nat)
    requires NoDup(s)
    ensures Count(s, x) == if x in s then 1 else 0
  {
    if s != [] {
      CountNoDup(s[1..], x);
    }
  }

  lemma Once(c: Tunables, d: Dd, x: nat)
    requires Inv(c, d) && x in d.rqs
    ensures OnceOnly(d, x)
  {
    hide Count, ByPos, ByTime, NoDup;
    CountNoDup(d.read.sort, x);
    CountNoDup(d.write.sort, x);
    CountNoDup(d.queue, x);
    CountNoDup(d.absorbed, x);
  }

  // ---------------------------------------------------------------------------------------
  // Starvation

  function Batch(c: Tunables): nat { if c.fifoBatch < 1 then 1 else c.fifoBatch }

  function Times(n: nat, b: nat): nat { n * b }

  function Left(c: Tunables, d: Dd): nat { if d.batching < Batch(c) then Batch(c) - d.batching else 0 }

  /** How many reads may still go before a waiting write. */
  function ReadCredit(c: Tunables, d: Dd): nat {
    (if d.read.next.Some? then Left(c, d) else 0)
    + (if d.starved <= c.writesStarved then Times(c.writesStarved - d.starved, Batch(c)) else 0)
  }

  /** How many writes may still go before a waiting read. */
  function WriteCredit(c: Tunables, d: Dd): nat {
    if d.write.next.Some? then Left(c, d) else if d.starved >= c.writesStarved then Batch(c) else 0
  }

  /** Throughout the run, whenever a request is dispatched, one of the given direction is pending and the
      dispatched one is of the other direction. */
  ghost predicate Waits(c: Tunables, d: Dd, acts: seq<Action>, dir: Dir)
    requires Inv(c, d) && Legal(c, d, acts)
    decreases |acts|
  {
    acts == [] ||
    (&& (acts[0].Run? ==> WaitsOnce(c, d, acts[0].now, dir))
     && (StepInv(c, d, acts[0]); Waits(c, Step(c, d, acts[0]), acts[1..], dir)))
  }

  ghost predicate WaitsOnce(c: Tunables, d: Dd, now: int, dir: Dir)
    requires Inv(c, d) && Allowed(d, Run(now))
  {
    Ready(c, d, Run(now));
    && Of(d, dir).fifo != []
    && (Pick(c, d, now).Some? ==> d.rqs[Pick(c, d, now).value].dir != dir)
  }

  lemma TimesNext(n: nat, b: nat)
    requires n >= 1
    ensures Times(n, b) == Times(n - 1, b) + b
  {
  }

  /** Every read dispatched past a waiting write costs one. */
  lemma ReadSpends(c: Tunables, d: Dd, now: int)
    requires Inv(c, d) && Allowed(d, Run(now)) && WaitsOnce(c, d, now, Write)
    ensures ReadCredit(c, Step(c, d, Run(now))) + 1 <= ReadCredit(c, d)
    ensures |Step(c, d, Run(now)).queue| == |d.queue| + 1
  {
    hide Sides, Accounts, OneWay, Without, Latter, Times, NewFirst;
    Ready(c, d, Run(now));
    if d.starved < c.writesStarved {
      TimesNext(c.writesStarved - d.starved, Batch(c));
    }
  }

  /** Every write dispatched past a waiting read costs one, when reads may be preferred at all. */
  lemma WriteSpends(c: Tunables, d: Dd, now: int)
    requires Inv(c, d) && Allowed(d, Run(now)) && WaitsOnce(c, d, now, Read) && c.writesStarved >= 1
    ensures WriteCredit(c, Step(c, d, Run(now))) + 1 <= WriteCredit(c, d)
    ensures |Step(c, d, Run(now)).queue| == |d.queue| + 1
  {
    hide Sides, Accounts, OneWay, Without, Latter, NewFirst;
    Ready(c, d, Run(now));
  }

  lemma OthersSpendNothing(c: Tunables, d: Dd, a: Action)
    requires Inv(c, d) && Allowed(d, a) && !a.Run?
    ensures ReadCredit(c, Step(c, d, a)) <= ReadCredit(c, d)
    ensures c.writesStarved >= 1 ==> WriteCredit(c, Step(c, d, a)) <= WriteCredit(c, d)
    ensures Step(c, d, a).queue == d.queue
  {
    hide Sides, Accounts, OneWay, Without, Latter, RbAdd, FifoMerged, Times;
  }

  lemma {:induction false} ReadsSpend(c: Tunables, d: Dd, acts: seq<Action>)
    requires Inv(c, d) && Legal(c, d, acts) && Waits(c, d, acts, Write)
    ensures |After(c, d, acts).queue| - |d.queue| <= ReadCredit(c, d)
    decreases |acts|
  {
    hide Sides, Accounts, OneWay, Cursor, Step, Allowed, ReadCredit, WaitsOnce;
    if acts != [] {
      var a := acts[0];
      StepInv(c, d, a);
      ReadsSpend(c, Step(c, d, a), acts[1..]);
      if a.Run? {
        ReadSpends(c, d, a.now);
      } else {
        OthersSpendNothing(c, d, a);
      }
    }
  }

  lemma {:induction false} WritesSpend(c: Tunables, d: Dd, acts: seq<Action>)
    requires Inv(c, d) && Legal(c, d, acts) && Waits(c, d, acts, Read) && c.writesStarved >= 1
    ensures |After(c, d, acts).queue| - |d.queue| <= WriteCredit(c, d)
    decreases |acts|
  {
    hide Sides, Accounts, OneWay, Cursor, Step, Allowed, WriteCredit, WaitsOnce;
    if acts != [] {
      var a := acts[0];
      StepInv(c, d, a);
      WritesSpend(c, Step(c, d, a), acts[1..]);
      if a.Run? {
        WriteSpends(c, d, a.now);
      } else {
        OthersSpendNothing(c, d, a);
      }
    }
  }

  lemma TimesMono(n: nat, m: nat, b: nat)
    requires n <= m
    ensures Times(n, b) <= Times(m, b)
  {
  }

  /** From any state a run can reach, while writes are pending fewer than
      (writes_starved + 1) * max(1, fifo_batch) reads go before one of them. */
  lemma WritesDoNotStarve(c: Tunables, d: Dd, acts: seq<Action>)
    requires Inv(c, d) && Legal(c, d, acts) && Waits(c, d, acts, Write)
    ensures |After(c, d, acts).queue| - |d.queue| < Times(c.writesStarved + 1, Batch(c))
  {
    hide Sides, Accounts, OneWay, Legal, Waits, After, Times;
    ReadsSpend(c, d, acts);
    TimesNext(c.writesStarved + 1, Batch(c));
    TimesMono(c.writesStarved - d.starved, c.writesStarved, Batch(c));
  }

  /** With writes_starved at least one, while reads are pending at most max(1, fifo_batch) writes go before
      one of them. */
  lemma ReadsDoNotStarve(c: Tunables, d: Dd, acts: seq<Action>)
    requires Inv(c, d) && Legal(c, d, acts) && Waits(c, d, acts, Read) && c.writesStarved >= 1
    ensures |After(c, d, acts).queue| - |d.queue| <= Batch(c)
  {
    hide Sides, Accounts, OneWay, Legal, Waits, After;
    WritesSpend(c, d, acts);
  }

  /** The first request after the direction changes is the oldest pending one of its direction. */
  lemma FirstIsOldest(c: Tunables, d: Dd, now: int)
    requires Inv(c, d) && Allowed(d, Run(now)) && d.queue != []
    requires (Ready(c, d, Run(now)); Pick(c, d, now).Some?)
    requires (LastIsKnown(d); d.rqs[Pick(c, d, now).value].dir != d.rqs[d.queue[|d.queue| - 1]].dir)
    ensures var x := Pick(c, d, now).value;
            var s := Of(d, d.rqs[x].dir);
            x == s.fifo[0] && forall y | y in s.sort :: d.rqs[x].time <= d.rqs[y].time
  {
    Ready(c, d, Run(now));
    LastIsKnown(d);
    var x := Pick(c, d, now).value;
    var dir := d.rqs[x].dir;
    OldestFirst(d.rqs, Of(d, dir), dir, d.clock + Expire(c, dir));
  }

  lemma OldestFirst(rqs: map<nat, Rq>, s: Side, dir: Dir, limit: int)
    requires SideOk(rqs, s, dir, limit) && s.fifo != []
    ensures forall y | y in s.sort :: rqs[s.fifo[0]].time <= rqs[y].time
  {
    forall y | y in s.sort
      ensures rqs[s.fifo[0]].time <= rqs[y].time
    {
      assert y in s.fifo;
      var j :| 0 <= j < |s.fifo| && s.fifo[j] == y;
    }
  }

  /** With writes_starved zero, one write arriving before every dispatch is enough. */
  function Flood(n: nat, x: nat, now: int): seq<Action> {
    if n == 0 then [] else [Add(x, Rq(Write, 0, 1, 0), now), Run(now)] + Flood(n - 1, x + 1, now)
  }

  lemma FloodAdd(c: Tunables, d: Dd, x: nat, now: int)
    requires Inv(c, d) && now >= d.clock && x !in d.rqs
    ensures Allowed(d, Add(x, Rq(Write, 0, 1, 0), now))
    ensures var e := Step(c, d, Add(x, Rq(Write, 0, 1, 0), now));
            && Inv(c, e) && e.clock == now && e.read == d.read && e.write.fifo != [] && e.queue == d.queue
            && forall y | y in e.rqs :: y in d.rqs || y == x
  {
    hide Sides, Accounts, OneWay, Cursor, RbAdd;
    StepInv(c, d, Add(x, Rq(Write, 0, 1, 0), now));
  }

  lemma FloodRun(c: Tunables, d: Dd)
    requires Inv(c, d) && c.writesStarved == 0 && d.read.fifo != [] && d.read.next.None? && d.write.fifo != []
    ensures Allowed(d, Run(d.clock)) && WaitsOnce(c, d, d.clock, Read)
    ensures var e := Step(c, d, Run(d.clock));
            && Inv(c, e) && e.clock == d.clock && e.read == d.read && e.rqs == d.rqs && |e.queue| == |d.queue| + 1
  {
    hide Sides, Accounts, OneWay, Without, Latter, NewFirst;
    StepInv(c, d, Run(d.clock));
    Ready(c, d, Run(d.clock));
  }

  /** Then for every n there is a run in which n writes go before a read that is pending all along: the bound
      on reads holds exactly when writes_starved is at least one. */
  lemma {:induction false} ReadsStarveAtZero(c: Tunables, d: Dd, n: nat, x: nat, now: int)
    requires Inv(c, d) && c.writesStarved == 0 && d.read.fifo != [] && d.read.next.None?
    requires now >= d.clock && forall y | y in d.rqs :: y < x
    ensures Legal(c, d, Flood(n, x, now)) && Waits(c, d, Flood(n, x, now), Read)
    ensures |After(c, d, Flood(n, x, now)).queue| == |d.queue| + n
    decreases n
  {
    hide Sides, Accounts, OneWay, Cursor, Step, Allowed, WaitsOnce;
    if n > 0 {
      FloodAdd(c, d, x, now);
      var acts := Flood(n, x, now);
      var e := Step(c, d, acts[0]);
      FloodRun(c, e);
      var f := Step(c, e, Run(now));
      ReadsStarveAtZero(c, f, n - 1, x + 1, now);
      assert acts[1..][1..] == Flood(n - 1, x + 1, now);
      assert acts[1..][0] == Run(now);
      assert Legal(c, e, acts[1..]);
    }
  }
}
