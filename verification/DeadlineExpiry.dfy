/** What the deadline scheduler dispatches, in terms of its lists and times alone: the direction of a batch, the
    request it takes, what follows it, and that an expired request is not passed over. */
module DeadlineExpiry {
  import opened Common
  import opened ListOps
  import opened DeadlineModel
  import opened DeadlineStructure
  import opened DeadlineRuns

  /** The batch that was begun may go on: it is not full, and a request follows the last one. */
  predicate GoesOn(c: Tunables, d: Dd) {
    d.batching < c.fifoBatch && (d.read.next.Some? || d.write.next.Some?)
  }

  /** The request that a dispatch sent, if it sent one. */
  ghost predicate Sent(d: Dd, e: Dd, x: nat) { e.queue == d.queue + [x] }

  /** What was sent and how the batch goes on. A batch that goes on takes the request that follows. A new batch is one
      of writes exactly when only writes are queued, or both are and reads have been preferred writes_starved times
      since the last batch of writes; it starts with the oldest request of its direction if that has expired or none
      follows, and otherwise with the one that follows. */
  ghost predicate Decided(c: Tunables, d: Dd, e: Dd, now: int, x: nat)
    requires x in d.rqs && Of(d, d.rqs[x].dir).fifo != []
  {
    var dir, s := d.rqs[x].dir, Of(d, d.rqs[x].dir);
    if GoesOn(c, d) then
      s.next == Some(x) && e.batching == d.batching + 1 && e.starved == d.starved
    else
      && (dir == Write <==> d.write.fifo != [] && (d.read.fifo == [] || d.starved >= c.writesStarved))
      && e.starved == (if dir == Write then 0 else if d.write.fifo != [] then d.starved + 1 else d.starved)
      && e.batching == 1
      && s.fifo[0] in d.rqs
      && (now > d.rqs[s.fifo[0]].time ==> x == s.fifo[0])
      && (now <= d.rqs[s.fifo[0]].time && s.next.Some? ==> x == s.next.value)
      && (s.next.None? ==> x == s.fifo[0])
  }

  /** next is the request of the sorted list that follows position pos. */
  ghost predicate Following(rqs: map<nat, Rq>, sort: seq<nat>, pos: nat, next: Option<nat>) {
    && (next.Some? ==> && next.value in sort && next.value in rqs && pos <= rqs[next.value].pos
                       && forall y | y in sort && y in rqs && pos < rqs[y].pos :: rqs[next.value].pos <= rqs[y].pos)
    && (next.None? ==> forall y | y in sort && y in rqs :: rqs[y].pos <= pos)
  }

  /** Request x is gone from both lists of its direction, whose order is kept; the one that follows it is to be next, in
      this direction only. */
  ghost predicate Taken(d: Dd, e: Dd, x: nat)
    requires x in d.rqs
  {
    var dir := d.rqs[x].dir;
    var s, t := Of(d, dir), Of(e, dir);
    && e.rqs == d.rqs
    && t.sort == Without(s.sort, x) && t.fifo == Without(s.fifo, x)
    && Following(d.rqs, t.sort, d.rqs[x].pos, t.next)
    && (if dir == Read then e.write == d.write.(next := None) else e.read == d.read.(next := None))
  }

  lemma LatterFollows(rqs: map<nat, Rq>, sort: seq<nat>, x: nat)
    requires ByPos(rqs, sort) && NoDup(sort) && x in sort
    ensures Following(rqs, Without(sort, x), rqs[x].pos, Latter(sort, x))
  {
    hide Without;
    WithoutMembers(sort, x);
    var i := IndexOf(sort, x);
    forall y | y in sort
      ensures y in rqs && if i + 1 < |sort| then rqs[x].pos < rqs[y].pos ==> rqs[sort[i + 1]].pos <= rqs[y].pos
                          else rqs[y].pos <= rqs[x].pos
    {
      var j :| 0 <= j < |sort| && sort[j] == y;
    }
  }

  lemma DispatchStep(c: Tunables, d: Dd, now: int)
    requires Inv(c, d) && Allowed(d, Run(now))
    ensures var e := Step(c, d, Run(now));
            && e.clock == now
            && (d.read.fifo == [] && d.write.fifo == [] ==> e == d.(clock := now))
            && (d.read.fifo != [] || d.write.fifo != [] ==>
                  exists x :: && Sent(d, e, x) && x in d.rqs && x in Of(d, d.rqs[x].dir).fifo
                              && Decided(c, d, e, now, x) && Taken(d, e, x))
  {
    hide Accounts, OneWay, Without, Latter, NoDup, ByPos, ByTime, Following;
    Ready(c, d, Run(now));
    if Pick(c, d, now).Some? {
      var x := Pick(c, d, now).value;
      var e := Step(c, d, Run(now));
      LatterFollows(d.rqs, Of(d, d.rqs[x].dir).sort, x);
      assert Sent(d, e, x) && Decided(c, d, e, now, x) && Taken(d, e, x);
    } else {
      NothingMeansEmpty(c, d);
    }
  }

  lemma NothingMeansEmpty(c: Tunables, d: Dd)
    requires Inv(c, d) && d.read.fifo == [] && d.write.fifo == []
    ensures d.read.next.None? && d.write.next.None?
  {
  }

  /** Over every run, every dispatch: nothing is sent exactly when nothing is queued, and otherwise what is sent, with
      the batch, the count of preferred reads and the request to follow, is as the lists and times demand. */
  lemma DispatchChoice(c: Tunables, acts: seq<Action>, now: int)
    requires (InitInv(c); Legal(c, Init(), acts) && Allowed(After(c, Init(), acts), Run(now)))
    ensures (InitInv(c);
             var d := After(c, Init(), acts);
             RunKeepsInv(c, Init(), acts);
             var e := Step(c, d, Run(now));
             if d.read.fifo == [] && d.write.fifo == [] then e == d.(clock := now)
             else exists x :: && Sent(d, e, x) && x in d.rqs && x in Of(d, d.rqs[x].dir).fifo
                              && Decided(c, d, e, now, x) && Taken(d, e, x))
  {
    InitInv(c);
    RunKeepsInv(c, Init(), acts);
    hide Legal, After, Step, Inv;
    DispatchStep(c, After(c, Init(), acts), now);
  }

  /** A new request: its expiry, its place at the end of the fifo and in position order; nothing else changes. */
  lemma AddSets(c: Tunables, d: Dd, x: nat, rq: Rq, now: int)
    requires Inv(c, d) && Allowed(d, Add(x, rq, now))
    ensures var e := Step(c, d, Add(x, rq, now));
            var s, t := Of(d, rq.dir), Of(e, rq.dir);
            && e.rqs == d.rqs[x := rq.(time := now + if rq.dir == Read then c.readExpire else c.writeExpire)]
            && t.fifo == s.fifo + [x] && t.next == s.next && e.queue == d.queue && e.clock == now
            && (forall y :: y in t.sort <==> y in s.sort || y == x) && ByPos(e.rqs, t.sort)
            && (if rq.dir == Read then e.write == d.write else e.read == d.read)
            && e.batching == d.batching && e.starved == d.starved
  {
    hide Accounts, OneWay, RbAdd, NoDup, ByPos, ByTime;
    var r := rq.(time := now + Expire(c, rq.dir));
    Ready(c, d, Run(d.clock));
    AddSides(c, d, x, rq, now);
    AddedMembers(c, d, x, r, rq.dir);
  }

  /** A request that absorbs another: it keeps its place on disk, grows by the other's sectors and expires when the
      earlier of the two would have; the other is gone, and if it was to be next, the one that follows it is. */
  lemma MergeSets(c: Tunables, d: Dd, x: nat, y: nat)
    requires Inv(c, d) && Allowed(d, Merge(x, y))
    ensures var e := Step(c, d, Merge(x, y));
            var rx, ry := d.rqs[x], d.rqs[y];
            var s, t := Of(d, rx.dir), Of(e, rx.dir);
            && e.rqs == d.rqs[x := Rq(rx.dir, rx.pos, rx.sectors + ry.sectors,
                                      if ry.time < rx.time then ry.time else rx.time)]
            && (forall z :: z in t.sort <==> z in s.sort && z != y)
            && (forall z :: z in t.fifo <==> z in s.fifo && z != y)
            && (if s.next == Some(y) then Following(d.rqs, t.sort, ry.pos, t.next) else t.next == s.next)
            && (if rx.dir == Read then e.write == d.write else e.read == d.read)
            && e.queue == d.queue && e.batching == d.batching && e.starved == d.starved
  {
    hide Accounts, OneWay, Without, Latter, FifoMerged, ByPos, ByTime, NoDup, Following;
    Ready(c, d, Merge(x, y));
    var rx, ry := d.rqs[x], d.rqs[y];
    var s := Of(d, rx.dir);
    MergedByTime(d.rqs, s.fifo, x, y, rx.(time := Earlier(rx.time, ry.time)));
    WithoutFacts(FifoMerged(d.rqs, s.fifo, x, y), y);
    WithoutFacts(s.sort, y);
    LatterFollows(d.rqs, s.sort, y);
  }

  /** A request that grows at an end: where it starts and how long it is; its expiry and the request to follow stay. */
  lemma GrowSets(c: Tunables, d: Dd, x: nat, n: nat)
    requires Inv(c, d) && Queued(d, x)
    ensures Step(c, d, Back(x, n)) == d.(rqs := d.rqs[x := d.rqs[x].(sectors := d.rqs[x].sectors + n)])
    ensures n <= d.rqs[x].pos ==>
              var e, r := Step(c, d, Front(x, n)), d.rqs[x];
              var s, t := Of(d, r.dir), Of(e, r.dir);
              && e.rqs == d.rqs[x := Rq(r.dir, r.pos - n, r.sectors + n, r.time)]
              && t.fifo == s.fifo && t.next == s.next && (forall z :: z in t.sort <==> z in s.sort)
              && (if r.dir == Read then e.write == d.write else e.read == d.read) && e.queue == d.queue
  {
    hide Accounts, OneWay, Without, RbAdd, ByPos, ByTime, NoDup;
    Ready(c, d, Back(x, n));
    if n <= d.rqs[x].pos {
      var r := d.rqs[x].(pos := d.rqs[x].pos - n, sectors := d.rqs[x].sectors + n);
      SideFront(d.rqs, Of(d, r.dir), r.dir, d.clock + Expire(c, r.dir), x, r);
    }
  }

  // ---------------------------------------------------------------------------------------
  // An expired request

  /** How many of the requests are of the given direction. */
  function InDir(rqs: map<nat, Rq>, s: seq<nat>, dir: Dir): nat {
    if s == [] then 0
    else InDir(rqs, s[..|s| - 1], dir) + if s[|s| - 1] in rqs && rqs[s[|s| - 1]].dir == dir then 1 else 0
  }

  /** y is the oldest request of its direction, and its time has passed. */
  ghost predicate Overdue(d: Dd, dir: Dir, y: nat) {
    && Of(d, dir).fifo != [] && Of(d, dir).fifo[0] == y && y in d.rqs && d.rqs[y].dir == dir
    && d.rqs[y].time < d.clock
  }

  /** How many may still go before it: the rest of a batch of its direction. */
  function Before(c: Tunables, d: Dd, dir: Dir): nat { if Of(d, dir).next.Some? then Left(c, d) else 0 }

  lemma HeadStays(s: seq<nat>, x: nat, y: nat)
    requires NoDup(s) && s != [] && s[0] == y && x != y
    ensures Without(s, x) != [] && Without(s, x)[0] == y
  {
    WithoutFacts(s, x);
  }

  lemma OneInDir(rqs: map<nat, Rq>, x: nat, dir: Dir)
    ensures InDir(rqs, [x], dir) == if x in rqs && rqs[x].dir == dir then 1 else 0
  {
    assert [x][..0] == [];
  }

  /** A dispatch passes an overdue request only within a batch that was already going on. */
  lemma RunPasses(c: Tunables, d: Dd, now: int, dir: Dir, y: nat)
    requires Inv(c, d) && Allowed(d, Run(now)) && Overdue(d, dir, y)
    requires y in Of(Step(c, d, Run(now)), dir).fifo
    ensures var e := Step(c, d, Run(now));
            && Overdue(e, dir, y) && |d.queue| <= |e.queue| && e.queue[..|d.queue|] == d.queue
            && InDir(e.rqs, e.queue[|d.queue|..], dir) + Before(c, e, dir) <= Before(c, d, dir)
  {
    hide Accounts, OneWay, Without, ByPos, ByTime, Following, Step, InDir;
    DispatchStep(c, d, now);
    var e := Step(c, d, Run(now));
    var x: nat :| && Sent(d, e, x) && x in d.rqs && x in Of(d, d.rqs[x].dir).fifo
                  && Decided(c, d, e, now, x) && Taken(d, e, x);
    assert e.queue[|d.queue|..] == [x];
    OneInDir(e.rqs, x, dir);
    WithoutFacts(Of(d, dir).fifo, x);
    if d.rqs[x].dir == dir {
      assert x != y;
      HeadStays(Of(d, dir).fifo, x, y);
    }
  }

  /** The other operations leave it the oldest, and its time past. */
  lemma OthersPass(c: Tunables, d: Dd, a: Action, dir: Dir, y: nat)
    requires Inv(c, d) && Allowed(d, a) && !a.Run? && Overdue(d, dir, y) && y in Of(Step(c, d, a), dir).fifo
    ensures var e := Step(c, d, a);
            Overdue(e, dir, y) && e.queue == d.queue && Before(c, e, dir) <= Before(c, d, dir)
  {
    hide Inv, Step, Overdue, Allowed;
    if a.Merge? {
      MergeLeaves(c, d, a.x, a.y, dir, y);
    } else {
      GrowthPasses(c, d, a, dir, y);
    }
  }

  lemma GrowthPasses(c: Tunables, d: Dd, a: Action, dir: Dir, y: nat)
    requires Inv(c, d) && Allowed(d, a) && !a.Run? && !a.Merge? && Overdue(d, dir, y)
    ensures var e := Step(c, d, a);
            Overdue(e, dir, y) && e.queue == d.queue && Before(c, e, dir) <= Before(c, d, dir)
  {
    hide Accounts, OneWay, Without, RbAdd, FifoMerged, ByPos, ByTime, Cursor, Latter;
    Ready(c, d, a);
  }

  lemma MergeLeaves(c: Tunables, d: Dd, x: nat, z: nat, dir: Dir, y: nat)
    requires Inv(c, d) && Allowed(d, Merge(x, z)) && Overdue(d, dir, y) && y in Of(Step(c, d, Merge(x, z)), dir).fifo
    ensures var e := Step(c, d, Merge(x, z));
            Overdue(e, dir, y) && e.queue == d.queue && Before(c, e, dir) <= Before(c, d, dir)
  {
    hide Accounts, OneWay, Without, RbAdd, FifoMerged, ByPos, ByTime, Cursor, Latter;
    Ready(c, d, Merge(x, z));
    if d.rqs[x].dir == dir {
      MergePasses(c, d, x, z, y);
    }
  }

  lemma MergePasses(c: Tunables, d: Dd, x: nat, z: nat, y: nat)
    requires Sides(c, d) && Accounts(d) && Allowed(d, Merge(x, z)) && Overdue(d, d.rqs[x].dir, y)
    requires y in Of(Step(c, d, Merge(x, z)), d.rqs[x].dir).fifo
    ensures Overdue(Step(c, d, Merge(x, z)), d.rqs[x].dir, y)
  {
    hide Without, Latter, ByPos, ByTime, NoDup, FifoMerged, Accounts;
    Ready(c, d, Merge(x, z));
    var s := Of(d, d.rqs[x].dir);
    var rx, rz := d.rqs[x], d.rqs[z];
    MergedByTime(d.rqs, s.fifo, x, z, rx.(time := Earlier(rx.time, rz.time)));
    WithoutFacts(FifoMerged(d.rqs, s.fifo, x, z), z);
    FifoMergedHead(d.rqs, s.fifo, x, z);
  }

  lemma FifoMergedHead(rqs: map<nat, Rq>, s: seq<nat>, x: nat, z: nat)
    requires x in s && z in s && x != z && x in rqs && z in rqs && NoDup(s) && ByTime(rqs, s)
    ensures z != s[0] ==> var t := Without(FifoMerged(rqs, s, x, z), z); t != [] && t[0] == s[0]
  {
    hide Without, NoDup, ByTime;
    if z != s[0] {
      var m := FifoMerged(rqs, s, x, z);
      MergedByTime(rqs, s, x, z, rqs[x].(time := Earlier(rqs[x].time, rqs[z].time)));
      if rqs[z].time < rqs[x].time {
        HeadIsFirst(rqs, s, z);
        HeadStays(s, x, s[0]);
        WithoutFacts(s, x);
      }
      HeadStays(m, z, s[0]);
    }
  }

  lemma HeadIsFirst(rqs: map<nat, Rq>, s: seq<nat>, z: nat)
    requires ByTime(rqs, s) && z in s
    ensures rqs[s[0]].time <= rqs[z].time
  {
  }

  /** What has left a fifo does not come back. */
  lemma NeverBack(c: Tunables, d: Dd, a: Action, dir: Dir, y: nat)
    requires Inv(c, d) && Allowed(d, a) && y in d.rqs && y !in Of(d, dir).fifo
    ensures y in Step(c, d, a).rqs && y !in Of(Step(c, d, a), dir).fifo
  {
    hide Accounts, OneWay, Without, RbAdd, FifoMerged, ByPos, ByTime, Cursor, Latter, NoDup;
    Ready(c, d, a);
    if a.Run? {
      hide Step;
      DispatchStep(c, d, a.now);
      if d.read.fifo != [] || d.write.fifo != [] {
        var x: nat :| && Sent(d, Step(c, d, a), x) && x in d.rqs && x in Of(d, d.rqs[x].dir).fifo
                      && Decided(c, d, Step(c, d, a), a.now, x) && Taken(d, Step(c, d, a), x);
        WithoutFacts(Of(d, d.rqs[x].dir).fifo, x);
      }
    } else if a.Merge? {
      var s := Of(d, d.rqs[a.x].dir).fifo;
      var rx, ry := d.rqs[a.x], d.rqs[a.y];
      MergedByTime(d.rqs, s, a.x, a.y, rx.(time := Earlier(rx.time, ry.time)));
      WithoutFacts(FifoMerged(d.rqs, s, a.x, a.y), a.y);
    }
  }

  lemma {:induction false} GoneForGood(c: Tunables, d: Dd, acts: seq<Action>, dir: Dir, y: nat)
    requires Inv(c, d) && Legal(c, d, acts) && y in d.rqs && y !in Of(d, dir).fifo
    ensures y !in Of(After(c, d, acts), dir).fifo
    decreases |acts|
  {
    hide Sides, Accounts, OneWay, Cursor, Step, Allowed;
    if acts != [] {
      StepInv(c, d, acts[0]);
      NeverBack(c, d, acts[0], dir, y);
      GoneForGood(c, Step(c, d, acts[0]), acts[1..], dir, y);
    }
  }

  /** A direction is for ever, and a run only adds to the queue. */
  lemma DirsStay(c: Tunables, d: Dd, a: Action, x: nat)
    requires Inv(c, d) && Allowed(d, a) && x in d.rqs
    ensures var e := Step(c, d, a);
            && x in e.rqs && e.rqs[x].dir == d.rqs[x].dir
            && |d.queue| <= |e.queue| && e.queue[..|d.queue|] == d.queue
  {
    hide Accounts, OneWay, Without, RbAdd, FifoMerged, ByPos, ByTime, Cursor, Latter, NoDup;
    Ready(c, d, a);
  }

  lemma {:induction false} InDirSplit(rqs: map<nat, Rq>, a: seq<nat>, b: seq<nat>, dir: Dir)
    ensures InDir(rqs, a + b, dir) == InDir(rqs, a, dir) + InDir(rqs, b, dir)
    decreases |b|
  {
    if b == [] {
      assert a + b == a;
    } else {
      assert (a + b)[..|a + b| - 1] == a + b[..|b| - 1];
      InDirSplit(rqs, a, b[..|b| - 1], dir);
    }
  }

  lemma {:induction false} InDirSame(rqs: map<nat, Rq>, rqs': map<nat, Rq>, s: seq<nat>, dir: Dir)
    requires forall x | x in s :: x in rqs && x in rqs' && rqs[x].dir == rqs'[x].dir
    ensures InDir(rqs, s, dir) == InDir(rqs', s, dir)
  {
    if s != [] {
      InDirSame(rqs, rqs', s[..|s| - 1], dir);
    }
  }

  /** A run keeps what was sent, and the directions of all requests. */
  lemma {:induction false} RunAppends(c: Tunables, d: Dd, acts: seq<Action>)
    requires Inv(c, d) && Legal(c, d, acts)
    ensures var e := After(c, d, acts);
            && |d.queue| <= |e.queue| && e.queue[..|d.queue|] == d.queue
            && forall x | x in d.rqs :: x in e.rqs && e.rqs[x].dir == d.rqs[x].dir
    decreases |acts|
  {
    hide Sides, Accounts, OneWay, Cursor, Step, Allowed;
    if acts != [] {
      StepInv(c, d, acts[0]);
      var e := Step(c, d, acts[0]);
      forall x | x in d.rqs
        ensures x in e.rqs && e.rqs[x].dir == d.rqs[x].dir
      {
        DirsStay(c, d, acts[0], x);
      }
      QueueGrows(c, d, acts[0]);
      RunAppends(c, e, acts[1..]);
      var f := After(c, e, acts[1..]);
      assert f.queue[..|d.queue|] == f.queue[..|e.queue|][..|d.queue|];
    }
  }

  lemma QueueGrows(c: Tunables, d: Dd, a: Action)
    requires Inv(c, d) && Allowed(d, a)
    ensures |d.queue| <= |Step(c, d, a).queue| && Step(c, d, a).queue[..|d.queue|] == d.queue
  {
    hide Accounts, OneWay, Without, RbAdd, FifoMerged, ByPos, ByTime, Cursor, Latter, NoDup;
    Ready(c, d, a);
  }

  lemma SentKnown(c: Tunables, d: Dd)
    requires Inv(c, d)
    ensures forall x | x in d.queue :: x in d.rqs
  {
  }

  lemma {:induction false} PassesSpend(c: Tunables, d: Dd, acts: seq<Action>, dir: Dir, y: nat)
    requires Inv(c, d) && Legal(c, d, acts) && Overdue(d, dir, y) && y in Of(After(c, d, acts), dir).fifo
    ensures var e := After(c, d, acts);
            |d.queue| <= |e.queue| && InDir(e.rqs, e.queue[|d.queue|..], dir) <= Before(c, d, dir)
    decreases |acts|
  {
    hide Sides, Accounts, OneWay, Cursor, Step, Allowed, Overdue, Before;
    if acts != [] {
      var a := acts[0];
      StepInv(c, d, a);
      var e := Step(c, d, a);
      var f := After(c, e, acts[1..]);
      StillThere(c, d, acts, dir, y);
      if a.Run? {
        RunPasses(c, d, a.now, dir, y);
      } else {
        OthersPass(c, d, a, dir, y);
        assert e.queue[|d.queue|..] == [];
      }
      PassesSpend(c, e, acts[1..], dir, y);
      RunAppends(c, e, acts[1..]);
      SentKnown(c, e);
      assert f.queue[|d.queue|..] == e.queue[|d.queue|..] + f.queue[|e.queue|..];
      InDirSplit(f.rqs, e.queue[|d.queue|..], f.queue[|e.queue|..], dir);
      InDirSame(e.rqs, f.rqs, e.queue[|d.queue|..], dir);
    }
  }

  lemma StillThere(c: Tunables, d: Dd, acts: seq<Action>, dir: Dir, y: nat)
    requires Inv(c, d) && Legal(c, d, acts) && acts != [] && Overdue(d, dir, y)
    requires y in Of(After(c, d, acts), dir).fifo
    ensures Allowed(d, acts[0]) && y in Of(Step(c, d, acts[0]), dir).fifo
  {
    hide Sides, Accounts, OneWay, Cursor, Step, Allowed;
    StepInv(c, d, acts[0]);
    DirsStay(c, d, acts[0], y);
    if y !in Of(Step(c, d, acts[0]), dir).fifo {
      GoneForGood(c, Step(c, d, acts[0]), acts[1..], dir, y);
    }
  }

  /** From any state a run can reach: once a request is the oldest of its direction and its time has passed, fewer than
      max(1, fifo_batch) others of that direction are sent before it. */
  lemma OverdueIsServed(c: Tunables, d: Dd, acts: seq<Action>, dir: Dir, y: nat)
    requires Inv(c, d) && Legal(c, d, acts) && Overdue(d, dir, y) && y in Of(After(c, d, acts), dir).fifo
    ensures var e := After(c, d, acts);
            && |d.queue| <= |e.queue|
            && InDir(e.rqs, e.queue[|d.queue|..], dir) < (if c.fifoBatch < 1 then 1 else c.fifoBatch)
  {
    hide Legal, After, Sides, Accounts, OneWay, Overdue;
    PassesSpend(c, d, acts, dir, y);
  }
}
