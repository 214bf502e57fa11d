/** block/deadline-iosched.c: the scheduler itself, with the queue it dispatches to. Every method refines the
    state machine of DeadlineModel and keeps its invariant. */
module Deadline {
  import opened Common
  import opened ListOps
  import opened DeadlineModel
  import opened DeadlineStructure
  import opened DeadlineRuns

  class DeadlineData {
    const tunables: Tunables
    var rqs: map<nat, Rq>
    var read: Side
    var write: Side
    var batching: nat
    var starved: nat
    var lastSector: nat
    var nrSorted: int
    var queue: seq<nat>
    ghost var absorbed: seq<nat>
    ghost var clock: int

    ghost function View(): Dd
      reads this
    {
      Dd(rqs, read, write, batching, starved, lastSector, nrSorted, queue, absorbed, clock)
    }

    ghost predicate Valid()
      reads this
    {
      Inv(tunables, View())
    }

    /** deadline_init_queue */
    constructor (t: Tunables)
      ensures tunables == t && View() == Init() && Valid()
    {
      tunables := t;
      rqs, read, write := map[], Side([], [], None), Side([], [], None);
      batching, starved, lastSector, nrSorted := 0, 0, 0, 0;
      queue, absorbed, clock := [], [], 0;
      new;
      InitInv(t);
    }

    function SideOf(dir: Dir): Side
      reads this
    {
      if dir == Read then read else write
    }

    method SetSide(dir: Dir, s: Side)
      modifies this`read, this`write
      ensures View() == With(old(View()), dir, s)
    {
      if dir == Read {
        read := s;
      } else {
        write := s;
      }
    }

    /** deadline_add_request, with the count that __elv_add_request keeps */
    method AddRequest(x: nat, rq: Rq, now: int)
      requires Valid() && x !in rqs && now >= clock
      modifies this
      ensures Valid() && View() == Step(tunables, old(View()), Add(x, rq, now))
    {
      hide Sides, Accounts, OneWay, Cursor, RbAdd;
      ghost var d := View();
      StepInv(tunables, d, Add(x, rq, now));
      Ready(tunables, d, Run(clock));
      var expire := if rq.dir == Read then tunables.readExpire else tunables.writeExpire;
      rqs := rqs[x := rq.(time := now + expire)];
      nrSorted := nrSorted + 1;
      clock := now;
      var s := SideOf(rq.dir);
      SetSide(rq.dir, s.(sort := RbAdd(rqs, s.sort, x), fifo := s.fifo + [x]));
    }

    /** deadline_remove_request and deadline_del_rq_rb */
    method RemoveRequest(x: nat)
      requires x in rqs && x in SideOf(rqs[x].dir).sort && x in SideOf(rqs[x].dir).fifo
      modifies this`read, this`write
      ensures var dir := old(rqs[x].dir);
              View() == With(old(View()), dir, Removed(old(SideOf(dir)), x))
    {
      hide Without, Latter;
      var dir := rqs[x].dir;
      var s := SideOf(dir);
      var fifo := Without(s.fifo, x);
      var next := s.next;
      if next == Some(x) {
        next := Latter(s.sort, x);
      }
      SetSide(dir, Side(Without(s.sort, x), fifo, next));
    }

    /** A bio goes to the back of a request; the scheduler has nothing to move */
    method BackMerge(x: nat, sectors: nat)
      requires Valid() && Queued(View(), x)
      modifies this
      ensures Valid() && View() == Step(tunables, old(View()), Back(x, sectors))
    {
      hide Sides, Accounts, OneWay, Cursor;
      StepInv(tunables, View(), Back(x, sectors));
      rqs := rqs[x := rqs[x].(sectors := rqs[x].sectors + sectors)];
    }

    /** A bio goes to the front of a request, and deadline_merged_request repositions it */
    method FrontMerge(x: nat, sectors: nat)
      requires Valid() && Queued(View(), x) && sectors <= rqs[x].pos
      modifies this
      ensures Valid() && View() == Step(tunables, old(View()), Front(x, sectors))
    {
      hide Sides, Accounts, OneWay, Cursor, RbAdd, Without;
      ghost var d := View();
      StepInv(tunables, d, Front(x, sectors));
      FrontReady(tunables, d, x, sectors);
      var rq := rqs[x];
      rqs := rqs[x := rq.(pos := rq.pos - sectors, sectors := rq.sectors + sectors)];
      var s := SideOf(rq.dir);
      var rest := Without(s.sort, x);
      SetSide(rq.dir, s.(sort := RbAdd(rqs, rest, x)));
    }

    /** deadline_merged_requests, with the length attempt_merge adds and the count elv_merge_requests keeps */
    method MergedRequests(req: nat, next: nat)
      requires Valid() && Queued(View(), req) && Queued(View(), next) && req != next
      requires rqs[req].dir == rqs[next].dir
      modifies this
      ensures Valid() && View() == Step(tunables, old(View()), Merge(req, next))
    {
      hide Sides, Accounts, OneWay, Cursor, Without, Removed, MovedBehind;
      ghost var d := View();
      StepInv(tunables, d, Merge(req, next));
      MergeReady(tunables, d, req, next);
      var rq := rqs[req];
      rq := rq.(sectors := rq.sectors + rqs[next].sectors);
      if rqs[next].time < rq.time {
        var s := SideOf(rq.dir);
        SetSide(rq.dir, s.(fifo := MovedBehind(s.fifo, req, next)));
        rq := rq.(time := rqs[next].time);
      }
      rqs := rqs[req := rq];
      RemoveRequest(next);
      absorbed := absorbed + [next];
      nrSorted := nrSorted - 1;
    }

    /** deadline_move_to_dispatch and elv_dispatch_add_tail */
    method MoveToDispatch(x: nat)
      requires x in rqs && x in SideOf(rqs[x].dir).sort && x in SideOf(rqs[x].dir).fifo
      modifies this`read, this`write, this`nrSorted, this`queue
      ensures var dir := old(rqs[x].dir);
              View() == With(old(View()), dir, Removed(old(SideOf(dir)), x))
                        .(nrSorted := old(nrSorted) - 1, queue := old(queue) + [x])
    {
      hide Removed;
      RemoveRequest(x);
      nrSorted := nrSorted - 1;
      queue := queue + [x];
    }

    /** deadline_move_request */
    method MoveRequest(x: nat)
      requires Queued(View(), x) && x in SideOf(rqs[x].dir).fifo && NoDup(SideOf(rqs[x].dir).sort)
      modifies this
      ensures View() == Moved(old(View()), x)
    {
      hide Without, Latter, NoDup;
      var dir := rqs[x].dir;
      var latter := Latter(SideOf(dir).sort, x);
      LatterStays(SideOf(dir).sort, x);
      read, write := read.(next := None), write.(next := None);
      SetSide(dir, SideOf(dir).(next := latter));
      lastSector := rqs[x].pos + rqs[x].sectors;
      MoveToDispatch(x);
    }

    /** deadline_check_fifo */
    method CheckFifo(dir: Dir, now: int) returns (expired: bool)
      requires SideOf(dir).fifo != [] && SideOf(dir).fifo[0] in rqs
      ensures expired <==> now > rqs[SideOf(dir).fifo[0]].time
    {
      var x := SideOf(dir).fifo[0];
      expired := now > rqs[x].time;
    }

    /** The choice of direction in deadline_dispatch_requests */
    method ChooseDir() returns (dir: Option<Dir>)
      requires starved <= tunables.writesStarved
      modifies this`starved
      ensures dir == if old(read.fifo) == [] && old(write.fifo) == [] then None else Some(NewDir(tunables, old(View())))
      ensures starved == if dir.None? then old(starved) else NewStarved(tunables, old(View()))
    {
      var anyReads := read.fifo != [];
      var anyWrites := write.fifo != [];
      if anyReads {
        var wasStarved := starved;
        if anyWrites {
          starved := starved + 1;
        }
        if !(anyWrites && wasStarved >= tunables.writesStarved) {
          return Some(Read);
        }
      }
      if anyWrites {
        starved := 0;
        return Some(Write);
      }
      return None;
    }

    /** dispatch_find_request: where a new batch starts */
    method FindRequest(dir: Dir, now: int) returns (first: nat)
      requires SideOf(dir).fifo != [] && Known(rqs, SideOf(dir).fifo)
      ensures first == NewFirst(View(), dir, now)
    {
      var expired := CheckFifo(dir, now);
      if expired || SideOf(dir).next.None? {
        first := SideOf(dir).fifo[0];
      } else {
        first := SideOf(dir).next.value;
      }
    }

    /** deadline_dispatch_requests */
    method DispatchRequests(now: int) returns (some: bool)
      requires Valid() && now >= clock
      modifies this
      ensures Valid() && View() == Step(tunables, old(View()), Run(now))
      ensures some <==> old(read.fifo) != [] || old(write.fifo) != []
      ensures some ==> nrSorted == old(nrSorted) - 1
      ensures !some ==> View() == old(View()).(clock := now) && nrSorted == 0
    {
      hide Sides, Accounts, OneWay, Without, Latter, NoDup, NewFirst, NewDir, NewStarved;
      ghost var d := View();
      StepInv(tunables, d, Run(now));
      Ready(tunables, d, Run(now));
      FifosAndTrees(tunables, d);
      var rq := if write.next.Some? then write.next else read.next;
      if rq.Some? && batching < tunables.fifoBatch {
        NextIsQueued(tunables, d);
        batching, clock := batching + 1, now;
        MoveRequest(rq.value);
        return true;
      }
      var dir := ChooseDir();
      if dir.None? {
        clock := now;
        return false;
      }
      ChosenHasSome(tunables, d);
      var first := FindRequest(dir.value, now);
      SameFirst(d, View(), dir.value, now);
      batching, clock := 1, now;
      MoveRequest(first);
      return true;
    }

    /** elv_rb_find: a request of the direction at the sector is found exactly when there is one */
    method RbFind(dir: Dir, sector: nat) returns (found: Option<nat>)
      requires Valid()
      ensures found.Some? ==> found.value in SideOf(dir).sort && rqs[found.value].pos == sector
      ensures found.None? ==> forall x | x in SideOf(dir).sort :: x in rqs && rqs[x].pos != sector
    {
      hide Sides, OneWay, Cursor, Accounts, ByPos;
      SortedView(tunables, View(), dir);
      found := FindAt(rqs, SideOf(dir).sort, sector);
    }

    /** deadline_merge: a request that starts where the bio ends, if front merges are wanted and it may be merged */
    method FindFrontMerge(dir: Dir, sector: nat, sectors: nat, frontMerges: bool, mergeOk: nat -> bool)
      returns (found: Option<nat>)
      requires Valid()
      ensures found.Some? ==> frontMerges && found.value in SideOf(dir).sort && mergeOk(found.value)
                              && rqs[found.value].pos == sector + sectors
      ensures found.None? && frontMerges && (exists x :: x in SideOf(dir).sort && rqs[x].pos == sector + sectors) ==>
                exists x :: x in SideOf(dir).sort && rqs[x].pos == sector + sectors && !mergeOk(x)
    {
      if frontMerges {
        var rq := RbFind(dir, sector + sectors);
        if rq.Some? && mergeOk(rq.value) {
          return rq;
        }
      }
      return None;
    }

    /** elv_drain_elevator: it ends, and everything queued has been dispatched */
    method DrainElevator(now: int)
      requires Valid() && now >= clock
      modifies this
      ensures Valid() && nrSorted == 0 && read.sort == [] && write.sort == [] && read.fifo == [] && write.fifo == []
      ensures rqs == old(rqs) && absorbed == old(absorbed) && old(queue) <= queue
      ensures forall x | x in old(read.sort) || x in old(write.sort) :: x in queue
    {
      hide Sides, Accounts, OneWay, Cursor, Step;
      ghost var d := View();
      var more := true;
      while more
        invariant Valid() && now >= clock && rqs == d.rqs && absorbed == d.absorbed && d.queue <= queue
        invariant !more ==> nrSorted == 0
        decreases more, nrSorted
      {
        ghost var before := View();
        CountIsNat(before);
        more := DispatchRequests(now);
        DispatchGrows(tunables, before, now);
      }
      Drained(tunables, d, View());
    }
  }

  /** The walk of elv_rb_find: left or right at every node, here by halves of the sorted view */
  method FindAt(rqs: map<nat, Rq>, s: seq<nat>, sector: nat) returns (found: Option<nat>)
    requires ByPos(rqs, s)
    ensures found.Some? ==> found.value in s && rqs[found.value].pos == sector
    ensures found.None? ==> forall x | x in s :: x in rqs && rqs[x].pos != sector
  {
    var lo, hi := 0, |s|;
    while lo < hi
      invariant 0 <= lo <= hi <= |s|
      invariant forall i | 0 <= i < lo :: rqs[s[i]].pos < sector
      invariant forall i | hi <= i < |s| :: sector < rqs[s[i]].pos
    {
      var mid := (lo + hi) / 2;
      if sector < rqs[s[mid]].pos {
        hi := mid;
      } else if sector > rqs[s[mid]].pos {
        lo := mid + 1;
      } else {
        return Some(s[mid]);
      }
    }
    return None;
  }

  lemma SortedView(c: Tunables, d: Dd, dir: Dir)
    requires Inv(c, d)
    ensures ByPos(d.rqs, Of(d, dir).sort)
  {
  }

  lemma FrontReady(c: Tunables, d: Dd, x: nat, n: nat)
    requires Inv(c, d) && Queued(d, x) && n <= d.rqs[x].pos
    ensures var r := d.rqs[x].(pos := d.rqs[x].pos - n, sectors := d.rqs[x].sectors + n);
            Known(d.rqs[x := r], Without(Of(d, r.dir).sort, x))
  {
    var r := d.rqs[x].(pos := d.rqs[x].pos - n, sectors := d.rqs[x].sectors + n);
    hide RbAdd, Without;
    SideFront(d.rqs, Of(d, r.dir), r.dir, d.clock + Expire(c, r.dir), x, r);
  }

  lemma MergeReady(c: Tunables, d: Dd, x: nat, y: nat)
    requires Inv(c, d) && Allowed(d, Merge(x, y))
    ensures var s := Of(d, d.rqs[x].dir);
            && x in s.fifo && y in s.fifo && NoDup(s.fifo) && y in Without(s.fifo, x)
            && x in MovedBehind(s.fifo, x, y) && y in MovedBehind(s.fifo, x, y)
  {
    hide Without, MovedBehind;
    MovedMembers(Of(d, d.rqs[x].dir).fifo, x, y);
  }

  /** A direction has requests in its tree exactly when it has some in its fifo. */
  lemma FifosAndTrees(c: Tunables, d: Dd)
    requires Inv(c, d)
    ensures NoDup(d.read.sort) && NoDup(d.write.sort)
    ensures d.read.sort == [] <==> d.read.fifo == []
    ensures d.write.sort == [] <==> d.write.fifo == []
    ensures d.nrSorted == |d.read.sort| + |d.write.sort|
  {
    SameEmpty(d.read.sort, d.read.fifo);
    SameEmpty(d.write.sort, d.write.fifo);
  }

  lemma SameEmpty(s: seq<nat>, t: seq<nat>)
    requires forall x :: x in s <==> x in t
    ensures s == [] <==> t == []
  {
    if s != [] {
      assert s[0] in t;
    }
    if t != [] {
      assert t[0] in s;
    }
  }

  lemma ChosenHasSome(c: Tunables, d: Dd)
    requires d.read.fifo != [] || d.write.fifo != []
    ensures Of(d, NewDir(c, d)).fifo != []
  {
  }

  lemma SameFirst(d: Dd, e: Dd, dir: Dir, now: int)
    requires d.rqs == e.rqs && d.read == e.read && d.write == e.write
    requires Of(d, dir).fifo != [] && Known(d.rqs, Of(d, dir).fifo)
    ensures NewFirst(d, dir, now) == NewFirst(e, dir, now)
  {
  }

  lemma NextIsQueued(c: Tunables, d: Dd)
    requires Inv(c, d)
    ensures d.read.next.Some? || d.write.next.Some? ==> Queued(d, BatchNext(d))
  {
  }

  lemma CountIsNat(d: Dd)
    requires Accounts(d)
    ensures d.nrSorted >= 0
  {
  }

  lemma DispatchGrows(c: Tunables, d: Dd, now: int)
    requires Inv(c, d) && Allowed(d, Run(now))
    ensures var e := Step(c, d, Run(now));
            e.rqs == d.rqs && e.absorbed == d.absorbed && d.queue <= e.queue && e.clock == now
  {
    hide Sides, Accounts, OneWay, Cursor, Without, Latter, Pick;
  }

  lemma Drained(c: Tunables, d: Dd, e: Dd)
    requires Inv(c, d) && Inv(c, e) && e.nrSorted == 0 && e.rqs == d.rqs && e.absorbed == d.absorbed
    ensures e.read.sort == [] && e.write.sort == [] && e.read.fifo == [] && e.write.fifo == []
    ensures forall x | x in d.read.sort || x in d.write.sort :: x in e.queue
  {
    hide ByPos, ByTime, NoDup;
    FifosAndTrees(c, e);
    forall x | x in d.read.sort || x in d.write.sort
      ensures x in e.queue
    {
      assert x in d.rqs && x !in d.absorbed;
    }
  }
}
