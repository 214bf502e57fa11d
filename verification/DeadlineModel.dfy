/** block/deadline-iosched.c as a state machine: what each operation of the deadline scheduler does to the
    sector-sorted and the expiry-ordered view of its requests. */
module DeadlineModel {
  import opened Common
  import opened ListOps

  // ---------------------------------------------------------------------------------------
  // Requests and the scheduler's state

  datatype Dir = Read | Write

  /** What the scheduler uses of struct request; time is its expiry */
  datatype Rq = Rq(dir: Dir, pos: nat, sectors: nat, time: int)

  /** One direction: its sorted tree in order, its fifo, and next_rq */
  datatype Side = Side(sort: seq<nat>, fifo: seq<nat>, next: Option<nat>)

  /** The tunables; expiry times are relative */
  datatype Tunables = Tunables(readExpire: nat, writeExpire: nat, fifoBatch: nat, writesStarved: nat)

  /** struct deadline_data with the requests it has been given, the queue it dispatches to, and, of the
      requests that are gone, those absorbed by another; clock is the latest time it was called at */
  datatype Dd = Dd(rqs: map<nat, Rq>, read: Side, write: Side, batching: nat, starved: nat, lastSector: nat,
                   nrSorted: int, queue: seq<nat>, absorbed: seq<nat>, clock: int)

  function Of(d: Dd, dir: Dir): Side { if dir == Read then d.read else d.write }

  function With(d: Dd, dir: Dir, s: Side): Dd { if dir == Read then d.(read := s) else d.(write := s) }

  function Expire(c: Tunables, dir: Dir): nat { if dir == Read then c.readExpire else c.writeExpire }

  predicate Queued(d: Dd, x: nat) { x in d.rqs && x in Of(d, d.rqs[x].dir).sort }

  // ---------------------------------------------------------------------------------------
  // Sorting

  predicate Known(rqs: map<nat, Rq>, s: seq<nat>) { forall x | x in s :: x in rqs }

  /** Where elv_rb_add puts a position: after everything not beyond it */
  function Place(rqs: map<nat, Rq>, s: seq<nat>, pos: nat): (i: nat)
    requires Known(rqs, s)
    ensures i <= |s|
    ensures forall j | 0 <= j < i :: rqs[s[j]].pos <= pos
    ensures i < |s| ==> pos < rqs[s[i]].pos
  {
    if s == [] then 0
    else if pos < rqs[s[0]].pos then 0
    else
      assert forall x | x in s[1..] :: x in s;
      1 + Place(rqs, s[1..], pos)
  }

  function RbAdd(rqs: map<nat, Rq>, s: seq<nat>, x: nat): seq<nat>
    requires Known(rqs, s) && x in rqs
  {
    InsertAt(s, Place(rqs, s, rqs[x].pos), x)
  }

  ghost predicate ByPos(rqs: map<nat, Rq>, s: seq<nat>) {
    && Known(rqs, s)
    && forall i, j | 0 <= i < j < |s| :: rqs[s[i]].pos <= rqs[s[j]].pos
  }

  ghost predicate ByTime(rqs: map<nat, Rq>, s: seq<nat>) {
    && Known(rqs, s)
    && forall i, j | 0 <= i < j < |s| :: rqs[s[i]].time <= rqs[s[j]].time
  }

  // ---------------------------------------------------------------------------------------
  // The operations

  /** deadline_add_request */
  function Added(c: Tunables, d: Dd, x: nat, rq: Rq, now: int): Dd
    requires Known(d.rqs, Of(d, rq.dir).sort)
  {
    var s := Of(d, rq.dir);
    var rqs := d.rqs[x := rq.(time := now + Expire(c, rq.dir))];
    With(d.(rqs := rqs, nrSorted := d.nrSorted + 1, clock := now), rq.dir,
         s.(sort := RbAdd(rqs, s.sort, x), fifo := s.fifo + [x]))
  }

  /** deadline_remove_request */
  function Removed(s: Side, x: nat): Side
    requires x in s.sort && x in s.fifo
  {
    Side(Without(s.sort, x), Without(s.fifo, x), if s.next == Some(x) then Latter(s.sort, x) else s.next)
  }

  /** A bio is added at the end of request x. */
  function BackMerged(d: Dd, x: nat, sectors: nat): Dd
    requires Queued(d, x)
  {
    d.(rqs := d.rqs[x := d.rqs[x].(sectors := d.rqs[x].sectors + sectors)])
  }

  /** A bio is added in front of request x, and deadline_merged_request moves the request */
  function FrontMerged(d: Dd, x: nat, sectors: nat): Dd
    requires Queued(d, x) && sectors <= d.rqs[x].pos
    requires Known(d.rqs, Of(d, d.rqs[x].dir).sort)
  {
    var rq := d.rqs[x];
    var s := Of(d, rq.dir);
    var rqs := d.rqs[x := rq.(pos := rq.pos - sectors, sectors := rq.sectors + sectors)];
    assert forall y | y in Without(s.sort, x) :: y in s.sort;
    With(d.(rqs := rqs), rq.dir, s.(sort := RbAdd(rqs, Without(s.sort, x), x)))
  }

  /** list_move of x to behind y */
  function MovedBehind(s: seq<nat>, x: nat, y: nat): seq<nat>
    requires x in s && y in Without(s, x)
  {
    var t := Without(s, x);
    InsertAt(t, IndexOf(t, y) + 1, x)
  }

  /** deadline_merged_requests, for the fifo of one direction: the merged request keeps the earlier expiry */
  function FifoMerged(rqs: map<nat, Rq>, s: seq<nat>, x: nat, y: nat): seq<nat>
    requires x in s && y in s && x in rqs && y in rqs && x != y && NoDup(s)
  {
    WithoutMembers(s, x);
    if rqs[y].time < rqs[x].time then MovedBehind(s, x, y) else s
  }

  function Earlier(a: int, b: int): int { if b < a then b else a }

  /** Request y is absorbed by request x: deadline_merged_requests and elv_merge_requests */
  function RequestsMerged(d: Dd, x: nat, y: nat): Dd
    requires Queued(d, x) && Queued(d, y) && x != y && d.rqs[x].dir == d.rqs[y].dir
    requires NoDup(Of(d, d.rqs[x].dir).fifo)
    requires x in Of(d, d.rqs[x].dir).fifo && y in Of(d, d.rqs[x].dir).fifo
    requires y in FifoMerged(d.rqs, Of(d, d.rqs[x].dir).fifo, x, y)
  {
    var rx, ry := d.rqs[x], d.rqs[y];
    var s := Of(d, rx.dir);
    var moved := s.(fifo := FifoMerged(d.rqs, s.fifo, x, y));
    var rqs := d.rqs[x := rx.(sectors := rx.sectors + ry.sectors, time := Earlier(rx.time, ry.time))];
    With(d.(rqs := rqs, nrSorted := d.nrSorted - 1, absorbed := d.absorbed + [y]), rx.dir, Removed(moved, y))
  }

  /** deadline_move_request and elv_dispatch_add_tail */
  function Moved(d: Dd, x: nat): Dd
    requires Queued(d, x) && x in Of(d, d.rqs[x].dir).fifo
  {
    var rq := d.rqs[x];
    var s := Of(d, rq.dir);
    var t := Side(Without(s.sort, x), Without(s.fifo, x), Latter(s.sort, x));
    var e := d.(read := d.read.(next := None), write := d.write.(next := None));
    With(e, rq.dir, t).(lastSector := rq.pos + rq.sectors, nrSorted := d.nrSorted - 1, queue := d.queue + [x])
  }

  /** A batch goes on when there is a next request and the batch is not full. */
  predicate Batching(c: Tunables, d: Dd) {
    (d.write.next.Some? || d.read.next.Some?) && d.batching < c.fifoBatch
  }

  function BatchNext(d: Dd): nat
    requires d.write.next.Some? || d.read.next.Some?
  {
    if d.write.next.Some? then d.write.next.value else d.read.next.value
  }

  /** Writes go first when there are no reads, or when reads have been preferred often enough. */
  predicate WritesFirst(c: Tunables, d: Dd) {
    d.write.fifo != [] && (d.read.fifo == [] || d.starved >= c.writesStarved)
  }

  /** The direction of a new batch. */
  function NewDir(c: Tunables, d: Dd): Dir { if WritesFirst(c, d) then Write else Read }

  /** starved after a new batch has been chosen */
  function NewStarved(c: Tunables, d: Dd): nat {
    if WritesFirst(c, d) then 0 else if d.write.fifo != [] then d.starved + 1 else d.starved
  }

  /** The first request of a new batch: the oldest one if it has expired or there is no next in order. */
  function NewFirst(d: Dd, dir: Dir, now: int): nat
    requires Of(d, dir).fifo != [] && Known(d.rqs, Of(d, dir).fifo)
  {
    var s := Of(d, dir);
    if now > d.rqs[s.fifo[0]].time || s.next.None? then s.fifo[0] else s.next.value
  }

  /** The request that deadline_dispatch_requests picks, if any */
  function Pick(c: Tunables, d: Dd, now: int): Option<nat>
    requires Known(d.rqs, d.read.fifo) && Known(d.rqs, d.write.fifo)
  {
    if Batching(c, d) then Some(BatchNext(d))
    else if d.read.fifo == [] && d.write.fifo == [] then None
    else Some(NewFirst(d, NewDir(c, d), now))
  }

  /** deadline_dispatch_requests */
  function Dispatched(c: Tunables, d: Dd, now: int): Dd
    requires Known(d.rqs, d.read.fifo) && Known(d.rqs, d.write.fifo)
    requires Pick(c, d, now).Some? ==>
      var x := Pick(c, d, now).value; Queued(d, x) && x in Of(d, d.rqs[x].dir).fifo
  {
    var p := Pick(c, d, now);
    if p.None? then d.(clock := now)
    else if Batching(c, d) then Moved(d.(batching := d.batching + 1, clock := now), p.value)
    else Moved(d.(batching := 1, starved := NewStarved(c, d), clock := now), p.value)
  }
}
