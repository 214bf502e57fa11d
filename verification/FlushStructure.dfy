/** Structure of the flush queues: every list agrees with the links kept in the requests, at most
    one flush is in flight, nothing stalls, and no BUG of block/blk-flush.c can be reached. */
module FlushStructure {
  import opened ListOps
  import opened FlushModel

  // ---------------------------------------------------------------------------------------
  // The invariant

  /** s lists, without repetition, the requests whose flush.list node is linked on it. */
  ghost predicate Holds(rqs: map<Id, Rq>, s: seq<Id>, link: Link) {
    NoDup(s) && forall id: Id :: id in s <==> id in rqs && rqs[id].link == link
  }

  ghost predicate Lists(q: Queue) {
    && Shape(q)
    && Holds(q.rqs, q.fq[0], Waiting(0)) && Holds(q.rqs, q.fq[1], Waiting(1)) && Holds(q.rqs, q.data, InData)
    && (forall id | id in q.rqs && q.rqs[id].link.Waiting? :: q.rqs[id].link.idx < 2)
  }

  /** The dispatch queue and the driver hold exactly the requests that say so. */
  ghost predicate Owned(rqs: map<Id, Rq>, head: seq<Entry>, driver: set<Entry>) {
    && NoDup(head)
    && (forall id: Id :: Cmd(id) in head <==> id in rqs && rqs[id].queued)
    && (forall id: Id :: Cmd(id) in driver <==> id in rqs && rqs[id].busy)
  }

  ghost predicate Heads(q: Queue) {
    Owned(q.rqs, q.head, q.driver)
  }

  /** A request under sequencing is where its current step says it is. */
  predicate Sequenced(r: Rq) {
    && r.flushSeq
    && (r.policy.pre || r.policy.post)
    && match CurSeq(r.mask)
       case Pre => r.policy.pre && r.link.Waiting? && !r.queued && !r.busy && r.mask == OtherActions(r.policy)
       case Data => r.policy.data && r.link == InData && (r.queued || r.busy)
                    && r.mask == Mask(true, false, !r.policy.post, false)
       case Post => r.policy.post && r.link.Waiting? && !r.queued && !r.busy && r.mask == Mask(true, true, false, false)
       case _ => false
  }

  predicate RqOk(r: Rq) {
    && !r.policy.done && (r.policy.post ==> r.policy.data)
    && !(r.queued && r.busy)
    && (if r.ended then r.link == Unlinked && !r.queued && !r.busy && !r.flushSeq && !r.hooked
        else if r.hooked then Sequenced(r)
        else !r.flushSeq && r.link == Unlinked && (r.queued || r.busy)
             && r.policy == Mask(false, true, false, false))
  }

  ghost predicate RqsOk(q: Queue) {
    forall id | id in q.rqs :: RqOk(q.rqs[id])
  }

  /** The indices differ exactly when the one flush request is in flight. */
  predicate Flight(q: Queue) {
    && !(FlushCmd in q.head && FlushCmd in q.driver)
    && (FlushCmd in q.head || FlushCmd in q.driver <==> q.pend != q.run)
    && (q.pend != q.run ==> q.issued > 0)
  }

  /** l is the flush queue that no flush in flight is working for. */
  predicate Spare(q: Queue, l: nat)
    requires Shape(q)
  {
    l < 2 && if q.pend != q.run then q.pend == l && q.fq[q.run] != [] else q.pend == 1 - l
  }

  predicate NoStall(q: Queue)
    requires Shape(q)
  {
    q.pend == q.run && q.data == [] ==> q.fq[q.pend] == []
  }

  ghost predicate Base(q: Queue, l: nat) {
    Shape(q) && Lists(q) && Heads(q) && RqsOk(q) && Flight(q) && Spare(q, l) && !q.bug
  }

  /** What holds between any two transitions. */
  ghost predicate Inv(q: Queue) {
    && Shape(q)
    && Base(q, if q.pend != q.run then q.pend else 1 - q.pend)
    && NoStall(q)
    && (q.pend == q.run ==> q.fq[1 - q.pend] == [])
  }

  // ---------------------------------------------------------------------------------------
  // Transitions keep it

  /** Relinking one request takes it off the list it was on and puts it at the end of the other. */
  lemma HoldsMoved(rqs: map<Id, Rq>, s: seq<Id>, link: Link, id: Id, to: Link)
    requires Holds(rqs, s, link) && id in rqs
    ensures var rest := if rqs[id].link == link then Without(s, id) else s;
            Holds(rqs[id := rqs[id].(link := to)], if to == link then rest + [id] else rest, link)
  {
    WithoutFacts(s, id);
  }

  lemma MoveLists(q: Queue, id: Id, to: Link)
    requires Lists(q) && id in q.rqs && (to.Waiting? ==> to.idx < 2)
    ensures Lists(Move(q, id, to))
  {
    HoldsMoved(q.rqs, q.fq[0], Waiting(0), id, to);
    HoldsMoved(q.rqs, q.fq[1], Waiting(1), id, to);
    HoldsMoved(q.rqs, q.data, InData, id, to);
  }

  lemma OwnedSame(rqs: map<Id, Rq>, id: Id, r: Rq, head: seq<Entry>, driver: set<Entry>)
    requires Owned(rqs, head, driver) && id in rqs && r.queued == rqs[id].queued && r.busy == rqs[id].busy
    ensures Owned(rqs[id := r], head, driver)
  {
  }

  lemma OwnedQueued(rqs: map<Id, Rq>, id: Id, r: Rq, head: seq<Entry>, driver: set<Entry>)
    requires Owned(rqs, head, driver) && id in rqs && !rqs[id].queued && r.queued && r.busy == rqs[id].busy
    ensures Owned(rqs[id := r], [Cmd(id)] + head, driver)
  {
  }

  lemma HoldsPut(rqs: map<Id, Rq>, s: seq<Id>, link: Link, id: Id, r: Rq)
    requires Holds(rqs, s, link) && id in rqs && rqs[id].link == r.link
    ensures Holds(rqs[id := r], s, link)
  {
  }

  lemma PutLists(q: Queue, id: Id, r: Rq)
    requires Lists(q) && id in q.rqs && q.rqs[id].link == r.link
    ensures Lists(Put(q, id, r))
  {
    HoldsPut(q.rqs, q.fq[0], Waiting(0), id, r);
    HoldsPut(q.rqs, q.fq[1], Waiting(1), id, r);
    HoldsPut(q.rqs, q.data, InData, id, r);
  }

  lemma MoveSpare(q: Queue, id: Id, to: Link, l: nat)
    requires Shape(q) && Spare(q, l) && id in q.rqs && (to.Waiting? ==> to.idx < 2)
    requires q.rqs[id].link == Waiting(1 - l) ==> q.pend == q.run
    ensures Spare(Move(q, id, to), l)
  {
  }

  lemma KickBase(q: Queue, l: nat, now: int, hz: nat)
    requires Base(q, l)
    ensures Base(Kick(q, now, hz), l) && NoStall(Kick(q, now, hz))
  {
  }

  /** The request's list entry is where it was before its step completed; everything else is in order. */
  ghost predicate Ready(q: Queue, id: Id, l: nat) {
    && Shape(q) && Lists(q) && Heads(q) && Flight(q) && Spare(q, l) && !q.bug
    && id in q.rqs && !q.rqs[id].queued && !q.rqs[id].busy && q.rqs[id].flushSeq && q.rqs[id].hooked
    && !q.rqs[id].ended
    && !q.rqs[id].policy.done && (q.rqs[id].policy.post ==> q.rqs[id].policy.data)
    && (q.rqs[id].policy.pre || q.rqs[id].policy.post)
    && (forall j | j in q.rqs && j != id :: RqOk(q.rqs[j]))
    && (q.rqs[id].link == Waiting(1 - l) ==> q.pend == q.run)
  }

  lemma SinceIsFree(q: Queue, since: int)
    requires Lists(q)
    ensures Lists(q.(since := since))
  {
  }

  lemma LogLists(q: Queue, e: Event)
    requires Lists(q)
    ensures Lists(Log(q, e))
  {
  }

  lemma MoveRqs(q: Queue, id: Id, to: Link)
    requires Shape(q) && id in q.rqs
    ensures var q' := Move(q, id, to);
            && q'.rqs == q.rqs[id := q.rqs[id].(link := to)] && q'.head == q.head && q'.driver == q.driver
            && q'.pend == q.pend && q'.run == q.run && q'.bug == q.bug && q'.issued == q.issued && q'.log == q.log
  {
  }

  /** What is left to show when a ready request has become r. */
  lemma ReadyBase(q: Queue, q': Queue, id: Id, r: Rq, l: nat)
    requires Ready(q, id, l) && q'.rqs == q.rqs[id := r] && RqOk(r)
    requires Lists(q') && Heads(q') && Spare(q', l) && !q'.bug
    requires (FlushCmd in q'.head <==> FlushCmd in q.head) && q'.driver == q.driver
    requires q'.pend == q.pend && q'.run == q.run && q'.issued == q.issued
    ensures Base(q', l)
  {
    hide Holds, Heads, RqOk, Spare;
  }

  lemma WaitBase(q: Queue, id: Id, l: nat, step: Step, now: int)
    requires Ready(q, id, l)
    requires step == CurSeq(q.rqs[id].mask)
    requires step == Pre ==> q.rqs[id].policy.pre && q.rqs[id].mask == OtherActions(q.rqs[id].policy)
    requires step == Post ==> q.rqs[id].policy.post && q.rqs[id].mask == Mask(true, true, false, false)
    requires step == Pre || step == Post
    ensures Base(Wait(q, id, step, now), l)
  {
    hide Holds, Owned, Move, RqOk, Lists, Base, Spare, Flight;
    var q1 := q.(since := if q.fq[q.pend] == [] then now else q.since);
    var q2 := Wait(q, id, step, now);
    MoveRqs(q1, id, Waiting(q.pend));
    SinceIsFree(q, q1.since);
    MoveLists(q1, id, Waiting(q.pend));
    LogLists(Move(q1, id, Waiting(q.pend)), Waits(id, step));
    assert q2.rqs == q.rqs[id := q.rqs[id].(link := Waiting(q.pend))];
    assert Heads(q2) by { OwnedSame(q.rqs, id, q2.rqs[id], q.head, q.driver); }
    SpareSame(q, q1, l);
    MoveSpare(q1, id, Waiting(q.pend), l);
    SpareSame(Move(q1, id, Waiting(q.pend)), q2, l);
    WaiterOk(q.rqs[id], step, q.pend);
    ReadyBase(q, q2, id, q2.rqs[id], l);
  }

  lemma SpareSame(q: Queue, q': Queue, l: nat)
    requires Shape(q) && Spare(q, l) && q'.fq == q.fq && q'.pend == q.pend && q'.run == q.run
    ensures Spare(q', l)
  {
  }

  lemma WaiterOk(r: Rq, step: Step, idx: nat)
    requires !r.queued && !r.busy && r.flushSeq && r.hooked && !r.ended && idx < 2
    requires !r.policy.done && (r.policy.post ==> r.policy.data) && (r.policy.pre || r.policy.post)
    requires step == CurSeq(r.mask)
    requires step == Pre ==> r.policy.pre && r.mask == OtherActions(r.policy)
    requires step == Post ==> r.policy.post && r.mask == Mask(true, true, false, false)
    requires step == Pre || step == Post
    ensures RqOk(r.(link := Waiting(idx)))
  {
  }

  lemma IssueBase(q: Queue, id: Id, l: nat)
    requires Ready(q, id, l)
    requires q.rqs[id].policy.data && q.rqs[id].mask == Mask(true, false, !q.rqs[id].policy.post, false)
    ensures Base(IssueData(q, id), l)
  {
    hide Holds, Owned, Move, Base, Spare, Flight;
    var q1 := Move(q, id, InData);
    var q2 := IssueData(q, id);
    MoveRqs(q, id, InData);
    assert q2.rqs == q.rqs[id := q2.rqs[id]];
    assert Lists(q2) by {
      MoveLists(q, id, InData);
      PutLists(q1, id, q1.rqs[id].(queued := true));
    }
    assert Heads(q2) by { OwnedQueued(q.rqs, id, q2.rqs[id], q.head, q.driver); }
    MoveSpare(q, id, InData, l);
    SpareSame(q1, q2, l);
    ReadyBase(q, q2, id, q2.rqs[id], l);
  }

  lemma FinishBase(q: Queue, id: Id, l: nat, error: bool)
    requires Ready(q, id, l)
    ensures Base(Finish(q, id, error), l)
  {
    var q1 := Move(q, id, Unlinked);
    var q2 := Finish(q, id, error);
    assert q2.rqs == q.rqs[id := q2.rqs[id]];
    assert Lists(q2) by {
      MoveLists(q, id, Unlinked);
      PutLists(q1, id, q2.rqs[id]);
    }
    assert Heads(q2) by { OwnedSame(q.rqs, id, q2.rqs[id], q.head, q.driver); }
    assert Spare(q2, l) by { MoveSpare(q, id, Unlinked, l); }
  }

  /** The masks blk_flush_complete_seq is called with: the skipped steps at insertion, and after
      that the step the request is at. */
  predicate Completes(r: Rq, done: Mask) {
    || (r.mask == Mask(false, false, false, false) && done == OtherActions(r.policy))
    || (r.policy.pre && r.mask == OtherActions(r.policy) && done == Only(Pre))
    || (r.policy.data && r.mask == Mask(true, false, !r.policy.post, false) && done == Only(Data))
    || (r.policy.post && r.mask == Mask(true, true, false, false) && done == Only(Post))
  }

  lemma PutReady(q: Queue, id: Id, done: Mask, l: nat)
    requires Ready(q, id, l)
    ensures Ready(Put(q, id, q.rqs[id].(mask := Or(q.rqs[id].mask, done))), id, l)
    ensures !q.rqs[id].policy.done && (q.rqs[id].policy.post ==> q.rqs[id].policy.data)
    ensures q.rqs[id].policy.pre || q.rqs[id].policy.post
  {
    var r := q.rqs[id].(mask := Or(q.rqs[id].mask, done));
    PutLists(q, id, r);
    OwnedSame(q.rqs, id, r, q.head, q.driver);
  }

  lemma NextBase(q: Queue, id: Id, done: Mask, error: bool, now: int, l: nat)
    requires Ready(q, id, l) && Completes(q.rqs[id], done)
    ensures Base(Next(q, id, done, error, now), l)
  {
    hide Lists, Heads, Base, Spare, Flight, RqOk, Wait, IssueData, Finish;
    var r := q.rqs[id].(mask := Or(q.rqs[id].mask, done));
    var q1 := Put(q, id, r);
    PutReady(q, id, done, l);
    match if error then Done else CurSeq(r.mask) {
      case Pre => WaitBase(q1, id, l, Pre, now);
      case Post => WaitBase(q1, id, l, Post, now);
      case Data => IssueBase(q1, id, l);
      case Done => FinishBase(q1, id, l, error);
    }
  }

  lemma CompleteBase(q: Queue, id: Id, done: Mask, error: bool, now: int, hz: nat, l: nat)
    requires Ready(q, id, l) && Completes(q.rqs[id], done)
    ensures Base(CompleteSeq(q, id, done, error, now, hz), l)
    ensures NoStall(CompleteSeq(q, id, done, error, now, hz))
  {
    hide Lists, Heads, Spare, Flight, RqOk, Next, Kick;
    NextBase(q, id, done, error, now, l);
    KickBase(Next(q, id, done, error, now), l, now, hz);
  }

  /** The request a flush has just covered is ready for blk_flush_complete_seq. */
  lemma WaiterReady(q: Queue, id: Id, l: nat)
    requires Base(q, l) && id in q.fq[l]
    ensures id in q.rqs && q.rqs[id].link == Waiting(l)
    ensures var step := CurSeq(q.rqs[id].mask);
            (step == Pre || step == Post)
            && Ready(Log(q, Advanced(id, step)), id, l) && Completes(q.rqs[id], Only(step))
  {
    assert RqOk(q.rqs[id]);
  }

  /** A waiting request that completes its step leaves its list, and puts nothing on it: a request
      that was past its data cannot wait again, and one with data goes to its data first. */
  lemma NextLeaves(q: Queue, id: Id, error: bool, now: int, l: nat)
    requires Shape(q) && l < 2 && id in q.rqs && q.rqs[id].link == Waiting(l) && !q.rqs[id].queued
    requires q.rqs[id].policy.post ==> q.rqs[id].policy.data
    requires var step := CurSeq(q.rqs[id].mask); Completes(q.rqs[id], Only(step)) && (step == Pre || step == Post)
    ensures Next(q, id, Only(CurSeq(q.rqs[id].mask)), error, now).fq == q.fq[l := Without(q.fq[l], id)]
  {
    hide Wait, IssueData, Finish, Without;
    var r := q.rqs[id];
    var q1 := Put(q, id, r.(mask := Or(r.mask, Only(CurSeq(r.mask)))));
    PastWaiting(r, CurSeq(r.mask));
    IssueLeaves(q1, id, l);
    FinishLeaves(q1, id, error, l);
  }

  /** After a flush there is data, or nothing. */
  lemma PastWaiting(r: Rq, step: Step)
    requires step == CurSeq(r.mask) && Completes(r, Only(step)) && (step == Pre || step == Post)
    requires r.policy.post ==> r.policy.data
    ensures !Overlap(r.mask, Only(step))
    ensures CurSeq(Or(r.mask, Only(step))) == Data || CurSeq(Or(r.mask, Only(step))) == Done
  {
  }

  lemma IssueLeaves(q: Queue, id: Id, l: nat)
    requires Shape(q) && l < 2 && id in q.rqs && q.rqs[id].link == Waiting(l)
    ensures IssueData(q, id).fq == q.fq[l := Without(q.fq[l], id)]
  {
    hide Without;
  }

  lemma FinishLeaves(q: Queue, id: Id, error: bool, l: nat)
    requires Shape(q) && l < 2 && id in q.rqs && q.rqs[id].link == Waiting(l) && !q.rqs[id].queued
    ensures Finish(q, id, error).fq == q.fq[l := Without(q.fq[l], id)]
  {
    hide Without;
  }

  /** One turn of the loop takes the first waiting request off the list being walked, and puts
      nothing back on it, whether or not it kicks a new flush. */
  lemma AdvanceBase(q: Queue, id: Id, error: bool, now: int, hz: nat, l: nat)
    requires Base(q, l) && q.fq[l] != [] && id == q.fq[l][0]
    ensures id in q.rqs
    ensures var q' := Advance(q, id, error, now, hz);
            Base(q', l) && NoStall(q') && q'.fq[l] == q.fq[l][1..]
  {
    WaiterReady(q, id, l);
    var step := CurSeq(q.rqs[id].mask);
    var q1 := Log(q, Advanced(id, step));
    AdvanceLists(q, id, error, now, l);
    CompleteBase(q1, id, Only(step), error, now, hz, l);
    hide Lists, Heads, Ready, Spare, Flight, RqOk, Next;
  }

  lemma AdvanceLists(q: Queue, id: Id, error: bool, now: int, l: nat)
    requires Base(q, l) && q.fq[l] != [] && id == q.fq[l][0]
    ensures id in q.rqs
    ensures var step := CurSeq(q.rqs[id].mask);
            Next(Log(q, Advanced(id, step)), id, Only(step), error, now).fq[l] == q.fq[l][1..]
  {
    hide Next;
    WaiterReady(q, id, l);
    NextLeaves(Log(q, Advanced(id, CurSeq(q.rqs[id].mask))), id, error, now, l);
    WithoutHead(q.fq[l], id);
  }

  lemma {:induction false} AdvanceAllBase(q: Queue, ids: seq<Id>, error: bool, now: int, hz: nat, l: nat)
    requires Base(q, l) && ids == q.fq[l] && (ids == [] ==> NoStall(q))
    ensures var q' := AdvanceAll(q, ids, error, now, hz); Base(q', l) && NoStall(q') && q'.fq[l] == []
    decreases |ids|
  {
    if ids != [] {
      AdvanceBase(q, ids[0], error, now, hz, l);
      AdvanceAllBase(Advance(q, ids[0], error, now, hz), ids[1..], error, now, hz, l);
    }
  }

  /** Nothing structural depends on the log, on the run requests or on the hold flag. */
  predicate SameStructure(q: Queue, q': Queue) {
    && q.rqs == q'.rqs && q.fq == q'.fq && q.pend == q'.pend && q.run == q'.run && q.data == q'.data
    && q.head == q'.head && q.driver == q'.driver && q.issued == q'.issued && q.bug == q'.bug
  }

  lemma BaseSame(q: Queue, q': Queue, l: nat)
    requires Base(q, l) && SameStructure(q, q')
    ensures Base(q', l)
  {
    hide Holds, Owned, RqOk;
  }

  lemma FlushDoneBase(q: Queue, error: bool)
    requires Inv(q) && FlushCmd in q.driver
    ensures q.pend != q.run && q.issued > 0 && q.fq[q.run] != []
    ensures Base(Log(q.(run := 1 - q.run, driver := q.driver - {FlushCmd}), FlushDone(q.issued - 1, error)), q.run)
  {
    hide Holds, RqOk;
  }

  lemma FlushEndInv(q: Queue, error: bool, now: int, hz: nat)
    requires Inv(q) && FlushCmd in q.driver
    ensures Inv(FlushEnd(q, error, now, hz))
  {
    hide Lists, Heads, RqsOk, Flight, AdvanceAll;
    FlushDoneBase(q, error);
    var q1 := Log(q.(run := 1 - q.run, driver := q.driver - {FlushCmd}), FlushDone(q.issued - 1, error));
    AdvanceAllBase(q1, q.fq[q.run], error, now, hz, q.run);
    BaseSame(AdvanceAll(q1, q.fq[q.run], error, now, hz), FlushEnd(q, error, now, hz), q.run);
  }

  lemma OwnedDone(rqs: map<Id, Rq>, id: Id, r: Rq, head: seq<Entry>, driver: set<Entry>)
    requires Owned(rqs, head, driver) && id in rqs && r.queued == rqs[id].queued && !r.busy
    ensures Owned(rqs[id := r], head, driver - {Cmd(id)})
  {
  }

  lemma DataDoneReady(q: Queue, id: Id, error: bool, l: nat)
    requires Base(q, l) && id in q.rqs && Cmd(id) in q.driver && q.rqs[id].hooked
    ensures q.rqs[id].flushSeq && !q.rqs[id].link.Waiting?
    ensures var q1 := Log(Put(q.(driver := q.driver - {Cmd(id)}), id, q.rqs[id].(busy := false)), DataDone(id, error));
            Ready(q1, id, l) && Completes(q1.rqs[id], Only(Data))
  {
    hide Holds;
    var r := q.rqs[id].(busy := false);
    assert RqOk(q.rqs[id]);
    PutLists(q.(driver := q.driver - {Cmd(id)}), id, r);
    OwnedDone(q.rqs, id, r, q.head, q.driver);
  }

  lemma PlainDoneBase(q: Queue, id: Id, error: bool, l: nat)
    requires Base(q, l) && id in q.rqs && Cmd(id) in q.driver && !q.rqs[id].hooked
    ensures !q.rqs[id].flushSeq
    ensures Base(Put(q.(driver := q.driver - {Cmd(id)}), id, q.rqs[id].(busy := false, ended := true)), l)
  {
    hide Holds;
    var r := q.rqs[id].(busy := false, ended := true);
    assert RqOk(q.rqs[id]);
    PutLists(q.(driver := q.driver - {Cmd(id)}), id, r);
    OwnedDone(q.rqs, id, r, q.head, q.driver);
  }

  lemma NextFq(q: Queue, id: Id, done: Mask, error: bool, now: int)
    requires Shape(q) && id in q.rqs && !q.rqs[id].link.Waiting?
    ensures var q' := Next(q, id, done, error, now);
            q'.pend == q.pend && q'.run == q.run
            && (q'.fq == q.fq || q'.fq == q.fq[q.pend := q.fq[q.pend] + [id]])
  {
    hide Wait, IssueData, Finish, CurSeq, Or, Overlap;
    var q1 := Put(q, id, q.rqs[id].(mask := Or(q.rqs[id].mask, done)));
    WaitFq(q1, id, Pre, now);
    WaitFq(q1, id, Post, now);
    IssueFq(q1, id);
    FinishFq(q1, id, error);
  }

  lemma WaitFq(q: Queue, id: Id, step: Step, now: int)
    requires Shape(q) && id in q.rqs && !q.rqs[id].link.Waiting?
    ensures var q' := Wait(q, id, step, now);
            q'.pend == q.pend && q'.run == q.run && q'.fq == q.fq[q.pend := q.fq[q.pend] + [id]]
  {
  }

  lemma IssueFq(q: Queue, id: Id)
    requires Shape(q) && id in q.rqs && !q.rqs[id].link.Waiting?
    ensures var q' := IssueData(q, id); q'.pend == q.pend && q'.run == q.run && q'.fq == q.fq
  {
  }

  lemma FinishFq(q: Queue, id: Id, error: bool)
    requires Shape(q) && id in q.rqs && !q.rqs[id].link.Waiting?
    ensures var q' := Finish(q, id, error); q'.pend == q.pend && q'.run == q.run && q'.fq == q.fq
  {
  }

  /** A request that does not come from a flush queue leaves the spare queue alone. */
  lemma CompleteSpare(q: Queue, id: Id, done: Mask, error: bool, now: int, hz: nat, l: nat)
    requires Shape(q) && id in q.rqs && !q.rqs[id].link.Waiting? && Spare(q, l)
    requires q.pend == q.run ==> q.fq[l] == []
    ensures var q' := CompleteSeq(q, id, done, error, now, hz); Shape(q') && (q'.pend == q'.run ==> q'.fq[l] == [])
  {
    hide Next;
    NextFq(q, id, done, error, now);
  }

  lemma DataEndInv(q: Queue, id: Id, error: bool, now: int, hz: nat)
    requires Inv(q) && id in q.rqs && Cmd(id) in q.driver
    ensures Inv(DataEnd(q, id, error, now, hz))
  {
    hide Lists, Heads, RqsOk, Flight, Ready, CompleteSeq;
    var l := if q.pend != q.run then q.pend else 1 - q.pend;
    if q.rqs[id].hooked {
      DataDoneReady(q, id, error, l);
      var q1 := Log(Put(q.(driver := q.driver - {Cmd(id)}), id, q.rqs[id].(busy := false)), DataDone(id, error));
      CompleteBase(q1, id, Only(Data), error, now, hz, l);
      CompleteSpare(q1, id, Only(Data), error, now, hz, l);
      BaseSame(CompleteSeq(q1, id, Only(Data), error, now, hz), DataEnd(q, id, error, now, hz), l);
    } else {
      PlainDoneBase(q, id, error, l);
      BaseSame(Put(q.(driver := q.driver - {Cmd(id)}), id, q.rqs[id].(busy := false, ended := true)),
               DataEnd(q, id, error, now, hz), l);
    }
  }

  lemma NewLists(q: Queue, id: Id, r: Rq)
    requires Lists(q) && Heads(q) && id !in q.rqs && r.link == Unlinked && !r.queued && !r.busy
    ensures Lists(Put(q, id, r)) && Heads(Put(q, id, r))
  {
  }

  lemma NewReady(q: Queue, id: Id, policy: Mask, l: nat)
    requires Base(q, l) && id !in q.rqs
    requires !policy.done && (policy.post ==> policy.data) && (policy.pre || policy.post)
    ensures Ready(Put(q, id, NewRq(policy, true)), id, l)
  {
    hide Holds, Owned;
    NewLists(q, id, NewRq(policy, true));
  }

  lemma NewPlainBase(q: Queue, id: Id, l: nat)
    requires Base(q, l) && id !in q.rqs
    ensures Base(Put(q.(head := q.head + [Cmd(id)]), id,
                     NewRq(Mask(false, true, false, false), false).(queued := true)), l)
  {
    hide RqOk, Holds, Owned;
    var r := NewRq(Mask(false, true, false, false), false).(queued := true);
    PlainRqOk();
    NewLists(q, id, r.(queued := false));
    SameLists(Put(q, id, r.(queued := false)), Put(q.(head := q.head + [Cmd(id)]), id, r));
    OwnedNew(q.rqs, q.head, q.driver, id, r);
    NewInHead(q.rqs, q.head, q.driver, id);
  }

  lemma NewInHead(rqs: map<Id, Rq>, head: seq<Entry>, driver: set<Entry>, id: Id)
    requires Owned(rqs, head, driver) && id !in rqs
    ensures FlushCmd in head + [Cmd(id)] <==> FlushCmd in head
  {
  }

  /** The lists depend only on the links. */
  lemma SameLists(q: Queue, q': Queue)
    requires Lists(q) && q'.fq == q.fq && q'.data == q.data && q'.pend == q.pend && q'.run == q.run
    requires q'.rqs.Keys == q.rqs.Keys && forall id | id in q.rqs :: q'.rqs[id].link == q.rqs[id].link
    ensures Lists(q')
  {
  }

  lemma OwnedNew(rqs: map<Id, Rq>, head: seq<Entry>, driver: set<Entry>, id: Id, r: Rq)
    requires Owned(rqs, head, driver) && id !in rqs && r.queued && !r.busy
    ensures Owned(rqs[id := r], head + [Cmd(id)], driver)
  {
  }

  lemma PlainRqOk()
    ensures RqOk(NewRq(Mask(false, true, false, false), false).(queued := true))
    ensures RqOk(NewRq(Mask(false, false, false, false), false).(ended := true))
  {
  }

  lemma NewEndedBase(q: Queue, id: Id, l: nat)
    requires Base(q, l) && id !in q.rqs
    ensures Base(Put(q, id, NewRq(Mask(false, false, false, false), false).(ended := true)), l)
  {
    hide Holds, Owned, RqOk;
    PlainRqOk();
    NewLists(q, id, NewRq(Mask(false, false, false, false), false).(ended := true));
  }

  lemma InsertInv(q: Queue, id: Id, policy: Mask, now: int, hz: nat)
    requires Inv(q) && id !in q.rqs
    requires !policy.done && (policy.post ==> policy.data)
    ensures Inv(Insert(q, id, policy, now, hz))
  {
    hide Lists, Heads, RqsOk, Flight, Ready, CompleteSeq;
    var l := if q.pend != q.run then q.pend else 1 - q.pend;
    var q' := Insert(q, id, policy, now, hz);
    if !policy.pre && !policy.data && !policy.post {
      NewEndedBase(q, id, l);
      BaseSame(Put(q, id, NewRq(policy, false).(ended := true)), q', l);
    } else if policy.data && !policy.pre && !policy.post {
      NewPlainBase(q, id, l);
      BaseSame(Put(q.(head := q.head + [Cmd(id)]), id, NewRq(policy, false).(queued := true)), q', l);
    } else {
      var q1 := Put(q.(log := q.log + [Submitted(id, policy)]), id, NewRq(policy, true));
      BaseSame(q, q.(log := q.log + [Submitted(id, policy)]), l);
      NewReady(q.(log := q.log + [Submitted(id, policy)]), id, policy, l);
      CompleteBase(q1, id, OtherActions(policy), false, now, hz, l);
      CompleteSpare(q1, id, OtherActions(policy), false, now, hz, l);
    }
  }

  lemma DispatchInv(q: Queue)
    requires Inv(q)
    ensures Inv(Dispatch(q))
  {
    if q.head != [] {
      match q.head[0] {
        case FlushCmd => DispatchFlush(q);
        case Cmd(id) => DispatchCmd(q, id);
      }
    }
    hide Lists, Heads, RqsOk, Flight;
  }

  lemma DispatchFlush(q: Queue)
    requires Inv(q) && q.head != [] && q.head[0] == FlushCmd
    ensures Inv(Dispatch(q))
  {
    hide Holds, RqOk;
    assert q.head == [FlushCmd] + q.head[1..];
  }

  lemma OwnedTaken(rqs: map<Id, Rq>, id: Id, head: seq<Entry>, driver: set<Entry>)
    requires Owned(rqs, head, driver) && head != [] && head[0] == Cmd(id)
    ensures id in rqs && rqs[id].queued
    ensures Owned(rqs[id := rqs[id].(queued := false, busy := true)], head[1..], driver + {Cmd(id)})
  {
    assert head == [Cmd(id)] + head[1..];
  }

  lemma DispatchCmd(q: Queue, id: Id)
    requires Inv(q) && q.head != [] && q.head[0] == Cmd(id)
    ensures Inv(Dispatch(q))
  {
    hide Holds, Owned;
    OwnedTaken(q.rqs, id, q.head, q.driver);
    assert RqOk(q.rqs[id]);
    PutLists(q.(head := q.head[1..], driver := q.driver + {Cmd(id)}), id, q.rqs[id].(queued := false, busy := true));
    assert q.head == [Cmd(id)] + q.head[1..];
  }

  lemma ActInv(q: Queue, a: Action, now: int, hz: nat)
    requires Inv(q) && Allowed(q, a)
    ensures Inv(Act(q, a, now, hz))
  {
    hide Inv, Insert, Dispatch, DataEnd, FlushEnd;
    match a {
      case Submit(id, sectors, flush, fua, devFlush, devFua) =>
        InsertInv(q, id, Policy(sectors, flush, fua, devFlush, devFua), now, hz);
      case Take => DispatchInv(q);
      case HoldQueue => HoldInv(q);
      case CompleteData(id, error) => DriverHolds(q, id); DataEndInv(q, id, error, now, hz);
      case CompleteFlush(error) => FlushEndInv(q, error, now, hz);
    }
  }

  lemma HoldInv(q: Queue)
    requires Inv(q)
    ensures Inv(Hold(q))
  {
    hide Holds, Owned, RqOk;
  }

  lemma DriverHolds(q: Queue, id: Id)
    requires Inv(q) && Cmd(id) in q.driver
    ensures id in q.rqs && q.rqs[id].busy
  {
  }

  lemma InitInv()
    ensures Inv(Init())
  {
  }

  /** Structure over every run: the flush indices differ exactly when the one flush request is on the
      dispatch queue or with the driver; when neither a flush nor a sequenced data write is in flight,
      nothing waits for a flush; and no BUG of the file is reached. */
  lemma {:induction false} RunInv(q: Queue, run: seq<Timed>, hz: nat)
    requires Inv(q) && Legal(q, run, hz)
    ensures Inv(After(q, run, hz))
    decreases |run|
  {
    hide Inv, Act;
    if run != [] {
      ActInv(q, run[0].action, run[0].now, hz);
      RunInv(Act(q, run[0].action, run[0].now, hz), run[1..], hz);
    }
  }

  /** Neither the flush request nor the data of a sequenced request is queued or with the driver. */
  ghost predicate Quiet(q: Queue) {
    && FlushCmd !in q.head && FlushCmd !in q.driver
    && forall id | id in q.rqs && q.rqs[id].hooked :: !q.rqs[id].queued && !q.rqs[id].busy
  }

  lemma SingleFlushNoStallNoBug(run: seq<Timed>, hz: nat)
    requires Legal(Init(), run, hz)
    ensures var q := After(Init(), run, hz);
            && !q.bug
            && Shape(q)
            && (q.pend != q.run <==> FlushCmd in q.head || FlushCmd in q.driver)
            && !(FlushCmd in q.head && FlushCmd in q.driver)
            && (forall i, j | 0 <= i < j < |q.head| :: q.head[i] != q.head[j])
            && (Quiet(q) ==> q.fq == [[], []] && forall id | id in q.rqs :: !q.rqs[id].hooked)
  {
    InitInv();
    RunInv(Init(), run, hz);
    hide After, Init;
    var q := After(Init(), run, hz);
    if Quiet(q) {
      QuietEmpty(q);
    }
  }

  lemma HeadIsMember<T>(s: seq<T>)
    ensures s != [] ==> s[0] in s
  {
  }

  lemma QuietEmpty(q: Queue)
    requires Inv(q) && Quiet(q)
    ensures q.fq == [[], []] && forall id | id in q.rqs :: !q.rqs[id].hooked
  {
    forall id | id in q.rqs
      ensures q.rqs[id].link != InData
    {
      assert RqOk(q.rqs[id]);
    }
    assert forall id :: id !in q.data;
    HeadIsMember(q.data);
    forall id | id in q.rqs
      ensures !q.rqs[id].hooked
    {
      assert RqOk(q.rqs[id]);
    }
  }
}
