/** What one request lives through: in every run, exactly the steps of its policy, in the order
    PREFLUSH, DATA, POSTFLUSH, each once, and then the end of its bio, once. */
module FlushOrder {
  import opened ListOps
  import opened FlushModel
  import opened FlushStructure

  predicate Mentions(e: Event, id: Id) {
    match e
    case FlushIssued(_) => false
    case FlushDone(_, _) => false
    case _ => e.id == id
  }

  /** The events of one request. */
  function Proj(log: seq<Event>, id: Id): seq<Event> {
    if log == [] then []
    else Proj(log[..|log| - 1], id) + if Mentions(log[|log| - 1], id) then [log[|log| - 1]] else []
  }

  lemma ProjLog(log: seq<Event>, e: Event, id: Id)
    ensures Proj(log + [e], id) == Proj(log, id) + if Mentions(e, id) then [e] else []
  {
    assert (log + [e])[..|log|] == log;
  }

  predicate Has(policy: Mask, step: Step) {
    match step
    case Pre => policy.pre
    case Data => policy.data
    case Post => policy.post
    case _ => false
  }

  function Rank(step: Step): nat {
    match step
    case Pre => 0
    case Data => 1
    case Post => 2
    case _ => 3
  }

  /** What a request has behind it when it comes to a step, if nothing failed. */
  function Behind(id: Id, policy: Mask, step: Step): seq<Event> {
    [Submitted(id, policy)]
    + (if policy.pre && Rank(step) > 0 then [Waits(id, Pre), Advanced(id, Pre)] else [])
    + (if policy.data && Rank(step) > 1 then [DataIssued(id), DataDone(id, false)] else [])
    + (if policy.post && Rank(step) > 2 then [Waits(id, Post), Advanced(id, Post)] else [])
  }

  /** How a request arrives at a step. */
  function Arrival(id: Id, step: Step, error: bool): Event {
    match step
    case Pre => Waits(id, Pre)
    case Data => DataIssued(id)
    case Post => Waits(id, Post)
    case _ => BioEnded(id, error)
  }

  function AtStep(id: Id, policy: Mask, step: Step): seq<Event> {
    Behind(id, policy, step) + [Arrival(id, step, false)]
  }

  /** How a step that fails ends. */
  function Failure(id: Id, step: Step): Event {
    if step == Data then DataDone(id, true) else Advanced(id, step)
  }

  /** A request cut short by an error in the given step. */
  function CutShort(id: Id, policy: Mask, step: Step): seq<Event> {
    AtStep(id, policy, step) + [Failure(id, step), BioEnded(id, true)]
  }

  /** The step a request is at: a plain data request is not sequenced. */
  function StepOf(r: Rq): Step {
    if r.ended then Done else if r.hooked then CurSeq(r.mask) else Data
  }

  ghost predicate History(id: Id, r: Rq, h: seq<Event>) {
    if !r.ended then h == AtStep(id, r.policy, StepOf(r))
    else h == AtStep(id, r.policy, Done) || exists step :: Has(r.policy, step) && h == CutShort(id, r.policy, step)
  }

  ghost predicate Ordered(q: Queue) {
    && (forall id | id in q.rqs :: History(id, q.rqs[id], Proj(q.log, id)))
    && (forall id: Id | id !in q.rqs :: Proj(q.log, id) == [])
  }

  // ---------------------------------------------------------------------------------------
  // Effects of the transitions on one request and on the log

  function Target(r: Rq, done: Mask, error: bool): Step {
    if error then Done else CurSeq(Or(r.mask, done))
  }

  /** A request as blk_flush_complete_seq finds it. */
  predicate Completing(r: Rq, done: Mask) {
    Completes(r, done) && !r.queued && r.flushSeq && r.hooked && !r.ended && (r.policy.post ==> r.policy.data)
    && (r.policy.pre || r.policy.post)
  }

  /** The request after blk_flush_complete_seq. */
  predicate Completed(r: Rq, done: Mask, error: bool, r': Rq) {
    r'.policy == r.policy
    && if Target(r, done, error) == Done then r'.ended
       else !r'.ended && r'.hooked && r'.mask == Or(r.mask, done)
  }

  /** q' is q after one more event of a request, which became r. */
  predicate Stepped(q: Queue, q': Queue, id: Id, r: Rq, e: Event) {
    q'.log == q.log + [e] && q'.rqs == q.rqs[id := r] && q'.issued == q.issued && q'.bug == q.bug
  }

  lemma WaitEffect(q: Queue, id: Id, step: Step, now: int)
    requires Shape(q) && id in q.rqs
    ensures Stepped(q, Wait(q, id, step, now), id, q.rqs[id].(link := Waiting(q.pend)), Waits(id, step))
  {
    hide Move;
    MoveRqs(q.(since := if q.fq[q.pend] == [] then now else q.since), id, Waiting(q.pend));
  }

  lemma IssueEffect(q: Queue, id: Id)
    requires Shape(q) && id in q.rqs
    ensures Stepped(q, IssueData(q, id), id, q.rqs[id].(link := InData, queued := true), DataIssued(id))
  {
    hide Move;
    MoveRqs(q, id, InData);
  }

  lemma FinishEffect(q: Queue, id: Id, error: bool)
    requires Shape(q) && id in q.rqs && !q.rqs[id].queued
    ensures Stepped(q, Finish(q, id, error), id,
                    q.rqs[id].(link := Unlinked, flushSeq := false, hooked := false, ended := true),
                    BioEnded(id, error))
  {
    hide Move;
    MoveRqs(q, id, Unlinked);
  }

  lemma TargetFacts(r: Rq, done: Mask, error: bool)
    requires Completing(r, done)
    ensures !Overlap(r.mask, done) && Target(r, done, error) != Beyond
  {
  }

  lemma NextEffect(q: Queue, id: Id, done: Mask, error: bool, now: int)
    requires Shape(q) && id in q.rqs && Completing(q.rqs[id], done)
    ensures var q' := Next(q, id, done, error, now);
            && id in q'.rqs
            && Stepped(q, q', id, q'.rqs[id], Arrival(id, Target(q.rqs[id], done, error), error))
            && Completed(q.rqs[id], done, error, q'.rqs[id])
  {
    hide Wait, IssueData, Finish, CurSeq, Completes, Or, Overlap;
    TargetFacts(q.rqs[id], done, error);
    var q1 := Put(q, id, q.rqs[id].(mask := Or(q.rqs[id].mask, done)));
    match Target(q.rqs[id], done, error) {
      case Pre => WaitEffect(q1, id, Pre, now);
      case Post => WaitEffect(q1, id, Post, now);
      case Data => IssueEffect(q1, id);
      case Done => FinishEffect(q1, id, error);
    }
  }

  /** blk_flush_complete_seq logs the arrival at the next step, and then possibly the issue of a flush. */
  lemma CompleteEffect(q: Queue, id: Id, done: Mask, error: bool, now: int, hz: nat)
    requires Shape(q) && id in q.rqs && Completing(q.rqs[id], done) && !q.bug
    ensures var q' := CompleteSeq(q, id, done, error, now, hz);
            var arrival := Arrival(id, Target(q.rqs[id], done, error), error);
            && id in q'.rqs && q'.rqs == q.rqs[id := q'.rqs[id]]
            && Completed(q.rqs[id], done, error, q'.rqs[id])
            && (q'.log == q.log + [arrival] || q'.log == q.log + [arrival] + [FlushIssued(q.issued)])
  {
    hide Next;
    NextEffect(q, id, done, error, now);
  }

  // ---------------------------------------------------------------------------------------
  // The order is kept

  /** Only the events of the request that moved matter. */
  lemma OrderedAfter(q: Queue, q': Queue, id: Id, r: Rq)
    requires Ordered(q) && q'.rqs == q.rqs[id := r]
    requires forall j: Id | j != id :: Proj(q'.log, j) == Proj(q.log, j)
    requires History(id, r, Proj(q'.log, id))
    ensures Ordered(q')
  {
    hide History, Proj;
  }

  /** A request whose current step has been closed moves on to the next one its policy has, or ends. */
  lemma HistoryNext(id: Id, r: Rq, error: bool, r': Rq, h: seq<Event>)
    requires Completing(r, Only(CurSeq(r.mask))) && Has(r.policy, CurSeq(r.mask))
    requires Completed(r, Only(CurSeq(r.mask)), error, r')
    requires h == AtStep(id, r.policy, CurSeq(r.mask)) + [Closing(id, CurSeq(r.mask), error)]
    ensures History(id, r', h + [Arrival(id, Target(r, Only(CurSeq(r.mask)), error), error)])
  {
    var step := CurSeq(r.mask);
    if error {
      assert h + [BioEnded(id, true)] == CutShort(id, r.policy, step);
    }
  }

  /** A request that is inserted comes to the first step its policy has. */
  lemma HistoryFirst(id: Id, policy: Mask, r': Rq)
    requires Completing(NewRq(policy, true), OtherActions(policy))
    requires Completed(NewRq(policy, true), OtherActions(policy), false, r')
    ensures History(id, r', [Submitted(id, policy)]
                            + [Arrival(id, Target(NewRq(policy, true), OtherActions(policy), false), false)])
  {
  }

  /** The event that closes the step a request is at. */
  function Closing(id: Id, step: Step, error: bool): Event {
    if step == Data then DataDone(id, error) else Advanced(id, step)
  }

  /** Completing a step after its closing event has been logged keeps the order. */
  lemma CompleteOrdered(q: Queue, e: Event, id: Id, done: Mask, error: bool, now: int, hz: nat)
    requires Ordered(q) && Shape(q) && id in q.rqs && Completing(q.rqs[id], done) && !q.bug
    requires done == Only(CurSeq(q.rqs[id].mask)) && Has(q.rqs[id].policy, CurSeq(q.rqs[id].mask))
    requires Proj(q.log, id) == AtStep(id, q.rqs[id].policy, CurSeq(q.rqs[id].mask))
    requires e == Closing(id, CurSeq(q.rqs[id].mask), error)
    ensures Ordered(CompleteSeq(Log(q, e), id, done, error, now, hz))
  {
    var r := q.rqs[id];
    var q1 := Log(q, e);
    var q' := CompleteSeq(q1, id, done, error, now, hz);
    var arrival := Arrival(id, Target(r, done, error), error);
    CompleteEffect(q1, id, done, error, now, hz);
    hide CompleteSeq, History, Proj, AtStep, Ordered;
    HistoryNext(id, r, error, q'.rqs[id], Proj(q.log, id) + [e]);
    ProjComplete(q.log, e, arrival, FlushIssued(q.issued), id);
    OrderedAfter(q, q', id, q'.rqs[id]);
  }

  lemma ProjComplete(log: seq<Event>, e: Event, arrival: Event, issue: Event, id: Id)
    requires Mentions(e, id) && Mentions(arrival, id) && issue.FlushIssued?
    ensures Proj(log + [e] + [arrival], id) == Proj(log, id) + [e] + [arrival]
    ensures Proj(log + [e] + [arrival] + [issue], id) == Proj(log, id) + [e] + [arrival]
    ensures forall j: Id | j != id :: Proj(log + [e] + [arrival], j) == Proj(log, j)
                                      && Proj(log + [e] + [arrival] + [issue], j) == Proj(log, j)
  {
    hide Proj;
    forall j: Id
      ensures Proj(log + [e] + [arrival] + [issue], j) == Proj(log + [e] + [arrival], j)
      ensures Proj(log + [e] + [arrival], j) == Proj(log, j) + if j == id then [e] + [arrival] else []
    {
      ProjLog(log, e, j);
      ProjLog(log + [e], arrival, j);
      ProjLog(log + [e] + [arrival], issue, j);
    }
  }

  lemma WaiterCompleting(q: Queue, id: Id, l: nat)
    requires Base(q, l) && id in q.fq[l]
    ensures id in q.rqs
    ensures var step := CurSeq(q.rqs[id].mask);
            (step == Pre || step == Post) && Completing(q.rqs[id], Only(step)) && Has(q.rqs[id].policy, step)
            && !q.rqs[id].ended && q.rqs[id].hooked
  {
    assert RqOk(q.rqs[id]);
  }

  lemma AdvanceOrdered(q: Queue, id: Id, error: bool, now: int, hz: nat, l: nat)
    requires Base(q, l) && Ordered(q) && id in q.fq[l]
    ensures id in q.rqs && Ordered(Advance(q, id, error, now, hz))
  {
    hide Lists, Heads, RqsOk, Flight, Spare, CompleteSeq, Completing, AtStep, Proj;
    WaiterCompleting(q, id, l);
    var step := CurSeq(q.rqs[id].mask);
    assert History(id, q.rqs[id], Proj(q.log, id));
    CompleteOrdered(q, Advanced(id, step), id, Only(step), error, now, hz);
  }

  lemma {:induction false} AdvanceAllOrdered(q: Queue, ids: seq<Id>, error: bool, now: int, hz: nat, l: nat)
    requires Base(q, l) && ids == q.fq[l] && Ordered(q)
    ensures Ordered(AdvanceAll(q, ids, error, now, hz))
    decreases |ids|
  {
    hide Lists, Heads, RqsOk, Flight, Spare, Advance, Ordered, NoStall;
    if ids != [] {
      AdvanceBase(q, ids[0], error, now, hz, l);
      AdvanceOrdered(q, ids[0], error, now, hz, l);
      AdvanceAllOrdered(Advance(q, ids[0], error, now, hz), ids[1..], error, now, hz, l);
    }
  }

  lemma OrderedSame(q: Queue, q': Queue)
    requires Ordered(q) && q.rqs == q'.rqs && q.log == q'.log
    ensures Ordered(q')
  {
    hide History, Proj;
  }

  /** An event that is no request's own changes nobody's history. */
  lemma OrderedLog(q: Queue, e: Event)
    requires Ordered(q) && (e.FlushIssued? || e.FlushDone?)
    ensures Ordered(Log(q, e))
  {
    hide History, Proj;
    forall id: Id
      ensures Proj(Log(q, e).log, id) == Proj(q.log, id)
    {
      ProjLog(q.log, e, id);
    }
  }

  lemma FlushEndOrdered(q: Queue, error: bool, now: int, hz: nat)
    requires Inv(q) && FlushCmd in q.driver && Ordered(q)
    ensures Ordered(FlushEnd(q, error, now, hz))
  {
    hide Lists, Heads, RqsOk, Flight, Spare, AdvanceAll, Ordered, NoStall;
    FlushDoneBase(q, error);
    var q0 := q.(run := 1 - q.run, driver := q.driver - {FlushCmd});
    var q1 := Log(q0, FlushDone(q.issued - 1, error));
    OrderedSame(q, q0);
    OrderedLog(q0, FlushDone(q.issued - 1, error));
    AdvanceAllOrdered(q1, q.fq[q.run], error, now, hz, q.run);
    OrderedSame(AdvanceAll(q1, q.fq[q.run], error, now, hz), FlushEnd(q, error, now, hz));
  }

  lemma DriverCompleting(q: Queue, id: Id)
    requires Inv(q) && id in q.rqs && Cmd(id) in q.driver
    ensures var r := q.rqs[id];
            && !r.ended && r.policy.data
            && (r.hooked ==> r.flushSeq && CurSeq(r.mask) == Data && Completing(r.(busy := false), Only(Data)))
            && (!r.hooked ==> !r.flushSeq && r.policy == Mask(false, true, false, false))
  {
    assert RqOk(q.rqs[id]);
  }

  lemma PlainHistory(id: Id, r: Rq, error: bool, h: seq<Event>)
    requires r.ended && r.policy == Mask(false, true, false, false) && h == AtStep(id, r.policy, Data)
    ensures History(id, r, h + [DataDone(id, error)] + [BioEnded(id, error)])
  {
    if error {
      assert Has(r.policy, Data);
      assert h + [DataDone(id, error)] + [BioEnded(id, error)] == CutShort(id, r.policy, Data);
    }
  }

  lemma DataEndOrdered(q: Queue, id: Id, error: bool, now: int, hz: nat)
    requires Inv(q) && id in q.rqs && Cmd(id) in q.driver && Ordered(q)
    ensures Ordered(DataEnd(q, id, error, now, hz))
  {
    hide Lists, Heads, RqsOk, Flight, Spare, CompleteSeq, NoStall, Completing, AtStep, Proj;
    DriverCompleting(q, id);
    var r := q.rqs[id];
    assert History(id, r, Proj(q.log, id));
    var q0 := Put(q.(driver := q.driver - {Cmd(id)}), id, r.(busy := false));
    OrderedAfter(q, q0, id, r.(busy := false));
    if r.hooked {
      CompleteOrdered(q0, DataDone(id, error), id, Only(Data), error, now, hz);
      OrderedSame(CompleteSeq(Log(q0, DataDone(id, error)), id, Only(Data), error, now, hz),
                  DataEnd(q, id, error, now, hz));
    } else {
      PlainHistory(id, r.(busy := false, ended := true), error, Proj(q.log, id));
      ProjComplete(q.log, DataDone(id, error), BioEnded(id, error), FlushIssued(0), id);
      OrderedAfter(q0, DataEnd(q, id, error, now, hz), id, r.(busy := false, ended := true));
    }
  }

  lemma {:induction false} InsertOrdered(q: Queue, id: Id, policy: Mask, now: int, hz: nat)
    requires Inv(q) && id !in q.rqs && !policy.done && (policy.post ==> policy.data) && Ordered(q)
    ensures Ordered(Insert(q, id, policy, now, hz))
  {
    hide Inv, Insert, Ordered;
    if !policy.pre && !policy.post {
      PlainOrdered(q, id, policy, now, hz);
    } else {
      SequencedOrdered(q, id, policy, now, hz);
    }
  }

  lemma PlainOrdered(q: Queue, id: Id, policy: Mask, now: int, hz: nat)
    requires Inv(q) && id !in q.rqs && !policy.done && !policy.pre && !policy.post && Ordered(q)
    ensures Ordered(Insert(q, id, policy, now, hz))
  {
    hide Lists, Heads, RqsOk, Flight, Spare, CompleteSeq, NoStall, Proj;
    var q' := Insert(q, id, policy, now, hz);
    var e := if policy.data then DataIssued(id) else BioEnded(id, false);
    ProjComplete(q.log, Submitted(id, policy), e, FlushIssued(0), id);
    OrderedAfter(q, q', id, q'.rqs[id]);
  }

  lemma SequencedOrdered(q: Queue, id: Id, policy: Mask, now: int, hz: nat)
    requires Inv(q) && id !in q.rqs && !policy.done && (policy.post ==> policy.data) && (policy.pre || policy.post)
    requires Ordered(q)
    ensures Ordered(Insert(q, id, policy, now, hz))
  {
    hide Lists, Heads, RqsOk, Flight, Spare, CompleteSeq, NoStall, Proj;
    var q' := Insert(q, id, policy, now, hz);
    var r := NewRq(policy, true);
    var q1 := Put(Log(q, Submitted(id, policy)), id, r);
    CompleteEffect(q1, id, OtherActions(policy), false, now, hz);
    var arrival := Arrival(id, Target(r, OtherActions(policy), false), false);
    ProjComplete(q.log, Submitted(id, policy), arrival, FlushIssued(q.issued), id);
    HistoryFirst(id, policy, q'.rqs[id]);
    OrderedAfter(q, q', id, q'.rqs[id]);
  }

  lemma DispatchOrdered(q: Queue)
    requires Inv(q) && Ordered(q)
    ensures Ordered(Dispatch(q))
  {
    hide Lists, RqsOk, Flight, Spare, NoStall, Proj, AtStep;
    if q.head != [] && q.head[0].Cmd? {
      var id := q.head[0].id;
      OwnedTaken(q.rqs, id, q.head, q.driver);
      assert History(id, q.rqs[id], Proj(q.log, id));
      OrderedAfter(q, Dispatch(q), id, Dispatch(q).rqs[id]);
    } else {
      OrderedSame(q, Dispatch(q));
    }
  }

  lemma ActOrdered(q: Queue, a: Action, now: int, hz: nat)
    requires Inv(q) && Allowed(q, a) && Ordered(q)
    ensures Ordered(Act(q, a, now, hz))
  {
    hide Inv, Insert, Dispatch, DataEnd, FlushEnd, Ordered;
    match a {
      case Submit(id, sectors, flush, fua, devFlush, devFua) =>
        InsertOrdered(q, id, Policy(sectors, flush, fua, devFlush, devFua), now, hz);
      case Take => DispatchOrdered(q);
      case HoldQueue => OrderedSame(q, Hold(q));
      case CompleteData(id, error) => DriverHolds(q, id); DataEndOrdered(q, id, error, now, hz);
      case CompleteFlush(error) => FlushEndOrdered(q, error, now, hz);
    }
  }

  lemma {:induction false} RunOrdered(q: Queue, run: seq<Timed>, hz: nat)
    requires Inv(q) && Legal(q, run, hz) && Ordered(q)
    ensures Ordered(After(q, run, hz))
    decreases |run|
  {
    hide Inv, Act, Ordered;
    if run != [] {
      ActInv(q, run[0].action, run[0].now, hz);
      ActOrdered(q, run[0].action, run[0].now, hz);
      RunOrdered(Act(q, run[0].action, run[0].now, hz), run[1..], hz);
    }
  }

  /** In every run, the log of each request is exactly the steps of its policy in order: a prefix of
      them ending with the arrival at the current step while it is under way, all of them followed by
      one end of its bio when it succeeded, and the steps up to the failed one followed by one end of
      its bio with that error otherwise. */
  lemma StepsInOrderEndedOnce(run: seq<Timed>, hz: nat)
    requires Legal(Init(), run, hz)
    ensures Ordered(After(Init(), run, hz))
  {
    InitInv();
    RunOrdered(Init(), run, hz);
  }
}
