/** The loop of flush_end_io as the list walk it is, with the next entry saved before a request is moved on, while the
    list can grow behind it. Where no request without data carries FUA, the walk meets exactly the requests that waited
    when it began, so that every run of it is durable; without that rule a request can be met twice. */
module FlushWalk {
  import opened Common
  import opened ListOps
  import opened FlushModel
  import opened FlushStructure
  import opened FlushDurability

  /** list_for_each_entry_safe over flush queue l: from the cursor on, the walk meets the given requests. */
  predicate Meets(q: Queue, l: nat, cursor: Option<Id>, ids: seq<Id>, error: bool, now: int, hz: nat)
    decreases |ids|
  {
    if cursor.None? then ids == []
    else
      var id := cursor.value;
      && ids != [] && ids[0] == id && id in q.rqs && Shape(q) && l < 2 && id in q.fq[l]
      && Meets(Advance(q, id, error, now, hz), l, Latter(q.fq[l], id), ids[1..], error, now, hz)
  }

  /** Where a completion of the flush request begins to walk. */
  function FlushCompleted(q: Queue, error: bool): Queue
    requires Shape(q) && q.issued > 0
  {
    Log(q.(run := 1 - q.run, driver := q.driver - {FlushCmd}), FlushDone(q.issued - 1, error))
  }

  /** With the invariant the walk meets the waiting requests, each once, and nothing else. */
  lemma {:induction false} MeetsWaiting(q: Queue, l: nat, ids: seq<Id>, error: bool, now: int, hz: nat)
    requires Base(q, l)
    ensures Meets(q, l, First(q.fq[l]), ids, error, now, hz) <==> ids == q.fq[l]
    decreases |q.fq[l]|
  {
    hide Lists, Heads, RqsOk, Flight, Advance, NoStall;
    if q.fq[l] != [] {
      var id := q.fq[l][0];
      AdvanceBase(q, id, error, now, hz, l);
      var next := Advance(q, id, error, now, hz);
      assert Latter(q.fq[l], id) == First(next.fq[l]);
      if ids != [] {
        MeetsWaiting(next, l, ids[1..], error, now, hz);
        assert ids[0] == id && ids[1..] == q.fq[l][1..] ==> ids == q.fq[l];
      }
    }
  }

  // ---------------------------------------------------------------------------------------
  // Runs of the walk

  /** An action, or the completion of a flush with the requests that its walk meets. */
  datatype Turn = Do(action: Action) | Walk(ids: seq<Id>, error: bool)

  datatype TimedTurn = TurnAt(turn: Turn, now: int)

  predicate Possible(q: Queue, t: Turn, now: int, hz: nat) {
    match t
    case Do(a) => if a.Submit? then a.id !in q.rqs else !a.CompleteFlush? && Allowed(q, a)
    case Walk(ids, error) =>
      && FlushCmd in q.driver && Shape(q) && q.pend != q.run && q.issued > 0
      && Meets(FlushCompleted(q, error), q.run, First(q.fq[q.run]), ids, error, now, hz)
  }

  function Turned(q: Queue, t: Turn, now: int, hz: nat): Queue
    requires Shape(q) && Possible(q, t, now, hz)
  {
    match t
    case Do(a) => Act(q, a, now, hz)
    case Walk(ids, error) =>
      var q2 := AdvanceAll(FlushCompleted(q, error), ids, error, now, hz);
      RunAsync(q2, q, q2.delayed).(delayed := false)
  }

  predicate Runs(q: Queue, turns: seq<TimedTurn>, hz: nat, last: Queue)
    decreases |turns|
  {
    if turns == [] then last == q
    else Shape(q) && Possible(q, turns[0].turn, turns[0].now, hz)
         && Runs(Turned(q, turns[0].turn, turns[0].now, hz), turns[1..], hz, last)
  }

  /** No FUA without data. */
  predicate Ruled(t: Turn) {
    t.Do? && t.action.Submit? && t.action.sectors == 0 ==> !t.action.fua
  }

  function ActionOf(t: Turn): Action { if t.Do? then t.action else CompleteFlush(t.error) }

  function ActionsOf(turns: seq<TimedTurn>): (run: seq<Timed>)
    ensures |run| == |turns|
  {
    if turns == [] then [] else [At(ActionOf(turns[0].turn), turns[0].now)] + ActionsOf(turns[1..])
  }

  /** Under the rule a turn is the step of the state machine that completes the flush for those who waited. */
  lemma TurnIsAct(q: Queue, t: Turn, now: int, hz: nat)
    requires Inv(q) && Possible(q, t, now, hz) && Ruled(t)
    ensures Allowed(q, ActionOf(t)) && Turned(q, t, now, hz) == Act(q, ActionOf(t), now, hz)
  {
    hide Lists, Heads, RqsOk, Flight, AdvanceAll, Meets, NoStall;
    if t.Walk? {
      FlushDoneBase(q, t.error);
      MeetsWaiting(FlushCompleted(q, t.error), q.run, t.ids, t.error, now, hz);
    }
  }

  lemma {:induction false} RunsAreRuns(q: Queue, turns: seq<TimedTurn>, hz: nat, last: Queue)
    requires Inv(q) && Runs(q, turns, hz, last) && forall i | 0 <= i < |turns| :: Ruled(turns[i].turn)
    ensures Legal(q, ActionsOf(turns), hz) && last == After(q, ActionsOf(turns), hz)
    decreases |turns|
  {
    hide Act, Turned, Possible, Ruled, ActionOf, Lists, Heads, RqsOk, Flight, NoStall, Spare;
    if turns != [] {
      var t, now := turns[0].turn, turns[0].now;
      var rest := ActionsOf(turns[1..]);
      TurnIsAct(q, t, now, hz);
      ActInv(q, ActionOf(t), now, hz);
      assert ActionsOf(turns)[0] == At(ActionOf(t), now) && ActionsOf(turns)[1..] == rest;
      RunsAreRuns(Turned(q, t, now, hz), turns[1..], hz, last);
    }
  }

  /** Every run of the walk in which no request without data carries FUA is durable. */
  lemma WalkDurability(turns: seq<TimedTurn>, hz: nat, last: Queue)
    requires Runs(Init(), turns, hz, last) && forall i | 0 <= i < |turns| :: Ruled(turns[i].turn)
    ensures Durable(last.log)
  {
    InitInv();
    hide Runs, Ruled, Inv, Durable, Legal, After, ActionsOf;
    RunsAreRuns(Init(), turns, hz, last);
    Durability(ActionsOf(turns), hz);
  }

  // ---------------------------------------------------------------------------------------
  // A run without the rule

  /** FLUSH and FUA without data, on a device with a write cache and without FUA */
  const DATALESS := Mask(true, false, true, false)

  function SubmitDataless(id: Id): Turn { Do(Submit(id, 0, true, true, true, false)) }

  /** Such a request, waiting on flush queue l for its first or its second flush, and at its end */
  function Waiter(l: nat, step: Step): Rq {
    Rq(DATALESS, Mask(step == Post, true, false, false), Waiting(l), false, false, true, true, false)
  }

  function Finished(): Rq {
    Rq(DATALESS, Mask(true, true, true, false), Unlinked, false, false, false, false, true)
  }

  function Entered(q: Queue, id: Id, t: int): (r: Queue)
    requires Shape(q)
    ensures Shape(r)
  {
    q.(rqs := q.rqs[id := Waiter(q.pend, Pre)], fq := q.fq[q.pend := q.fq[q.pend] + [id]],
       since := if q.fq[q.pend] == [] then t else q.since,
       log := q.log + [Submitted(id, DATALESS), Waits(id, Pre)])
  }

  lemma SubmitEffect(q: Queue, id: Id, t: int, hz: nat)
    requires Shape(q) && id !in q.rqs && !q.bug
    ensures Turned(q, SubmitDataless(id), t, hz) == Kick(Entered(q, id, t), t, hz)
  {
    hide Kick;
    var q1 := Put(Log(q, Submitted(id, DATALESS)), id, NewRq(DATALESS, true));
    var r := Next(q1, id, OtherActions(DATALESS), false, t);
    assert r.log == Entered(q, id, t).log;
    assert r.rqs == Entered(q, id, t).rqs;
    assert r == Entered(q, id, t);
  }

  function Requeued(q: Queue, id: Id, l: nat, t: int): (r: Queue)
    requires Shape(q) && l < 2
    ensures Shape(r)
  {
    var fq := q.fq[l := Without(q.fq[l], id)];
    q.(rqs := q.rqs[id := Waiter(q.pend, Post)], fq := fq[q.pend := fq[q.pend] + [id]],
       since := if q.fq[q.pend] == [] then t else q.since,
       log := q.log + [Advanced(id, Pre), Waits(id, Post)])
  }

  lemma PreEffect(q: Queue, id: Id, l: nat, t: int, hz: nat)
    requires Shape(q) && id in q.rqs && !q.bug && l < 2 && q.rqs[id] == Waiter(l, Pre)
    ensures Advance(q, id, false, t, hz) == Kick(Requeued(q, id, l, t), t, hz)
  {
    hide Kick, Without;
    var r := Next(Log(q, Advanced(id, Pre)), id, Only(Pre), false, t);
    assert r.log == Requeued(q, id, l, t).log;
    assert r.rqs == Requeued(q, id, l, t).rqs;
    assert r == Requeued(q, id, l, t);
  }

  function Over(q: Queue, id: Id, l: nat): (r: Queue)
    requires Shape(q) && l < 2
    ensures Shape(r)
  {
    q.(rqs := q.rqs[id := Finished()], fq := q.fq[l := Without(q.fq[l], id)],
       log := q.log + [Advanced(id, Post), BioEnded(id, false)])
  }

  lemma PostEffect(q: Queue, id: Id, l: nat, t: int, hz: nat)
    requires Shape(q) && id in q.rqs && !q.bug && l < 2 && q.rqs[id] == Waiter(l, Post)
    ensures Advance(q, id, false, t, hz) == Kick(Over(q, id, l), t, hz)
  {
    hide Kick, Without;
    var r := Next(Log(q, Advanced(id, Post)), id, Only(Post), false, t);
    assert r.log == Over(q, id, l).log;
    assert r.rqs == Over(q, id, l).rqs;
    assert r == Over(q, id, l);
  }

  /** A queue without data in flight, at time t */
  function Quiet(t: int, rqs: map<Id, Rq>, fq: seq<seq<Id>>, pend: nat, run: nat, head: seq<Entry>, runs: nat,
                 issued: nat, log: seq<Event>): Queue {
    Queue(rqs, fq, pend, run, [], head, {}, t, false, runs, issued, log, false)
  }

  lemma Same(q: Queue, p: Queue)
    requires q.rqs == p.rqs && q.data == p.data && q.pend == p.pend && q.run == p.run && q.head == p.head
    requires |q.fq| == |p.fq| == 2 && q.fq[0] == p.fq[0] && q.fq[1] == p.fq[1] && q.driver == p.driver
    requires q.since == p.since && q.delayed == p.delayed && q.runs == p.runs && q.issued == p.issued
    requires q.log == p.log && q.bug == p.bug
    ensures q == p
  {
    assert q.fq == p.fq;
  }

  /** Request 0 waits for the flush that was issued, 1 and 2 for the next. */
  function AllWaiting(t: int, log: seq<Event>): Queue {
    Quiet(t, map[0 := Waiter(0, Pre), 1 := Waiter(1, Pre), 2 := Waiter(1, Pre)], [[0], [1, 2]], 1, 0, [FlushCmd],
          0, 1, log)
  }

  /** That flush is done: 0 waits again, behind 1 and 2, and a flush for all three was issued. */
  function BehindTheOthers(t: int, runs: nat, log: seq<Event>): Queue {
    Quiet(t, map[0 := Waiter(1, Post), 1 := Waiter(1, Pre), 2 := Waiter(1, Pre)], [[], [1, 2, 0]], 0, 1, [FlushCmd],
          runs, 2, log)
  }

  /** The second walk after each of its four steps */
  function OneMoved(t: int, log: seq<Event>): Queue {
    Quiet(t, map[0 := Waiter(1, Post), 1 := Waiter(0, Post), 2 := Waiter(1, Pre)], [[1], [2, 0]], 1, 0, [FlushCmd],
          1, 3, log)
  }

  function TwoMoved(t: int, log: seq<Event>): Queue {
    Quiet(t, map[0 := Waiter(1, Post), 1 := Waiter(0, Post), 2 := Waiter(1, Post)], [[1], [0, 2]], 1, 0, [FlushCmd],
          1, 3, log)
  }

  function ZeroEnded(t: int, log: seq<Event>): Queue {
    Quiet(t, map[0 := Finished(), 1 := Waiter(0, Post), 2 := Waiter(1, Post)], [[1], [2]], 1, 0, [FlushCmd], 1, 3, log)
  }

  function TwoEnded(t: int, log: seq<Event>): Queue {
    Quiet(t, map[0 := Finished(), 1 := Waiter(0, Post), 2 := Finished()], [[1], []], 1, 0, [FlushCmd], 1, 3, log)
  }

  function Log1(): seq<Event> {
    [] + [Submitted(0, DATALESS), Waits(0, Pre)] + [FlushIssued(0)] + [Submitted(1, DATALESS), Waits(1, Pre)]
    + [Submitted(2, DATALESS), Waits(2, Pre)]
  }

  function Log2(): seq<Event> {
    Log1() + [FlushDone(0, false)] + [Advanced(0, Pre), Waits(0, Post)] + [FlushIssued(1)]
  }

  function Log3(): seq<Event> {
    Log2() + [FlushDone(1, false)] + [Advanced(1, Pre), Waits(1, Post)] + [FlushIssued(2)]
    + [Advanced(2, Pre), Waits(2, Post)]
  }

  function Log4(): seq<Event> {
    Log3() + [Advanced(0, Post), BioEnded(0, false)] + [Advanced(2, Post), BioEnded(2, false)]
  }

  lemma AllSubmitted(t: int, hz: nat)
    ensures var q1 := Kick(Entered(Init(), 0, t), t, hz);
            var q2 := Kick(Entered(q1, 1, t), t, hz);
            Kick(Entered(q2, 2, t), t, hz) == AllWaiting(t, Log1())
  {
    hide Waiter;
    var q1 := Kick(Entered(Init(), 0, t), t, hz);
    Same(q1, Quiet(t, map[0 := Waiter(0, Pre)], [[0], []], 1, 0, [FlushCmd], 0, 1, q1.log));
    var q2 := Kick(Entered(q1, 1, t), t, hz);
    Same(q2, Quiet(t, map[0 := Waiter(0, Pre), 1 := Waiter(1, Pre)], [[0], [1]], 1, 0, [FlushCmd], 0, 1, q2.log));
    Same(Kick(Entered(q2, 2, t), t, hz), AllWaiting(t, Log1()));
  }

  lemma ZeroMovesOn(t: int, hz: nat, log: seq<Event>)
    ensures Advance(FlushCompleted(Dispatch(AllWaiting(t, log)), false), 0, false, t, hz)
            == BehindTheOthers(t, 0, log + [FlushDone(0, false)] + [Advanced(0, Pre), Waits(0, Post)]
                                     + [FlushIssued(1)])
  {
    hide Advance;
    var q := FlushCompleted(Dispatch(AllWaiting(t, log)), false);
    PreEffect(q, 0, 0, t, hz);
    hide Waiter;
    assert Without([0], 0) == [];
    Same(Kick(Requeued(q, 0, 0, t), t, hz),
         BehindTheOthers(t, 0, q.log + [Advanced(0, Pre), Waits(0, Post)] + [FlushIssued(1)]));
  }

  /** Request 1 goes to the other list and has a flush issued for it, so that the list walked takes new entries. */
  lemma OneMovesOn(t: int, hz: nat, log: seq<Event>)
    ensures Advance(FlushCompleted(Dispatch(BehindTheOthers(t, 1, log)), false), 1, false, t, hz)
            == OneMoved(t, log + [FlushDone(1, false)] + [Advanced(1, Pre), Waits(1, Post)] + [FlushIssued(2)])
  {
    hide Advance;
    var q := FlushCompleted(Dispatch(BehindTheOthers(t, 1, log)), false);
    PreEffect(q, 1, 1, t, hz);
    hide Waiter;
    assert Without([1, 2, 0], 1) == [2, 0];
    Same(Kick(Requeued(q, 1, 1, t), t, hz), OneMoved(t, q.log + [Advanced(1, Pre), Waits(1, Post)] + [FlushIssued(2)]));
  }

  /** Request 2 goes to the end of the list walked. */
  lemma TwoMovesOn(t: int, hz: nat, log: seq<Event>)
    ensures Advance(OneMoved(t, log), 2, false, t, hz) == TwoMoved(t, log + [Advanced(2, Pre), Waits(2, Post)])
  {
    hide Advance;
    var q := OneMoved(t, log);
    PreEffect(q, 2, 1, t, hz);
    hide Waiter;
    assert Without([2, 0], 2) == [0];
    Same(Kick(Requeued(q, 2, 1, t), t, hz), TwoMoved(t, log + [Advanced(2, Pre), Waits(2, Post)]));
  }

  lemma ZeroEnds(t: int, hz: nat, log: seq<Event>)
    ensures Advance(TwoMoved(t, log), 0, false, t, hz) == ZeroEnded(t, log + [Advanced(0, Post), BioEnded(0, false)])
  {
    hide Advance;
    var q := TwoMoved(t, log);
    PostEffect(q, 0, 1, t, hz);
    hide Waiter, Finished;
    assert Without([0, 2], 0) == [2];
    Same(Kick(Over(q, 0, 1), t, hz), ZeroEnded(t, log + [Advanced(0, Post), BioEnded(0, false)]));
  }

  /** Request 2 is met again. */
  lemma TwoEnds(t: int, hz: nat, log: seq<Event>)
    ensures Advance(ZeroEnded(t, log), 2, false, t, hz) == TwoEnded(t, log + [Advanced(2, Post), BioEnded(2, false)])
  {
    hide Advance;
    var q := ZeroEnded(t, log);
    PostEffect(q, 2, 1, t, hz);
    hide Waiter, Finished;
    assert Without([2], 2) == [];
    Same(Kick(Over(q, 2, 1), t, hz), TwoEnded(t, log + [Advanced(2, Post), BioEnded(2, false)]));
  }

  /** One step of a walk, from its end to its start */
  lemma MeetsNext(q: Queue, l: nat, id: Id, ids: seq<Id>, t: int, hz: nat)
    requires id in q.rqs && Shape(q) && l < 2 && id in q.fq[l] && !q.bug
    requires Meets(Advance(q, id, false, t, hz), l, Latter(q.fq[l], id), ids, false, t, hz)
    ensures Meets(q, l, Some(id), [id] + ids, false, t, hz)
    ensures AdvanceAll(q, [id] + ids, false, t, hz) == AdvanceAll(Advance(q, id, false, t, hz), ids, false, t, hz)
  {
    assert ([id] + ids)[1..] == ids;
  }

  lemma FirstWalk(t: int, hz: nat)
    ensures var q := Dispatch(AllWaiting(t, Log1()));
            && Possible(q, Walk([0], false), t, hz)
            && Turned(q, Walk([0], false), t, hz) == BehindTheOthers(t, 1, Log2())
  {
    hide Advance, Waiter, Log1;
    var q := Dispatch(AllWaiting(t, Log1()));
    ZeroMovesOn(t, hz, Log1());
    assert Latter([0], 0) == None;
    assert [0] + [] == [0];
    MeetsNext(FlushCompleted(q, false), 0, 0, [], t, hz);
  }

  lemma WalkEnds(t: int, hz: nat, log: seq<Event>)
    ensures Meets(TwoMoved(t, log), 1, Some(0), [0, 2], false, t, hz)
    ensures AdvanceAll(TwoMoved(t, log), [0, 2], false, t, hz)
            == TwoEnded(t, log + [Advanced(0, Post), BioEnded(0, false)] + [Advanced(2, Post), BioEnded(2, false)])
  {
    hide Advance, Waiter, Finished;
    ZeroEnds(t, hz, log);
    var log1 := log + [Advanced(0, Post), BioEnded(0, false)];
    TwoEnds(t, hz, log1);
    assert Latter([2], 2) == None && Latter([0, 2], 0) == Some(2);
    assert [2] + [] == [2] && [0] + [2] == [0, 2];
    MeetsNext(ZeroEnded(t, log1), 1, 2, [], t, hz);
    MeetsNext(TwoMoved(t, log), 1, 0, [2], t, hz);
  }

  lemma WalkStarts(t: int, hz: nat)
    ensures var q := FlushCompleted(Dispatch(BehindTheOthers(t, 1, Log2())), false);
            && Meets(q, 1, Some(1), [1, 2, 0, 2], false, t, hz)
            && AdvanceAll(q, [1, 2, 0, 2], false, t, hz) == TwoEnded(t, Log4())
  {
    hide Advance, AdvanceAll, Meets, Waiter, Finished, Log2;
    var q := FlushCompleted(Dispatch(BehindTheOthers(t, 1, Log2())), false);
    OneMovesOn(t, hz, Log2());
    var log := Log2() + [FlushDone(1, false)] + [Advanced(1, Pre), Waits(1, Post)] + [FlushIssued(2)];
    TwoMovesOn(t, hz, log);
    WalkEnds(t, hz, Log3());
    assert Latter([2, 0], 2) == Some(0) && Latter([1, 2, 0], 1) == Some(2);
    assert [2] + [0, 2] == [2, 0, 2] && [1] + [2, 0, 2] == [1, 2, 0, 2];
    MeetsNext(OneMoved(t, log), 1, 2, [0, 2], t, hz);
    MeetsNext(q, 1, 1, [2, 0, 2], t, hz);
  }

  lemma SecondWalk(t: int, hz: nat)
    ensures var q := Dispatch(BehindTheOthers(t, 1, Log2()));
            && Possible(q, Walk([1, 2, 0, 2], false), t, hz)
            && Turned(q, Walk([1, 2, 0, 2], false), t, hz).log == Log4()
  {
    hide AdvanceAll, Meets, Waiter, Finished, Log2, Log4;
    WalkStarts(t, hz);
  }

  lemma Log4Is()
    ensures Log4() == [Submitted(0, DATALESS), Waits(0, Pre), FlushIssued(0), Submitted(1, DATALESS), Waits(1, Pre),
                       Submitted(2, DATALESS), Waits(2, Pre), FlushDone(0, false), Advanced(0, Pre), Waits(0, Post),
                       FlushIssued(1), FlushDone(1, false), Advanced(1, Pre), Waits(1, Post), FlushIssued(2),
                       Advanced(2, Pre), Waits(2, Post), Advanced(0, Post), BioEnded(0, false), Advanced(2, Post),
                       BioEnded(2, false)]
  {
  }

  /** The POSTFLUSH of request 2, which began at 16, is taken as satisfied at 19 with no flush issued in between. */
  lemma NotDurable()
    ensures |Log4()| == 21 && Log4()[16] == Waits(2, Post) && Log4()[19] == Advanced(2, Post) && !Ok(Log4(), 19)
  {
    Log4Is();
    hide Log4, FlushBetween;
    var log := Log4();
    assert forall w | 0 <= w < 19 && log[w] == Waits(2, Post) :: w == 16;
    assert forall error :: !FlushBetween(log, 16, 19, error) by {
      NoneIssued(log);
    }
  }

  lemma NoneIssued(log: seq<Event>)
    requires |log| > 18 && !log[17].FlushIssued? && !log[18].FlushIssued?
    ensures forall error :: !FlushBetween(log, 16, 19, error)
  {
  }

  /** Three requests with FLUSH and FUA and no data */
  function Example(t: int): seq<TimedTurn> {
    [TurnAt(SubmitDataless(0), t), TurnAt(SubmitDataless(1), t), TurnAt(SubmitDataless(2), t), TurnAt(Do(Take), t),
     TurnAt(Walk([0], false), t), TurnAt(Do(Take), t), TurnAt(Walk([1, 2, 0, 2], false), t)]
  }

  lemma RunsFrom(turns: seq<TimedTurn>, i: nat, q: Queue, hz: nat, last: Queue)
    requires i < |turns| && Shape(q) && Possible(q, turns[i].turn, turns[i].now, hz)
    requires Runs(Turned(q, turns[i].turn, turns[i].now, hz), turns[i + 1..], hz, last)
    ensures Runs(q, turns[i..], hz, last)
  {
    assert turns[i..][1..] == turns[i + 1..];
  }

  lemma ExampleWalks(t: int, hz: nat) returns (last: Queue)
    ensures Runs(AllWaiting(t, Log1()), Example(t)[3..], hz, last) && last.log == Log4()
  {
    hide Meets, AdvanceAll, Runs, Waiter, Finished, Log1, Log2, Log4;
    var e, q3, q5 := Example(t), AllWaiting(t, Log1()), BehindTheOthers(t, 1, Log2());
    SecondWalk(t, hz);
    last := Turned(Dispatch(q5), e[6].turn, t, hz);
    assert e[7..] == [];
    RunsDone(last, hz);
    RunsFrom(e, 6, Dispatch(q5), hz, last);
    RunsFrom(e, 5, q5, hz, last);
    FirstWalk(t, hz);
    RunsFrom(e, 4, Dispatch(q3), hz, last);
    RunsFrom(e, 3, q3, hz, last);
  }

  lemma RunsDone(q: Queue, hz: nat)
    ensures Runs(q, [], hz, q)
  {
  }

  lemma ExampleSubmits(t: int, hz: nat, last: Queue)
    requires Runs(AllWaiting(t, Log1()), Example(t)[3..], hz, last)
    ensures Runs(Init(), Example(t), hz, last)
  {
    hide Runs, Turned, Kick, Log1, AllWaiting;
    var e, q0 := Example(t), Init();
    var q1 := Kick(Entered(q0, 0, t), t, hz);
    KickKeeps(Entered(q0, 0, t), t, hz);
    var q2 := Kick(Entered(q1, 1, t), t, hz);
    KickKeeps(Entered(q1, 1, t), t, hz);
    SubmitEffect(q0, 0, t, hz);
    SubmitEffect(q1, 1, t, hz);
    SubmitEffect(q2, 2, t, hz);
    AllSubmitted(t, hz);
    RunsFrom(e, 2, q2, hz, last);
    RunsFrom(e, 1, q1, hz, last);
    RunsFrom(e, 0, q0, hz, last);
    assert e[0..] == e;
  }

  lemma KickKeeps(q: Queue, t: int, hz: nat)
    requires Shape(q)
    ensures Shape(Kick(q, t, hz)) && Kick(q, t, hz).rqs == q.rqs && Kick(q, t, hz).bug == q.bug
  {
  }

  /** Without the rule the walk can meet a request twice, and then takes its second flush as done although none was
      issued since it began to wait for it. */
  lemma MetAgain(t: int, hz: nat) returns (last: Queue)
    ensures Runs(Init(), Example(t), hz, last)
    ensures |last.log| > 19 && last.log[16] == Waits(2, Post) && last.log[19] == Advanced(2, Post) && !Ok(last.log, 19)
    ensures !Durable(last.log)
  {
    hide Runs, Log1, Log4, Ok;
    last := ExampleWalks(t, hz);
    ExampleSubmits(t, hz, last);
    NotDurable();
  }
}
