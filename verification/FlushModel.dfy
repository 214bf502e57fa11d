/** The FLUSH/FUA sequencer as a state machine over values: the transitions of
    block/blk-flush.c, together with a log of what an observer of the queue sees.

    Every transition below happens under the queue lock, so it is atomic. The driver is
    represented only by the two things it does to the sequencer: it takes entries off the
    dispatch queue, and it completes entries it has taken. */
module FlushModel {
  import opened ListOps

  type Id = nat

  /** The steps REQ_FSEQ_PREFLUSH, DATA, POSTFLUSH and DONE; Beyond is the value a mask
      with all four bits set would give. */
  datatype Step = Pre | Data | Post | Done | Beyond

  /** A mask of REQ_FSEQ_* bits. */
  datatype Mask = Mask(pre: bool, data: bool, post: bool, done: bool)

  function Or(a: Mask, b: Mask): Mask {
    Mask(a.pre || b.pre, a.data || b.data, a.post || b.post, a.done || b.done)
  }

  predicate Overlap(a: Mask, b: Mask) {
    (a.pre && b.pre) || (a.data && b.data) || (a.post && b.post) || (a.done && b.done)
  }

  /** REQ_FSEQ_ACTIONS & ~m */
  function OtherActions(m: Mask): Mask {
    Mask(!m.pre, !m.data, !m.post, false)
  }

  function Only(s: Step): Mask {
    Mask(s == Pre, s == Data, s == Post, s == Done)
  }

  /** blk_flush_cur_seq: the lowest clear bit. */
  function CurSeq(m: Mask): Step {
    if !m.pre then Pre else if !m.data then Data else if !m.post then Post else if !m.done then Done else Beyond
  }

  /** blk_flush_policy, for a device that advertises REQ_FLUSH (devFlush) and REQ_FUA (devFua). */
  function Policy(sectors: nat, flush: bool, fua: bool, devFlush: bool, devFua: bool): Mask {
    Mask(devFlush && flush, sectors != 0, devFlush && !devFua && fua, false)
  }

  /** The list that a request's flush.list node is linked on. */
  datatype Link = Unlinked | Waiting(idx: nat) | InData

  /** A request, reduced to what the sequencer looks at. `queued` says that queuelist is linked
      on the dispatch queue, `busy` that the driver has taken the request, `flushSeq` is
      REQ_FLUSH_SEQ, `hooked` says that end_io is flush_data_end_io, and `ended` that the
      request has been given back. */
  datatype Rq = Rq(policy: Mask, mask: Mask, link: Link, queued: bool, busy: bool,
                   flushSeq: bool, hooked: bool, ended: bool)

  /** An entry of the dispatch queue: a request, or the queue's own flush request. */
  datatype Entry = Cmd(id: Id) | FlushCmd

  datatype Event =
    | Submitted(id: Id, policy: Mask)
    | Waits(id: Id, step: Step)
    | Advanced(id: Id, step: Step)
    | DataIssued(id: Id)
    | DataDone(id: Id, error: bool)
    | BioEnded(id: Id, error: bool)
    | FlushIssued(nr: nat)
    | FlushDone(nr: nat, error: bool)

  datatype Queue = Queue(rqs: map<Id, Rq>, fq: seq<seq<Id>>, pend: nat, run: nat, data: seq<Id>,
                         head: seq<Entry>, driver: set<Entry>, since: int, delayed: bool,
                         runs: nat, issued: nat, log: seq<Event>, bug: bool)

  predicate Shape(q: Queue) {
    |q.fq| == 2 && q.pend < 2 && q.run < 2
  }

  const FLUSH_PENDING_TIMEOUT_SECONDS := 5

  function Init(): Queue {
    Queue(map[], [[], []], 0, 0, [], [], {}, 0, false, 0, 0, [], false)
  }

  function Log(q: Queue, e: Event): Queue {
    q.(log := q.log + [e])
  }

  function Put(q: Queue, id: Id, r: Rq): Queue {
    q.(rqs := q.rqs[id := r])
  }

  /** list_move_tail of the request's flush.list node; to == Unlinked is list_del_init. */
  function Move(q: Queue, id: Id, to: Link): (r: Queue)
    requires id in q.rqs && Shape(q)
    ensures Shape(r) && id in r.rqs
  {
    var from := q.rqs[id].link;
    var fq := if from.Waiting? && from.idx < 2 then q.fq[from.idx := Without(q.fq[from.idx], id)] else q.fq;
    var data := if from.InData? then Without(q.data, id) else q.data;
    q.(rqs := q.rqs[id := q.rqs[id].(link := to)],
       fq := if to.Waiting? && to.idx < 2 then fq[to.idx := fq[to.idx] + [id]] else fq,
       data := if to.InData? then data + [id] else data)
  }

  /** bio_endio reached through req_bio_endio: a bio of a request that is still being
      sequenced is not ended. */
  function EndBio(q: Queue, id: Id, error: bool): Queue
    requires id in q.rqs
  {
    if q.rqs[id].flushSeq then q else Log(q, BioEnded(id, error))
  }

  /** blk_kick_flush. */
  function Kick(q: Queue, now: int, hz: nat): Queue
    requires Shape(q)
  {
    if q.pend != q.run || q.fq[q.pend] == [] then q
    else if q.data != [] && now < q.since + FLUSH_PENDING_TIMEOUT_SECONDS * hz then q
    else Log(q.(pend := 1 - q.pend, head := q.head + [FlushCmd], issued := q.issued + 1), FlushIssued(q.issued))
  }

  /** Queue for a flush: the PREFLUSH and POSTFLUSH cases of blk_flush_complete_seq. */
  function Wait(q: Queue, id: Id, step: Step, now: int): (r: Queue)
    requires id in q.rqs && Shape(q)
    ensures Shape(r) && id in r.rqs
  {
    var q1 := q.(since := if q.fq[q.pend] == [] then now else q.since);
    Log(Move(q1, id, Waiting(q.pend)), Waits(id, step))
  }

  /** Hand the data to the dispatch queue: the DATA case. */
  function IssueData(q: Queue, id: Id): (r: Queue)
    requires id in q.rqs && Shape(q)
    ensures Shape(r) && id in r.rqs
  {
    var q1 := Move(q, id, InData);
    Log(Put(q1.(head := [Cmd(id)] + q1.head), id, q1.rqs[id].(queued := true)), DataIssued(id))
  }

  /** Restore the request and end it: the DONE case. */
  function Finish(q: Queue, id: Id, error: bool): (r: Queue)
    requires id in q.rqs && Shape(q)
    ensures Shape(r) && id in r.rqs
  {
    if q.rqs[id].queued then q.(bug := true) else
    var q1 := Move(q, id, Unlinked);
    var q2 := Put(q1, id, q1.rqs[id].(flushSeq := false, hooked := false, ended := true));
    EndBio(q2, id, error)
  }

  /** The switch of blk_flush_complete_seq, before the flush is kicked. */
  function Next(q: Queue, id: Id, done: Mask, error: bool, now: int): (r: Queue)
    requires id in q.rqs && Shape(q)
    ensures Shape(r) && id in r.rqs
  {
    if Overlap(q.rqs[id].mask, done) then q.(bug := true) else
    var q1 := Put(q, id, q.rqs[id].(mask := Or(q.rqs[id].mask, done)));
    match if error then Done else CurSeq(q1.rqs[id].mask)
    case Pre => Wait(q1, id, Pre, now)
    case Post => Wait(q1, id, Post, now)
    case Data => IssueData(q1, id)
    case Done => Finish(q1, id, error)
    case Beyond => q.(bug := true)
  }

  /** blk_flush_complete_seq. */
  function CompleteSeq(q: Queue, id: Id, done: Mask, error: bool, now: int, hz: nat): Queue
    requires id in q.rqs && Shape(q)
  {
    var q1 := Next(q, id, done, error, now);
    if q1.bug then q1 else Kick(q1, now, hz)
  }

  /** One turn of the loop of flush_end_io. */
  function Advance(q: Queue, id: Id, error: bool, now: int, hz: nat): Queue
    requires id in q.rqs && Shape(q)
  {
    var step := CurSeq(q.rqs[id].mask);
    if step != Pre && step != Post then q.(bug := true)
    else CompleteSeq(Log(q, Advanced(id, step)), id, Only(step), error, now, hz)
  }

  /** The loop of flush_end_io, as a fold over the requests that waited for the flush. */
  function AdvanceAll(q: Queue, ids: seq<Id>, error: bool, now: int, hz: nat): Queue
    decreases |ids|
  {
    if ids == [] || q.bug then q
    else if !(ids[0] in q.rqs && Shape(q)) then q.(bug := true)
    else AdvanceAll(Advance(q, ids[0], error, now, hz), ids[1..], error, now, hz)
  }

  /** flush_end_io, called when the driver completes the flush request. */
  function FlushEnd(q: Queue, error: bool, now: int, hz: nat): Queue
    requires Shape(q)
  {
    if q.pend == q.run || q.issued == 0 then q.(bug := true) else
    var q1 := Log(q.(run := 1 - q.run, driver := q.driver - {FlushCmd}), FlushDone(q.issued - 1, error));
    var q2 := AdvanceAll(q1, q.fq[q.run], error, now, hz);
    RunAsync(q2, q, q2.delayed).(delayed := false)
  }

  /** blk_run_queue_async, wanted when entries have been added to the dispatch queue. */
  function RunAsync(q: Queue, before: Queue, also: bool): Queue {
    if |q.head| > |before.head| || also then q.(runs := q.runs + 1) else q
  }

  /** The driver completes all bytes of a request it had taken. */
  function DataEnd(q: Queue, id: Id, error: bool, now: int, hz: nat): Queue
    requires id in q.rqs && Shape(q)
  {
    var q1 := Log(Put(q.(driver := q.driver - {Cmd(id)}), id, q.rqs[id].(busy := false)), DataDone(id, error));
    var q2 := EndBio(q1, id, error);
    if q.rqs[id].hooked then
      var q3 := CompleteSeq(q2, id, Only(Data), error, now, hz);
      RunAsync(q3, q, false)
    else
      Put(q2, id, q2.rqs[id].(ended := true))
  }

  /** A request as blk_insert_flush prepares it, marked REQ_FLUSH_SEQ and hooked when it is to be sequenced. */
  function NewRq(policy: Mask, sequenced: bool): Rq {
    Rq(policy, Mask(false, false, false, false), Unlinked, false, false, sequenced, sequenced, false)
  }

  /** blk_insert_flush, for a request with a single bio. */
  function Insert(q: Queue, id: Id, policy: Mask, now: int, hz: nat): Queue
    requires Shape(q)
  {
    var q1 := Log(q, Submitted(id, policy));
    if !policy.pre && !policy.data && !policy.post then
      EndBio(Put(q1, id, NewRq(policy, false).(ended := true)), id, false)
    else if policy.data && !policy.pre && !policy.post then
      Log(Put(q1.(head := q1.head + [Cmd(id)], runs := q1.runs + 1), id, NewRq(policy, false).(queued := true)),
          DataIssued(id))
    else
      CompleteSeq(Put(q1, id, NewRq(policy, true)), id, OtherActions(policy), false, now, hz)
  }

  /** blk_start_request on the first entry of the dispatch queue. */
  function Dispatch(q: Queue): Queue {
    if q.head == [] then q else
    match q.head[0]
    case FlushCmd => q.(head := q.head[1..], driver := q.driver + {FlushCmd})
    case Cmd(id) =>
      if id !in q.rqs then q.(bug := true) else
      Put(q.(head := q.head[1..], driver := q.driver + {Cmd(id)}), id,
          q.rqs[id].(queued := false, busy := true))
  }

  /** The driver found the queue held by a flush that cannot be queued (flush_queue_delayed). */
  function Hold(q: Queue): Queue {
    if q.pend != q.run then q.(delayed := true) else q
  }

  // ---------------------------------------------------------------------------------------
  // Runs

  /** What can happen to the queue. A submission carries the request's size and flags and what
      the device advertises at that moment. */
  datatype Action =
    | Submit(id: Id, sectors: nat, flush: bool, fua: bool, devFlush: bool, devFua: bool)
    | Take
    | HoldQueue
    | CompleteData(id: Id, error: bool)
    | CompleteFlush(error: bool)

  /** What the submitter and the driver owe the sequencer: fresh requests, no FUA without data,
      and completions only of what the driver has taken. */
  predicate Allowed(q: Queue, a: Action) {
    match a
    case Submit(id, sectors, flush, fua, _, _) => id !in q.rqs && (sectors == 0 ==> !fua)
    case Take => true
    case HoldQueue => true
    case CompleteData(id, _) => Cmd(id) in q.driver
    case CompleteFlush(_) => FlushCmd in q.driver
  }

  function Act(q: Queue, a: Action, now: int, hz: nat): Queue
    requires Shape(q)
  {
    match a
    case Submit(id, sectors, flush, fua, devFlush, devFua) =>
      Insert(q, id, Policy(sectors, flush, fua, devFlush, devFua), now, hz)
    case Take => Dispatch(q)
    case HoldQueue => Hold(q)
    case CompleteData(id, error) => if id in q.rqs then DataEnd(q, id, error, now, hz) else q.(bug := true)
    case CompleteFlush(error) => FlushEnd(q, error, now, hz)
  }

  /** An action and the value of jiffies when it happens. */
  datatype Timed = At(action: Action, now: int)

  predicate Legal(q: Queue, run: seq<Timed>, hz: nat)
    decreases |run|
  {
    run == [] ||
    (Shape(q) && Allowed(q, run[0].action) && Legal(Act(q, run[0].action, run[0].now, hz), run[1..], hz))
  }

  function After(q: Queue, run: seq<Timed>, hz: nat): Queue
    requires Legal(q, run, hz)
    decreases |run|
  {
    if run == [] then q else After(Act(q, run[0].action, run[0].now, hz), run[1..], hz)
  }
}
