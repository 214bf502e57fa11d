/** The FLUSH/FUA sequencer as the source writes it: the flush fields of a request queue, updated in
    place, with the list walk of flush_end_io. Each method is proved against the transition of
    FlushModel that specifies it. */
module FlushQueue {
  import opened Common
  import opened ListOps
  import opened FlushModel
  import opened FlushStructure

  /** The BUG_ON and the default case of blk_flush_complete_seq are not taken. */
  lemma NoBug(r: Rq, done: Mask)
    requires Completes(r, done) && !r.policy.done && (r.policy.post ==> r.policy.data)
    ensures !Overlap(r.mask, done) && CurSeq(Or(r.mask, done)) != Beyond
  {
  }

  class RequestQueue {
    const hz: nat
    var rqs: map<Id, Rq>
    var fq: seq<seq<Id>>
    var pend: nat
    var run: nat
    var data: seq<Id>
    var head: seq<Entry>
    var since: int
    var delayed: bool
    var runs: nat
    var issued: nat
    // What the driver holds, and what has been observed.
    ghost var driver: set<Entry>
    ghost var log: seq<Event>

    ghost function View(): Queue
      reads this
    {
      Queue(rqs, fq, pend, run, data, head, driver, since, delayed, runs, issued, log, false)
    }

    constructor (hz: nat)
      ensures View() == FlushModel.Init() && Inv(View()) && this.hz == hz
    {
      this.hz := hz;
      rqs, fq, pend, run, data := map[], [[], []], 0, 0, [];
      head, since, delayed, runs, issued := [], 0, false, 0, 0;
      driver, log := {}, [];
      new;
      InitInv();
    }

    /** list_move_tail, and list_del_init when `to` is Unlinked. */
    method MoveTail(id: Id, to: Link)
      requires id in rqs && Shape(View())
      modifies this`rqs, this`fq, this`data
      ensures View() == Move(old(View()), id, to)
    {
      var from := rqs[id].link;
      if from.Waiting? && from.idx < 2 {
        fq := fq[from.idx := Without(fq[from.idx], id)];
      } else if from.InData? {
        data := Without(data, id);
      }
      if to.Waiting? && to.idx < 2 {
        fq := fq[to.idx := fq[to.idx] + [id]];
      } else if to.InData? {
        data := data + [id];
      }
      rqs := rqs[id := rqs[id].(link := to)];
    }

    /** blk_kick_flush */
    method KickFlush(now: int) returns (kicked: bool)
      requires Shape(View())
      modifies this`pend, this`head, this`issued, this`log
      ensures View() == Kick(old(View()), now, hz)
      ensures |head| >= old(|head|) && (kicked <==> |head| > old(|head|))
    {
      if pend != run || fq[pend] == [] {
        return false;
      }
      if data != [] && now < since + FLUSH_PENDING_TIMEOUT_SECONDS * hz {
        return false;
      }
      pend := 1 - pend;
      head := head + [FlushCmd];
      log := log + [FlushIssued(issued)];
      issued := issued + 1;
      return true;
    }

    /** The PREFLUSH and POSTFLUSH cases of blk_flush_complete_seq: queue for flush. */
    method WaitForFlush(id: Id, step: Step, now: int)
      requires id in rqs && Shape(View())
      modifies this`rqs, this`fq, this`data, this`since, this`log
      ensures View() == Wait(old(View()), id, step, now)
    {
      hide Move;
      if fq[pend] == [] { since := now; }
      MoveTail(id, Waiting(pend));
      log := log + [Waits(id, step)];
    }

    /** The DATA case. */
    method QueueData(id: Id)
      requires id in rqs && Shape(View())
      modifies this`rqs, this`fq, this`data, this`head, this`log
      ensures View() == IssueData(old(View()), id) && head == [Cmd(id)] + old(head)
    {
      MoveTail(id, InData);
      rqs := rqs[id := rqs[id].(queued := true)];
      head := [Cmd(id)] + head;
      log := log + [DataIssued(id)];
    }

    /** The DONE case. */
    method EndRequest(id: Id, error: bool)
      requires id in rqs && Shape(View()) && !rqs[id].queued
      modifies this`rqs, this`fq, this`data, this`log
      ensures View() == Finish(old(View()), id, error)
    {
      MoveTail(id, Unlinked);
      rqs := rqs[id := rqs[id].(flushSeq := false, hooked := false, ended := true)];
      log := log + [BioEnded(id, error)];
    }

    /** The switch of blk_flush_complete_seq. */
    method NextStep(id: Id, done: Mask, error: bool, now: int, ghost l: nat) returns (queued: bool)
      requires id in rqs && Ready(View(), id, l) && Completes(rqs[id], done)
      modifies this
      ensures View() == Next(old(View()), id, done, error, now)
      ensures |head| >= old(|head|) && (queued <==> |head| > old(|head|))
    {
      hide Lists, Heads, Spare, Flight, RqOk, Wait, IssueData, Finish, Overlap, CurSeq, Or, Completes;
      var r := rqs[id];
      NoBug(r, done);
      assert !Overlap(r.mask, done);
      rqs := rqs[id := r.(mask := Or(r.mask, done))];
      var step := if error then Done else CurSeq(rqs[id].mask);
      assert step != Beyond;
      if step == Pre || step == Post {
        WaitForFlush(id, step, now);
      } else if step == Data {
        QueueData(id);
      } else {
        EndRequest(id, error);
      }
      queued := step == Data;
    }

    /** blk_flush_complete_seq */
    method CompleteSeq(id: Id, done: Mask, error: bool, now: int, ghost l: nat) returns (queued: bool)
      requires id in rqs && Ready(View(), id, l) && Completes(rqs[id], done)
      modifies this
      ensures View() == FlushModel.CompleteSeq(old(View()), id, done, error, now, hz)
      ensures |head| >= old(|head|) && (queued <==> |head| > old(|head|))
    {
      hide Lists, Heads, Spare, Flight, RqOk, Next, Kick;
      NextBase(View(), id, done, error, now, l);
      queued := NextStep(id, done, error, now, l);
      var kicked := KickFlush(now);
      queued := kicked || queued;
    }

    /** flush_end_io, with the list walked by list_for_each_entry_safe: the next entry is taken from
        the list before the current one is moved. */
    method FlushEndIo(error: bool, now: int)
      requires Inv(View()) && FlushCmd in driver
      modifies this
      ensures View() == FlushEnd(old(View()), error, now, hz)
      ensures Inv(View())
    {
      hide Base, NoStall, AdvanceAll, Inv;
      FlushDoneBase(View(), error);
      FlushEndInv(View(), error, now, hz);
      var running := run;
      run := 1 - run;
      driver := driver - {FlushCmd};
      log := log + [FlushDone(issued - 1, error)];
      var queued := PushWaiting(running, error, now);
      if queued || delayed {
        runs := runs + 1;
      }
      delayed := false;
    }

    /** The loop of flush_end_io. */
    method PushWaiting(running: nat, error: bool, now: int) returns (queued: bool)
      requires Base(View(), running)
      modifies this
      ensures View() == AdvanceAll(old(View()), old(fq[running]), error, now, hz)
      ensures |head| >= old(|head|) && (queued <==> |head| > old(|head|))
    {
      hide Lists, Heads, RqsOk, Flight, Advance, NoStall;
      queued := false;
      var cursor := First(fq[running]);
      while cursor.Some?
        invariant Base(View(), running) && cursor == First(fq[running])
        invariant AdvanceAll(View(), fq[running], error, now, hz)
                  == AdvanceAll(old(View()), old(fq[running]), error, now, hz)
        invariant |head| >= old(|head|) && (queued <==> |head| > old(|head|))
        decreases |fq[running]|
      {
        var id := cursor.value;
        var next := Latter(fq[running], id);
        AdvanceBase(View(), id, error, now, hz, running);
        var more := AdvanceOne(id, error, now, running);
        queued := queued || more;
        cursor := next;
      }
    }

    /** The body of the loop of flush_end_io. */
    method AdvanceOne(id: Id, error: bool, now: int, running: nat) returns (queued: bool)
      requires Base(View(), running) && fq[running] != [] && fq[running][0] == id && id in rqs
      modifies this
      ensures View() == Advance(old(View()), id, error, now, hz)
      ensures Base(View(), running) && fq[running] == old(fq[running])[1..]
      ensures |head| >= old(|head|) && (queued <==> |head| > old(|head|))
    {
      hide Lists, Heads, RqsOk, Flight, RqOk, FlushModel.CompleteSeq, Ready, Completes;
      AdvanceBase(View(), id, error, now, hz, running);
      WaiterReady(View(), id, running);
      var step := CurSeq(rqs[id].mask);
      assert step == Pre || step == Post;
      log := log + [Advanced(id, step)];
      queued := CompleteSeq(id, Only(step), error, now, running);
    }

    /** flush_data_end_io, and for a request that is not sequenced the ordinary end of a request. */
    method DataEndIo(id: Id, error: bool, now: int)
      requires Inv(View()) && id in rqs && Cmd(id) in driver
      modifies this
      ensures View() == DataEnd(old(View()), id, error, now, hz)
      ensures Inv(View())
    {
      hide Lists, Heads, RqsOk, Flight, RqOk, FlushModel.CompleteSeq, NoStall, Ready, Completes;
      ghost var q0 := View();
      DataEndInv(q0, id, error, now, hz);
      driver := driver - {Cmd(id)};
      rqs := rqs[id := rqs[id].(busy := false)];
      log := log + [DataDone(id, error)];
      if rqs[id].hooked {
        ghost var l := if pend != run then pend else 1 - pend;
        DataDoneReady(q0, id, error, l);
        var queued := CompleteSeq(id, Only(Data), error, now, l);
        if queued {
          runs := runs + 1;
        }
      } else {
        PlainDoneBase(q0, id, error, if q0.pend != q0.run then q0.pend else 1 - q0.pend);
        log := log + [BioEnded(id, error)];
        rqs := rqs[id := rqs[id].(ended := true)];
      }
    }

    /** blk_insert_flush */
    method InsertFlush(id: Id, sectors: nat, flush: bool, fua: bool, devFlush: bool, devFua: bool, now: int)
      requires Inv(View()) && id !in rqs && (sectors == 0 ==> !fua)
      modifies this
      ensures View() == Insert(old(View()), id, Policy(sectors, flush, fua, devFlush, devFua), now, hz)
      ensures Inv(View())
    {
      hide Lists, Heads, RqsOk, Flight, RqOk, FlushModel.CompleteSeq, NoStall, Ready;
      ghost var q0 := View();
      var policy := Policy(sectors, flush, fua, devFlush, devFua);
      InsertInv(q0, id, policy, now, hz);
      log := log + [Submitted(id, policy)];
      if !policy.pre && !policy.data && !policy.post {
        rqs := rqs[id := NewRq(policy, false).(ended := true)];
        log := log + [BioEnded(id, false)];
        return;
      }
      if policy.data && !policy.pre && !policy.post {
        rqs := rqs[id := NewRq(policy, false).(queued := true)];
        head := head + [Cmd(id)];
        runs := runs + 1;
        log := log + [DataIssued(id)];
        return;
      }
      ghost var l := if pend != run then pend else 1 - pend;
      BaseSame(q0, View(), l);
      NewReady(View(), id, policy, l);
      rqs := rqs[id := NewRq(policy, true)];
      var _ := CompleteSeq(id, OtherActions(policy), false, now, l);
    }
  }
}
