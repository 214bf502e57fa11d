/** Order and durability from what the submitter asked for: the flags and the size of a request and what the device
    advertises decide which steps it takes, and which flushes come before its data and its end. */
module FlushFlags {
  import opened ListOps
  import opened FlushModel
  import opened FlushStructure
  import opened FlushOrder
  import opened FlushDurability

  // ---------------------------------------------------------------------------------------
  // A log only grows

  lemma FinishGrows(q: Queue, id: Id, error: bool)
    requires id in q.rqs && Shape(q)
    ensures q.log <= Finish(q, id, error).log
  {
    hide Move;
    if !q.rqs[id].queued {
      FinishEffect(q, id, error);
    }
  }

  lemma NextGrows(q: Queue, id: Id, done: Mask, error: bool, now: int)
    requires id in q.rqs && Shape(q)
    ensures q.log <= Next(q, id, done, error, now).log
  {
    hide Wait, IssueData, Finish;
    var q1 := Put(q, id, q.rqs[id].(mask := Or(q.rqs[id].mask, done)));
    WaitEffect(q1, id, Pre, now);
    WaitEffect(q1, id, Post, now);
    IssueEffect(q1, id);
    FinishGrows(q1, id, error);
  }

  lemma CompleteGrows(q: Queue, id: Id, done: Mask, error: bool, now: int, hz: nat)
    requires id in q.rqs && Shape(q)
    ensures q.log <= CompleteSeq(q, id, done, error, now, hz).log
  {
    hide Next;
    NextGrows(q, id, done, error, now);
  }

  lemma {:induction false} AdvanceAllGrows(q: Queue, ids: seq<Id>, error: bool, now: int, hz: nat)
    ensures q.log <= AdvanceAll(q, ids, error, now, hz).log
    decreases |ids|
  {
    hide CompleteSeq;
    if ids != [] && !q.bug && ids[0] in q.rqs && Shape(q) {
      var id := ids[0];
      var step := CurSeq(q.rqs[id].mask);
      CompleteGrows(Log(q, Advanced(id, step)), id, Only(step), error, now, hz);
      AdvanceAllGrows(Advance(q, id, error, now, hz), ids[1..], error, now, hz);
    }
  }

  lemma SubmitGrows(q: Queue, id: Id, policy: Mask, now: int, hz: nat)
    requires Shape(q)
    ensures q.log + [Submitted(id, policy)] <= Insert(q, id, policy, now, hz).log
  {
    hide CompleteSeq;
    var q1 := Log(q, Submitted(id, policy));
    CompleteGrows(Put(q1, id, NewRq(policy, true)), id, OtherActions(policy), false, now, hz);
  }

  lemma DataGrows(q: Queue, id: Id, error: bool, now: int, hz: nat)
    requires Shape(q) && id in q.rqs
    ensures q.log <= DataEnd(q, id, error, now, hz).log
  {
    hide CompleteSeq;
    var q1 := Log(Put(q.(driver := q.driver - {Cmd(id)}), id, q.rqs[id].(busy := false)), DataDone(id, error));
    CompleteGrows(EndBio(q1, id, error), id, Only(Data), error, now, hz);
  }

  lemma FlushGrows(q: Queue, error: bool, now: int, hz: nat)
    requires Shape(q)
    ensures q.log <= FlushEnd(q, error, now, hz).log
  {
    hide AdvanceAll;
    if q.pend != q.run && q.issued > 0 {
      var q1 := Log(q.(run := 1 - q.run, driver := q.driver - {FlushCmd}), FlushDone(q.issued - 1, error));
      AdvanceAllGrows(q1, q.fq[q.run], error, now, hz);
    }
  }

  lemma ActGrows(q: Queue, a: Action, now: int, hz: nat)
    requires Shape(q)
    ensures q.log <= Act(q, a, now, hz).log
    ensures a.Submit? ==>
              q.log + [Submitted(a.id, Policy(a.sectors, a.flush, a.fua, a.devFlush, a.devFua))]
              <= Act(q, a, now, hz).log
  {
    hide Insert, DataEnd, FlushEnd, Policy;
    match a
    case Submit(id, sectors, flush, fua, devFlush, devFua) =>
      SubmitGrows(q, id, Policy(sectors, flush, fua, devFlush, devFua), now, hz);
    case CompleteData(id, error) =>
      if id in q.rqs {
        DataGrows(q, id, error, now, hz);
      }
    case CompleteFlush(error) => FlushGrows(q, error, now, hz);
    case _ =>
  }

  lemma {:induction false} RunGrows(q: Queue, run: seq<Timed>, hz: nat)
    requires Legal(q, run, hz)
    ensures q.log <= After(q, run, hz).log
    decreases |run|
  {
    hide Act, Allowed;
    if run != [] {
      ActGrows(q, run[0].action, run[0].now, hz);
      RunGrows(Act(q, run[0].action, run[0].now, hz), run[1..], hz);
    }
  }

  // ---------------------------------------------------------------------------------------
  // The submission in the log

  /** The log before action k of the run. */
  function LogBefore(q: Queue, run: seq<Timed>, hz: nat, k: nat): seq<Event>
    requires Legal(q, run, hz) && k < |run|
    decreases |run|
  {
    if k == 0 then q.log else LogBefore(Act(q, run[0].action, run[0].now, hz), run[1..], hz, k - 1)
  }

  lemma {:induction false} SubmitLogged(q: Queue, run: seq<Timed>, hz: nat, k: nat)
    requires Legal(q, run, hz) && k < |run| && run[k].action.Submit?
    ensures var a := run[k].action;
            LogBefore(q, run, hz, k) + [Submitted(a.id, Policy(a.sectors, a.flush, a.fua, a.devFlush, a.devFua))]
            <= After(q, run, hz).log
    decreases |run|
  {
    hide Act, Allowed, Policy;
    var next := Act(q, run[0].action, run[0].now, hz);
    if k == 0 {
      ActGrows(q, run[0].action, run[0].now, hz);
      RunGrows(next, run[1..], hz);
    } else {
      SubmitLogged(next, run[1..], hz, k - 1);
    }
  }

  lemma {:induction false} ProjHas(log: seq<Event>, x: nat, id: Id)
    requires x < |log| && Mentions(log[x], id)
    ensures log[x] in Proj(log, id)
    decreases |log|
  {
    if x < |log| - 1 {
      ProjHas(log[..|log| - 1], x, id);
    }
  }

  /** Two events of a request are two entries of its own log, in the same order. */
  lemma {:induction false} ProjTwo(log: seq<Event>, x: nat, y: nat, id: Id) returns (i: nat, j: nat)
    requires x < y < |log| && Mentions(log[x], id) && Mentions(log[y], id)
    ensures i < j < |Proj(log, id)| && Proj(log, id)[i] == log[x] && Proj(log, id)[j] == log[y]
    decreases |log|
  {
    var front := log[..|log| - 1];
    if y < |log| - 1 {
      i, j := ProjTwo(front, x, y, id);
    } else {
      ProjHas(front, x, id);
      i :| 0 <= i < |Proj(front, id)| && Proj(front, id)[i] == log[x];
      j := |Proj(front, id)|;
    }
  }

  lemma OneSubmission(id: Id, r: Rq, h: seq<Event>)
    requires History(id, r, h)
    ensures h != [] && h[0] == Submitted(id, r.policy) && forall j | 0 < j < |h| :: !h[j].Submitted?
  {
    hide Behind;
    BehindStarts(id, r.policy, StepOf(r));
    BehindStarts(id, r.policy, Done);
    BehindStarts(id, r.policy, Pre);
    BehindStarts(id, r.policy, Data);
    BehindStarts(id, r.policy, Post);
  }

  lemma BehindStarts(id: Id, policy: Mask, step: Step)
    ensures var h := Behind(id, policy, step);
            h != [] && h[0] == Submitted(id, policy) && forall j | 0 < j < |h| :: !h[j].Submitted?
  {
  }

  /** A request is submitted once, and with the steps that the flags ask for. */
  lemma SubmittedAs(run: seq<Timed>, hz: nat, k: nat)
    requires Legal(Init(), run, hz) && k < |run| && run[k].action.Submit?
    ensures var a, q, s := run[k].action, After(Init(), run, hz), |LogBefore(Init(), run, hz, k)|;
            && s < |q.log| && a.id in q.rqs
            && q.rqs[a.id].policy
               == Mask(a.flush && a.devFlush, a.sectors != 0, a.fua && a.devFlush && !a.devFua, false)
            && q.log[s] == Submitted(a.id, q.rqs[a.id].policy)
            && forall x | 0 <= x < |q.log| && q.log[x].Submitted? && q.log[x].id == a.id :: x == s
  {
    SubmitLogged(Init(), run, hz, k);
    StepsInOrderEndedOnce(run, hz);
    hide Legal, After, LogBefore, History, Proj;
    var q, a, s := After(Init(), run, hz), run[k].action, |LogBefore(Init(), run, hz, k)|;
    var h := Proj(q.log, a.id);
    ProjHas(q.log, s, a.id);
    OneSubmission(a.id, q.rqs[a.id], h);
    forall x | 0 <= x < |q.log| && q.log[x].Submitted? && q.log[x].id == a.id
      ensures x == s
    {
      if x < s {
        var i, j := ProjTwo(q.log, x, s, a.id);
      } else if s < x {
        var i, j := ProjTwo(q.log, s, x, a.id);
      }
    }
  }

  // ---------------------------------------------------------------------------------------
  // Durability

  /** Over every run, for every submission in it. A request with REQ_FLUSH, on a device that has a cache to flush, has
      its data issued, or ends well without data, only after the completion of a flush that was issued after the
      submission. One with REQ_FUA, where the device has no FUA of its own, ends well only after the completion of a
      flush that was issued after its data was written. One with sectors ends well only after its data was issued and
      written. */
  lemma DurableFromFlags(run: seq<Timed>, hz: nat, k: nat, x: nat)
    requires Legal(Init(), run, hz) && k < |run| && run[k].action.Submit? && x < |After(Init(), run, hz).log|
    ensures var a, log, s := run[k].action, After(Init(), run, hz).log, |LogBefore(Init(), run, hz, k)|;
            && (a.flush && a.devFlush
                && (log[x] == DataIssued(a.id) || (a.sectors == 0 && log[x] == BioEnded(a.id, false))) ==>
                  FlushBetween(log, s, x, false))
            && (a.fua && a.devFlush && !a.devFua && log[x] == BioEnded(a.id, false) ==>
                  exists d :: 0 <= d < x && log[d] == DataDone(a.id, false) && FlushBetween(log, d, x, false))
            && (a.sectors != 0 && log[x] == BioEnded(a.id, false) ==> Logged(log, DataDone(a.id, false), x))
  {
    hide Legal, After, LogBefore, FlushBetween, Logged;
    SubmittedAs(run, hz, k);
    Durability(run, hz);
    var log := After(Init(), run, hz).log;
    assert Ok(log, x);
  }

  // ---------------------------------------------------------------------------------------
  // Order

  /** All that a request with these flags lives through when nothing fails. */
  function Asked(a: Action): seq<Event>
    requires a.Submit?
  {
    (if a.flush && a.devFlush then [Waits(a.id, Pre), Advanced(a.id, Pre)] else [])
    + (if a.sectors != 0 then [DataIssued(a.id), DataDone(a.id, false)] else [])
    + (if a.fua && a.devFlush && !a.devFua then [Waits(a.id, Post), Advanced(a.id, Post)] else [])
    + [BioEnded(a.id, false)]
  }

  /** The same up to an arrival, and then the failure of that step and the end of the bio with the error. */
  predicate CutAt(a: Action, h: seq<Event>, n: nat)
    requires a.Submit?
  {
    && 0 < n < |Asked(a)| && |h| == n + 2 && h[..n] == Asked(a)[..n] && h[n + 1] == BioEnded(a.id, true)
    && if h[n - 1].Waits? then h[n] == Advanced(a.id, h[n - 1].step)
       else h[n - 1].DataIssued? && h[n] == DataDone(a.id, true)
  }

  /** Over every run, for every submission in it: the events of the request after its submission are those that its
      flags ask for, in order and each once, as far as it has come; or as far as a failure, and then its end. */
  lemma StepsFromFlags(run: seq<Timed>, hz: nat, k: nat)
    requires Legal(Init(), run, hz) && k < |run| && run[k].action.Submit?
    ensures var a := run[k].action;
            var h := Proj(After(Init(), run, hz).log, a.id);
            h != [] && h[0].Submitted? && (h[1..] <= Asked(a) || exists n: nat :: CutAt(a, h[1..], n))
  {
    SubmittedAs(run, hz, k);
    StepsInOrderEndedOnce(run, hz);
    InitInv();
    RunInv(Init(), run, hz);
    hide Legal, After, LogBefore, Proj, History, Lists, Heads, Flight, Spare, NoStall;
    var q, a := After(Init(), run, hz), run[k].action;
    StepIsOfPolicy(q.rqs[a.id]);
    HistoryFromFlags(a, q.rqs[a.id], Proj(q.log, a.id));
  }

  lemma StepIsOfPolicy(r: Rq)
    requires RqOk(r)
    ensures !r.ended ==> Has(r.policy, StepOf(r))
  {
  }

  /** Where a request comes to a step of its policy, in terms of the flags. */
  lemma ArrivesAt(a: Action, policy: Mask, step: Step)
    requires a.Submit? && (Has(policy, step) || step == Done)
    requires policy == Mask(a.flush && a.devFlush, a.sectors != 0, a.fua && a.devFlush && !a.devFua, false)
    ensures var h := AtStep(a.id, policy, step);
            h != [] && h[0].Submitted? && h[1..] <= Asked(a)
            && (step != Done ==> 0 < |h| - 1 < |Asked(a)|)
            && h[|h| - 1] == Arrival(a.id, step, false)
  {
  }

  lemma HistoryFromFlags(a: Action, r: Rq, h: seq<Event>)
    requires a.Submit? && History(a.id, r, h) && (!r.ended ==> Has(r.policy, StepOf(r)))
    requires r.policy == Mask(a.flush && a.devFlush, a.sectors != 0, a.fua && a.devFlush && !a.devFua, false)
    ensures h != [] && h[0].Submitted? && (h[1..] <= Asked(a) || exists n: nat :: CutAt(a, h[1..], n))
  {
    hide AtStep, Asked;
    if !r.ended {
      ArrivesAt(a, r.policy, StepOf(r));
    } else if h == AtStep(a.id, r.policy, Done) {
      ArrivesAt(a, r.policy, Done);
    } else {
      var step :| Has(r.policy, step) && h == CutShort(a.id, r.policy, step);
      ArrivesAt(a, r.policy, step);
      var n := |AtStep(a.id, r.policy, step)| - 1;
      assert h[1..][..n] == Asked(a)[..n];
      assert h[1..][n - 1] == Arrival(a.id, step, false);
      assert CutAt(a, h[1..], n);
    }
  }

  // ---------------------------------------------------------------------------------------
  // When a flush is issued, and where things are queued

  /** A flush is issued exactly when none is in flight, a request is waiting, and either no data write of a sequenced
      request is in flight or the first of those waiting has waited for five seconds. It goes to the end of the dispatch
      queue, and those who wait from then on wait on the other list. */
  lemma KickExactly(q: Queue, now: int, hz: nat)
    requires Shape(q)
    ensures var q' := Kick(q, now, hz);
            if q.pend == q.run && q.fq[q.pend] != [] && (q.data == [] || now >= q.since + 5 * hz)
            then && q'.head == q.head + [FlushCmd] && q'.pend == 1 - q.pend && q'.issued == q.issued + 1
                 && q'.log == q.log + [FlushIssued(q.issued)]
                 && q' == q.(head := q'.head, pend := q'.pend, issued := q'.issued, log := q'.log)
            else q' == q
  {
  }

  /** Who comes to wait is last on the list of those waiting; the first of them sets the clock. */
  lemma WaitsLast(q: Queue, id: Id, step: Step, now: int)
    requires Shape(q) && id in q.rqs && q.rqs[id].link.Unlinked?
    ensures var q' := Wait(q, id, step, now);
            && q'.fq == q.fq[q.pend := q.fq[q.pend] + [id]]
            && q'.since == (if q.fq[q.pend] == [] then now else q.since)
            && q'.head == q.head && q'.data == q.data && q'.pend == q.pend && q'.run == q.run
  {
    hide Without;
  }

  /** Data of a sequenced request goes to the front of the dispatch queue, a plain write to its end, and the driver
      takes entries from the front. */
  lemma DispatchOrder(q: Queue, id: Id, now: int, hz: nat)
    requires Shape(q)
    ensures id in q.rqs ==> IssueData(q, id).head == [Cmd(id)] + q.head && id in IssueData(q, id).data
    ensures id in q.rqs && !q.rqs[id].link.InData? ==> IssueData(q, id).data == q.data + [id]
    ensures Insert(q, id, Mask(false, true, false, false), now, hz).head == q.head + [Cmd(id)]
    ensures Insert(q, id, Mask(false, true, false, false), now, hz).runs == q.runs + 1
    ensures q.head != [] && (q.head[0].Cmd? ==> q.head[0].id in q.rqs) ==>
              Dispatch(q).head == q.head[1..] && Dispatch(q).driver == q.driver + {q.head[0]}
    ensures q.head == [] ==> Dispatch(q) == q
  {
    hide Without;
  }

  /** No step is completed twice. */
  lemma BugIfTwice(q: Queue, id: Id, done: Mask, error: bool, now: int, hz: nat)
    requires Shape(q) && id in q.rqs
    requires var m := q.rqs[id].mask;
             (m.pre && done.pre) || (m.data && done.data) || (m.post && done.post) || (m.done && done.done)
    ensures CompleteSeq(q, id, done, error, now, hz).bug
  {
    hide Kick, Wait, IssueData, Finish;
  }

  /** No request is ended while it is in the dispatch queue, and none goes on after its end. */
  lemma BugIfEnded(q: Queue, id: Id, done: Mask, error: bool, now: int, hz: nat)
    requires Shape(q) && id in q.rqs
    requires var r := q.rqs[id];
             var all := (r.mask.pre || done.pre) && (r.mask.data || done.data) && (r.mask.post || done.post);
             (r.queued && (error || all)) || (all && !error && (r.mask.done || done.done))
    ensures CompleteSeq(q, id, done, error, now, hz).bug
  {
    hide Kick, Wait, IssueData, Move;
    if !Overlap(q.rqs[id].mask, done) {
      var q1 := Put(q, id, q.rqs[id].(mask := Or(q.rqs[id].mask, done)));
      assert q1.rqs[id].queued == q.rqs[id].queued;
    }
  }

  /** What a flush must not do: complete without being issued, or cover a request that is not there or does not wait for
      a flush. And nothing must be dispatched or completed that is not there. */
  lemma BugsInFlush(q: Queue, id: Id, error: bool, now: int, hz: nat, ids: seq<Id>)
    requires Shape(q) && id in q.rqs
    ensures var m := q.rqs[id].mask; m.pre && (!m.data || m.post) ==> Advance(q, id, error, now, hz).bug
    ensures ids != [] && ids[0] !in q.rqs ==> AdvanceAll(q, ids, error, now, hz).bug
    ensures q.pend == q.run ==> FlushEnd(q, error, now, hz).bug
    ensures q.head != [] && q.head[0].Cmd? && q.head[0].id !in q.rqs ==> Dispatch(q).bug
    ensures forall x | x !in q.rqs :: Act(q, CompleteData(x, error), now, hz).bug
  {
    hide CompleteSeq;
  }

  /** The completion of a flush runs the queue exactly when it added to the dispatch queue or the driver had held the
      queue for it; the completion of data exactly when it added to the dispatch queue. */
  lemma RunsQueue(q: Queue, id: Id, error: bool, now: int, hz: nat)
    requires Inv(q)
    ensures FlushCmd in q.driver ==>
              var q' := FlushEnd(q, error, now, hz);
              !q'.delayed && q'.runs == q.runs + (if |q'.head| > |q.head| || q.delayed then 1 else 0)
    ensures Hold(q).delayed <==> q.delayed || FlushCmd in q.head || FlushCmd in q.driver
    ensures id in q.rqs ==>
              var q' := DataEnd(q, id, error, now, hz);
              q'.delayed == q.delayed && q'.runs == q.runs + if |q'.head| > |q.head| then 1 else 0
  {
    hide Lists, Heads, RqsOk, NoStall, AdvanceAll, CompleteSeq;
    if id in q.rqs {
      DataKeeps(q, id, error, now, hz);
    }
    if FlushCmd in q.driver {
      FlushDoneBase(q, error);
      var q1 := Log(q.(run := 1 - q.run, driver := q.driver - {FlushCmd}), FlushDone(q.issued - 1, error));
      AdvanceAllKeeps(q1, q.fq[q.run], error, now, hz);
    }
  }

  lemma DataKeeps(q: Queue, id: Id, error: bool, now: int, hz: nat)
    requires Shape(q) && id in q.rqs
    ensures var q' := DataEnd(q, id, error, now, hz);
            q'.delayed == q.delayed && q'.runs == q.runs + if |q'.head| > |q.head| then 1 else 0
  {
    hide CompleteSeq;
    var q1 := Log(Put(q.(driver := q.driver - {Cmd(id)}), id, q.rqs[id].(busy := false)), DataDone(id, error));
    CompleteKeeps(EndBio(q1, id, error), id, Only(Data), error, now, hz);
  }

  lemma CompleteKeeps(q: Queue, id: Id, done: Mask, error: bool, now: int, hz: nat)
    requires id in q.rqs && Shape(q)
    ensures SameRuns(q, CompleteSeq(q, id, done, error, now, hz))
  {
    hide Next;
    NextKeeps(q, id, done, error, now);
  }

  predicate SameRuns(q: Queue, q': Queue) { q'.delayed == q.delayed && q'.runs == q.runs }

  lemma MoveKeeps(q: Queue, id: Id, to: Link)
    requires id in q.rqs && Shape(q)
    ensures SameRuns(q, Move(q, id, to))
  {
    hide Without;
  }

  lemma WaitKeeps(q: Queue, id: Id, step: Step, now: int)
    requires id in q.rqs && Shape(q)
    ensures SameRuns(q, Wait(q, id, step, now))
  {
    hide Move;
    MoveKeeps(q.(since := if q.fq[q.pend] == [] then now else q.since), id, Waiting(q.pend));
  }

  lemma IssueKeeps(q: Queue, id: Id)
    requires id in q.rqs && Shape(q)
    ensures SameRuns(q, IssueData(q, id))
  {
    hide Move;
    MoveKeeps(q, id, InData);
  }

  lemma FinishKeeps(q: Queue, id: Id, error: bool)
    requires id in q.rqs && Shape(q)
    ensures SameRuns(q, Finish(q, id, error))
  {
    hide Move;
    MoveKeeps(q, id, Unlinked);
  }

  lemma NextKeeps(q: Queue, id: Id, done: Mask, error: bool, now: int)
    requires id in q.rqs && Shape(q)
    ensures SameRuns(q, Next(q, id, done, error, now))
  {
    hide Wait, IssueData, Finish;
    var q1 := Put(q, id, q.rqs[id].(mask := Or(q.rqs[id].mask, done)));
    WaitKeeps(q1, id, Pre, now);
    WaitKeeps(q1, id, Post, now);
    IssueKeeps(q1, id);
    FinishKeeps(q1, id, error);
  }

  lemma AdvanceKeeps(q: Queue, id: Id, error: bool, now: int, hz: nat)
    requires id in q.rqs && Shape(q)
    ensures SameRuns(q, Advance(q, id, error, now, hz))
  {
    hide Next;
    var step := CurSeq(q.rqs[id].mask);
    NextKeeps(Log(q, Advanced(id, step)), id, Only(step), error, now);
  }

  lemma {:induction false} AdvanceAllKeeps(q: Queue, ids: seq<Id>, error: bool, now: int, hz: nat)
    ensures SameRuns(q, AdvanceAll(q, ids, error, now, hz))
    decreases |ids|
  {
    hide Advance;
    if ids != [] && !q.bug && ids[0] in q.rqs && Shape(q) {
      AdvanceKeeps(q, ids[0], error, now, hz);
      AdvanceAllKeeps(Advance(q, ids[0], error, now, hz), ids[1..], error, now, hz);
    }
  }
}
