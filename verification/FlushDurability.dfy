/** Durability over every run: a request that waits for a flush is moved on only by a flush that was
    issued after it began to wait. So the data of a PREFLUSH request is issued only after a flush that
    was issued after its submission, and a POSTFLUSH request ends without error only after a flush
    that was issued after its data was written. */
module FlushDurability {
  import opened ListOps
  import opened FlushModel
  import opened FlushStructure
  import opened FlushOrder

  /** Between positions a and b some flush was issued and then completed, with the given outcome. */
  ghost predicate FlushBetween(log: seq<Event>, a: int, b: int, error: bool) {
    exists i, j :: 0 <= i && a < i < j < b <= |log| && log[i].FlushIssued? && log[j] == FlushDone(log[i].nr, error)
  }

  ghost predicate Logged(log: seq<Event>, e: Event, before: int) {
    exists i :: 0 <= i < before <= |log| && log[i] == e
  }

  /** The guarantee at one position of the log, in terms of the log alone. */
  ghost predicate Ok(log: seq<Event>, x: int)
    requires 0 <= x < |log|
  {
    match log[x]
    case Advanced(id, step) =>
      exists w, error :: 0 <= w < x && log[w] == Waits(id, step) && FlushBetween(log, w, x, error)
    case DataIssued(id) =>
      exists s :: 0 <= s < x && log[s].Submitted? && log[s].id == id
                  && (log[s].policy.pre ==> FlushBetween(log, s, x, false))
    case BioEnded(id, error) =>
      error ||
      exists s :: 0 <= s < x && log[s].Submitted? && log[s].id == id
                  && (log[s].policy.pre ==> FlushBetween(log, s, x, false))
                  && (log[s].policy.data ==> Logged(log, DataDone(id, false), x))
                  && (log[s].policy.post ==>
                        exists d :: 0 <= d < x && log[d] == DataDone(id, false) && FlushBetween(log, d, x, false))
    case _ => true
  }

  ghost predicate Durable(log: seq<Event>) {
    forall x :: 0 <= x < |log| ==> Ok(log, x)
  }

  // ---------------------------------------------------------------------------------------
  // What is known of a request under way

  /** The request was submitted, and if it is past its PREFLUSH a flush has covered its submission. */
  ghost predicate Known(log: seq<Event>, id: Id, r: Rq) {
    exists s :: 0 <= s < |log| && log[s] == Submitted(id, r.policy)
                && (r.policy.pre && StepOf(r) != Pre ==> FlushBetween(log, s, |log|, false))
  }

  /** The request began before b to wait for its current flush step, and what that flush has to cover
      came before that. */
  ghost predicate Covered(log: seq<Event>, id: Id, r: Rq, b: int) {
    exists w :: 0 <= w < b <= |log| && log[w] == Waits(id, CurSeq(r.mask))
                && Logged(log, if CurSeq(r.mask) == Pre then Submitted(id, r.policy) else DataDone(id, false), w)
  }

  ghost predicate AllKnown(rqs: map<Id, Rq>, log: seq<Event>) {
    forall id | id in rqs && !rqs[id].ended :: Known(log, id, rqs[id])
  }

  ghost predicate AllCovered(rqs: map<Id, Rq>, log: seq<Event>) {
    forall id | id in rqs && rqs[id].link.Waiting? :: Covered(log, id, rqs[id], |log|)
  }

  ghost predicate CoveredBy(ids: seq<Id>, rqs: map<Id, Rq>, log: seq<Event>, b: int) {
    forall id | id in ids :: id in rqs && Covered(log, id, rqs[id], b)
  }

  /** The flush in flight was issued after all those it works for began to wait. */
  ghost predicate Flying(q: Queue)
    requires Shape(q)
  {
    q.pend != q.run ==>
      exists b :: 0 <= b < |q.log| && q.issued > 0 && q.log[b] == FlushIssued(q.issued - 1)
                  && CoveredBy(q.fq[q.run], q.rqs, q.log, b)
  }

  ghost predicate Sound(q: Queue) {
    Durable(q.log) && AllKnown(q.rqs, q.log) && AllCovered(q.rqs, q.log)
  }

  // ---------------------------------------------------------------------------------------
  // All of it survives a longer log

  lemma BetweenExt(log: seq<Event>, e: Event, a: int, b: int, b': int, error: bool)
    requires FlushBetween(log, a, b, error) && b <= b' <= |log| + 1
    ensures FlushBetween(log + [e], a, b', error)
  {
    var i, j :| 0 <= i && a < i < j < b <= |log| && log[i].FlushIssued? && log[j] == FlushDone(log[i].nr, error);
    var log' := log + [e];
    assert log'[i] == log[i] && log'[j] == log[j];
  }

  lemma LoggedExt(log: seq<Event>, e: Event, f: Event, b: int)
    requires Logged(log, f, b)
    ensures Logged(log + [e], f, b)
  {
    var i :| 0 <= i < b <= |log| && log[i] == f;
    assert (log + [e])[i] == f;
  }

  lemma OkExt(log: seq<Event>, e: Event, x: int)
    requires 0 <= x < |log| && Ok(log, x)
    ensures Ok(log + [e], x)
  {
    hide FlushBetween, Logged;
    var log' := log + [e];
    assert log'[x] == log[x];
    match log[x] {
      case Advanced(id, step) =>
        var w, error :| 0 <= w < x && log[w] == Waits(id, step) && FlushBetween(log, w, x, error);
        assert log'[w] == log[w];
        BetweenExt(log, e, w, x, x, error);
      case DataIssued(id) =>
        var s :| 0 <= s < x && log[s].Submitted? && log[s].id == id
                 && (log[s].policy.pre ==> FlushBetween(log, s, x, false));
        assert log'[s] == log[s];
        if log[s].policy.pre { BetweenExt(log, e, s, x, x, false); }
      case BioEnded(id, error) =>
        if !error { EndedExt(log, e, x); }
      case _ =>
    }
  }

  lemma EndedExt(log: seq<Event>, e: Event, x: int)
    requires 0 <= x < |log| && Ok(log, x) && log[x].BioEnded? && !log[x].error
    ensures Ok(log + [e], x)
  {
    hide FlushBetween, Logged;
    var log' := log + [e];
    assert log'[x] == log[x];
    var id := log[x].id;
    var s :| 0 <= s < x && log[s].Submitted? && log[s].id == id
             && (log[s].policy.pre ==> FlushBetween(log, s, x, false))
             && (log[s].policy.data ==> Logged(log, DataDone(id, false), x))
             && (log[s].policy.post ==>
                   exists d :: 0 <= d < x && log[d] == DataDone(id, false) && FlushBetween(log, d, x, false));
    assert log'[s] == log[s];
    if log[s].policy.pre { BetweenExt(log, e, s, x, x, false); }
    if log[s].policy.data { LoggedExt(log, e, DataDone(id, false), x); }
    if log[s].policy.post {
      var d :| 0 <= d < x && log[d] == DataDone(id, false) && FlushBetween(log, d, x, false);
      assert log'[d] == log[d];
      BetweenExt(log, e, d, x, x, false);
    }
  }

  lemma KnownExt(log: seq<Event>, e: Event, id: Id, r: Rq)
    requires Known(log, id, r)
    ensures Known(log + [e], id, r)
  {
    hide FlushBetween, StepOf;
    var s :| 0 <= s < |log| && log[s] == Submitted(id, r.policy)
             && (r.policy.pre && StepOf(r) != Pre ==> FlushBetween(log, s, |log|, false));
    assert (log + [e])[s] == log[s];
    if r.policy.pre && StepOf(r) != Pre { BetweenExt(log, e, s, |log|, |log| + 1, false); }
  }

  lemma CoveredExt(log: seq<Event>, e: Event, id: Id, r: Rq, b: int, b': int)
    requires Covered(log, id, r, b) && b <= b' <= |log| + 1
    ensures Covered(log + [e], id, r, b')
  {
    hide Logged;
    var f := if CurSeq(r.mask) == Pre then Submitted(id, r.policy) else DataDone(id, false);
    var w :| 0 <= w < b <= |log| && log[w] == Waits(id, CurSeq(r.mask)) && Logged(log, f, w);
    assert (log + [e])[w] == log[w];
    LoggedExt(log, e, f, w);
  }

  lemma CoveredByExt(ids: seq<Id>, rqs: map<Id, Rq>, log: seq<Event>, b: int, e: Event, id: Id, r: Rq)
    requires CoveredBy(ids, rqs, log, b) && b <= |log| && (id !in ids || (id in rqs && r == rqs[id]))
    ensures CoveredBy(ids, rqs[id := r], log + [e], b)
  {
    hide Covered;
    forall j | j in ids
      ensures Covered(log + [e], j, rqs[id := r][j], b)
    {
      CoveredExt(log, e, j, rqs[j], b, b);
    }
  }

  /** One more event, and one request changed. */
  lemma SoundExt(rqs: map<Id, Rq>, log: seq<Event>, e: Event, id: Id, r: Rq)
    requires Durable(log) && AllKnown(rqs, log) && AllCovered(rqs, log)
    requires Ok(log + [e], |log|)
    requires !r.ended ==> Known(log + [e], id, r)
    requires r.link.Waiting? ==> Covered(log + [e], id, r, |log| + 1)
    ensures Durable(log + [e]) && AllKnown(rqs[id := r], log + [e]) && AllCovered(rqs[id := r], log + [e])
  {
    hide Ok, Known, Covered;
    var log' := log + [e];
    var rqs' := rqs[id := r];
    forall x | 0 <= x < |log'|
      ensures Ok(log', x)
    {
      if x < |log| { OkExt(log, e, x); }
    }
    forall j | j in rqs' && !rqs'[j].ended
      ensures Known(log', j, rqs'[j])
    {
      if j != id { KnownExt(log, e, j, rqs[j]); }
    }
    forall j | j in rqs' && rqs'[j].link.Waiting?
      ensures Covered(log', j, rqs'[j], |log'|)
    {
      if j != id { CoveredExt(log, e, j, rqs[j], |log|, |log| + 1); }
    }
  }

  /** One more event, and no request changed. */
  lemma SoundLog(rqs: map<Id, Rq>, log: seq<Event>, e: Event)
    requires Durable(log) && AllKnown(rqs, log) && AllCovered(rqs, log)
    requires Ok(log + [e], |log|)
    ensures Durable(log + [e]) && AllKnown(rqs, log + [e]) && AllCovered(rqs, log + [e])
  {
    hide Ok, Known, Covered;
    var log' := log + [e];
    forall x | 0 <= x < |log'|
      ensures Ok(log', x)
    {
      if x < |log| { OkExt(log, e, x); }
    }
    forall j | j in rqs && !rqs[j].ended
      ensures Known(log', j, rqs[j])
    {
      KnownExt(log, e, j, rqs[j]);
    }
    forall j | j in rqs && rqs[j].link.Waiting?
      ensures Covered(log', j, rqs[j], |log'|)
    {
      CoveredExt(log, e, j, rqs[j], |log|, |log| + 1);
    }
  }

  lemma SameMind(log: seq<Event>, id: Id, r: Rq, r': Rq, b: int)
    requires r.policy == r'.policy && r.mask == r'.mask && StepOf(r) == StepOf(r')
    ensures Known(log, id, r) ==> Known(log, id, r')
    ensures Covered(log, id, r, b) ==> Covered(log, id, r', b)
  {
    hide FlushBetween, Logged, StepOf, CurSeq;
  }

  // ---------------------------------------------------------------------------------------
  // Transitions

  /** A flush that is kicked is issued after all that wait for it began to wait. */
  lemma KickSound(q: Queue, now: int, hz: nat, l: nat)
    requires Base(q, l) && Sound(q) && Flying(q)
    ensures Shape(Kick(q, now, hz)) && Sound(Kick(q, now, hz)) && Flying(Kick(q, now, hz))
  {
    var q' := Kick(q, now, hz);
    if q' != q {
      var e := FlushIssued(q.issued);
      hide Known, Covered, Durable;
      SoundLog(q.rqs, q.log, e);
      var ids := q.fq[q.pend];
      forall id | id in ids
        ensures id in q.rqs && Covered(q'.log, id, q.rqs[id], |q.log|)
      {
        WaiterListed(q, id, q.pend);
        CoveredExt(q.log, e, id, q.rqs[id], |q.log|, |q.log|);
      }
      assert q'.log[|q.log|] == FlushIssued(q'.issued - 1);
      assert CoveredBy(q'.fq[q'.run], q'.rqs, q'.log, |q.log|);
    }
  }

  lemma WaiterListed(q: Queue, id: Id, i: nat)
    requires Lists(q) && i < 2 && id in q.fq[i]
    ensures id in q.rqs && q.rqs[id].link == Waiting(i)
  {
  }

  lemma MoveOthers(q: Queue, id: Id, to: Link, i: nat)
    requires Shape(q) && id in q.rqs && i < 2
    ensures var q' := Move(q, id, to);
            && q'.pend == q.pend && q'.run == q.run
            && (q.rqs[id].link != Waiting(i) && to != Waiting(i) ==> q'.fq[i] == q.fq[i])
  {
  }

  /** A request that is not on flush queue i, and does not go to it, does not touch it. */
  lemma NextOthers(q: Queue, id: Id, done: Mask, error: bool, now: int, i: nat)
    requires Shape(q) && id in q.rqs && i < 2
    ensures var q' := Next(q, id, done, error, now);
            && q'.pend == q.pend && q'.run == q.run
            && (q.rqs[id].link != Waiting(i) && i != q.pend ==> q'.fq[i] == q.fq[i])
  {
    hide Wait, IssueData, Finish, CurSeq, Or, Overlap;
    var q1 := Put(q, id, q.rqs[id].(mask := Or(q.rqs[id].mask, done)));
    WaitOthers(q1, id, Pre, now, i);
    WaitOthers(q1, id, Post, now, i);
    IssueOthers(q1, id, i);
    FinishOthers(q1, id, error, i);
  }

  lemma WaitOthers(q: Queue, id: Id, step: Step, now: int, i: nat)
    requires Shape(q) && id in q.rqs && i < 2
    ensures var q' := Wait(q, id, step, now);
            && q'.pend == q.pend && q'.run == q.run
            && (q.rqs[id].link != Waiting(i) && i != q.pend ==> q'.fq[i] == q.fq[i])
  {
    hide Move;
    MoveOthers(q.(since := if q.fq[q.pend] == [] then now else q.since), id, Waiting(q.pend), i);
  }

  lemma IssueOthers(q: Queue, id: Id, i: nat)
    requires Shape(q) && id in q.rqs && i < 2
    ensures var q' := IssueData(q, id);
            q'.pend == q.pend && q'.run == q.run && (q.rqs[id].link != Waiting(i) ==> q'.fq[i] == q.fq[i])
  {
    hide Move;
    MoveOthers(q, id, InData, i);
  }

  lemma FinishOthers(q: Queue, id: Id, error: bool, i: nat)
    requires Shape(q) && id in q.rqs && i < 2
    ensures var q' := Finish(q, id, error);
            q'.pend == q.pend && q'.run == q.run && (q.rqs[id].link != Waiting(i) ==> q'.fq[i] == q.fq[i])
  {
    hide Move;
    MoveOthers(q, id, Unlinked, i);
  }

  /** What the log must show for the step that blk_flush_complete_seq takes. */
  ghost predicate Justified(log: seq<Event>, id: Id, r: Rq, done: Mask, error: bool) {
    var to := Target(r, done, error);
    var log' := log + [Arrival(id, to, error)];
    && Ok(log', |log|)
    && (to != Done ==> Known(log', id, r.(mask := Or(r.mask, done))))
    && (to == Pre || to == Post ==> Covered(log', id, r.(mask := Or(r.mask, done)), |log| + 1))
  }

  lemma NextSound(q: Queue, id: Id, done: Mask, error: bool, now: int, l: nat)
    requires Ready(q, id, l) && Completes(q.rqs[id], done)
    requires Sound(q) && Flying(q) && (q.pend != q.run ==> q.rqs[id].link != Waiting(q.run))
    requires Justified(q.log, id, q.rqs[id], done, error)
    ensures Base(Next(q, id, done, error, now), l)
    ensures Sound(Next(q, id, done, error, now)) && Flying(Next(q, id, done, error, now))
  {
    hide Lists, Heads, Spare, Flight, Next, Ok, Known, Covered, Durable, CurSeq, Or, Completes;
    var r := q.rqs[id];
    var q' := Next(q, id, done, error, now);
    var arrival := Arrival(id, Target(r, done, error), error);
    NextBase(q, id, done, error, now, l);
    NextEffect(q, id, done, error, now);
    NextOthers(q, id, done, error, now, q.run);
    var r' := q'.rqs[id];
    LinkTells(r');
    if !r'.ended { SameMind(q'.log, id, r.(mask := Or(r.mask, done)), r', |q'.log|); }
    SoundExt(q.rqs, q.log, arrival, id, r');
    if q.pend != q.run {
      NotListed(q, id, q.run);
      var b :| 0 <= b < |q.log| && q.issued > 0 && q.log[b] == FlushIssued(q.issued - 1)
               && CoveredBy(q.fq[q.run], q.rqs, q.log, b);
      CoveredByExt(q.fq[q.run], q.rqs, q.log, b, arrival, id, r');
      assert q'.log[b] == FlushIssued(q'.issued - 1);
    }
  }

  lemma NotListed(q: Queue, id: Id, i: nat)
    requires Lists(q) && i < 2 && id in q.rqs && q.rqs[id].link != Waiting(i)
    ensures id !in q.fq[i]
  {
  }

  lemma LinkTells(r: Rq)
    requires RqOk(r)
    ensures r.link.Waiting? ==> !r.ended && r.hooked && (CurSeq(r.mask) == Pre || CurSeq(r.mask) == Post)
  {
  }

  lemma CompleteSound(q: Queue, id: Id, done: Mask, error: bool, now: int, hz: nat, l: nat)
    requires Ready(q, id, l) && Completes(q.rqs[id], done)
    requires Sound(q) && Flying(q) && (q.pend != q.run ==> q.rqs[id].link != Waiting(q.run))
    requires Justified(q.log, id, q.rqs[id], done, error)
    ensures var q' := CompleteSeq(q, id, done, error, now, hz); Shape(q') && Sound(q') && Flying(q')
  {
    hide Lists, Heads, Spare, Flight, RqOk, Next, Kick, Sound, Flying, Justified, Completes;
    NextSound(q, id, done, error, now, l);
    KickSound(Next(q, id, done, error, now), now, hz, l);
  }

  // ---------------------------------------------------------------------------------------
  // The loop of flush_end_io

  /** The flush issued at b0 has completed. */
  ghost predicate JustDone(log: seq<Event>, b0: int, error: bool) {
    0 <= b0 < |log| && log[b0].FlushIssued? && Logged(log, FlushDone(log[b0].nr, error), |log|)
    && exists j :: b0 < j < |log| && log[j] == FlushDone(log[b0].nr, error)
  }

  lemma JustDoneBetween(log: seq<Event>, b0: int, error: bool, a: int)
    requires JustDone(log, b0, error) && a < b0
    ensures FlushBetween(log, a, |log|, error)
  {
    var j :| b0 < j < |log| && log[j] == FlushDone(log[b0].nr, error);
  }

  lemma JustDoneExt(log: seq<Event>, e: Event, b0: int, error: bool)
    requires JustDone(log, b0, error)
    ensures JustDone(log + [e], b0, error)
  {
    var j :| b0 < j < |log| && log[j] == FlushDone(log[b0].nr, error);
    assert (log + [e])[j] == log[j] && (log + [e])[b0] == log[b0];
  }

  lemma FlyingLog(q: Queue, e: Event)
    requires Shape(q) && Flying(q)
    ensures Flying(Log(q, e))
  {
    hide Covered;
    if q.pend != q.run {
      var b :| 0 <= b < |q.log| && q.issued > 0 && q.log[b] == FlushIssued(q.issued - 1)
               && CoveredBy(q.fq[q.run], q.rqs, q.log, b);
      assert (q.log + [e])[b] == q.log[b];
      forall id | id in q.fq[q.run]
        ensures Covered(q.log + [e], id, q.rqs[id], b)
      {
        CoveredExt(q.log, e, id, q.rqs[id], b, b);
      }
    }
  }

  /** A waiting request, on the completion of a flush issued after it began to wait, may take its
      next step. */
  lemma AdvanceJustified(log: seq<Event>, id: Id, r: Rq, error: bool, b0: int)
    requires Covered(log, id, r, b0) && JustDone(log, b0, error) && Known(log, id, r)
    requires var step := CurSeq(r.mask);
             (step == Pre || step == Post) && Completing(r, Only(step)) && Has(r.policy, step)
    ensures Justified(log, id, r, Only(CurSeq(r.mask)), error)
  {
    var step := CurSeq(r.mask);
    var to := Target(r, Only(step), error);
    var e := Arrival(id, to, error);
    var log' := log + [e];
    assert log'[|log|] == e;
    if !error {
      if step == Pre {
        PreJustified(log, id, r, b0);
      } else {
        PostJustified(log, id, r, b0);
      }
    }
    hide FlushBetween, Logged, Covered, Known;
  }

  lemma PreJustified(log: seq<Event>, id: Id, r: Rq, b0: int)
    requires CurSeq(r.mask) == Pre && Covered(log, id, r, b0) && JustDone(log, b0, false)
    requires Completing(r, Only(Pre)) && r.policy.pre
    ensures Justified(log, id, r, Only(Pre), false)
  {
    hide FlushBetween, JustDone;
    var e := Arrival(id, Target(r, Only(Pre), false), false);
    var log' := log + [e];
    assert log'[|log|] == e;
    var w :| 0 <= w < b0 <= |log| && log[w] == Waits(id, Pre) && Logged(log, Submitted(id, r.policy), w);
    var s :| 0 <= s < w && log[s] == Submitted(id, r.policy);
    assert log'[s] == log[s];
    JustDoneBetween(log, b0, false, s);
    BetweenExt(log, e, s, |log|, |log|, false);
    BetweenExt(log, e, s, |log|, |log| + 1, false);
  }

  lemma PostJustified(log: seq<Event>, id: Id, r: Rq, b0: int)
    requires CurSeq(r.mask) == Post && Covered(log, id, r, b0) && JustDone(log, b0, false) && Known(log, id, r)
    requires Completing(r, Only(Post)) && r.policy.post
    ensures Justified(log, id, r, Only(Post), false)
  {
    hide FlushBetween, JustDone;
    var e := BioEnded(id, false);
    var log' := log + [e];
    assert log'[|log|] == e;
    var w :| 0 <= w < b0 <= |log| && log[w] == Waits(id, Post) && Logged(log, DataDone(id, false), w);
    var d :| 0 <= d < w && log[d] == DataDone(id, false);
    var s :| 0 <= s < |log| && log[s] == Submitted(id, r.policy)
             && (r.policy.pre && StepOf(r) != Pre ==> FlushBetween(log, s, |log|, false));
    assert log'[d] == log[d] && log'[s] == log[s];
    JustDoneBetween(log, b0, false, d);
    BetweenExt(log, e, d, |log|, |log|, false);
    if r.policy.pre { BetweenExt(log, e, s, |log|, |log|, false); }
  }

  lemma AdvancedOk(log: seq<Event>, id: Id, r: Rq, error: bool, b0: int)
    requires Covered(log, id, r, b0) && JustDone(log, b0, error)
    ensures Ok(log + [Advanced(id, CurSeq(r.mask))], |log|)
  {
    hide FlushBetween, JustDone, Logged;
    var e := Advanced(id, CurSeq(r.mask));
    var log' := log + [e];
    assert log'[|log|] == e;
    var w :| 0 <= w < b0 <= |log| && log[w] == Waits(id, CurSeq(r.mask));
    assert log'[w] == log[w];
    JustDoneBetween(log, b0, error, w);
    BetweenExt(log, e, w, |log|, |log|, error);
  }

  /** The loop invariant: those still to be walked began to wait before the completed flush was issued. */
  ghost predicate Walking(q: Queue, l: nat, b0: int, error: bool) {
    && Base(q, l) && Sound(q) && Flying(q) && JustDone(q.log, b0, error)
    && CoveredBy(q.fq[l], q.rqs, q.log, b0)
  }

  lemma AdvanceSound(q: Queue, id: Id, error: bool, now: int, hz: nat, l: nat, b0: int)
    requires Walking(q, l, b0, error) && q.fq[l] != [] && id == q.fq[l][0]
    ensures id in q.rqs
    ensures var q' := Advance(q, id, error, now, hz); Shape(q') && Sound(q') && Flying(q')
  {
    hide Lists, Heads, Spare, Flight, RqOk, CompleteSeq, Covered, Durable, Known, JustDone, Flying;
    hide Ready, Completing, Completes;
    WaiterReady(q, id, l);
    WaiterCompleting(q, id, l);
    var r := q.rqs[id];
    var step := CurSeq(r.mask);
    var e := Advanced(id, step);
    var q1 := Log(q, e);
    AdvancedOk(q.log, id, r, error, b0);
    SoundLog(q.rqs, q.log, e);
    FlyingLog(q, e);
    JustDoneRange(q.log, b0, error);
    CoveredExt(q.log, e, id, r, b0, b0);
    JustDoneExt(q.log, e, b0, error);
    KnownExt(q.log, e, id, r);
    AdvanceJustified(q1.log, id, r, error, b0);
    SpareNotRun(q, l);
    CompleteSound(q1, id, Only(step), error, now, hz, l);
  }

  lemma SpareNotRun(q: Queue, l: nat)
    requires Shape(q) && Spare(q, l)
    ensures q.pend != q.run ==> q.run != l
  {
  }

  /** The log and the requests after one turn of the loop. */
  lemma AdvanceEffect(q: Queue, id: Id, error: bool, now: int, hz: nat, l: nat) returns (a: Event, b: Event, r: Rq)
    requires Base(q, l) && id in q.fq[l]
    ensures id in q.rqs
    ensures var q' := Advance(q, id, error, now, hz);
            && (q'.log == q.log + [a] + [b] || q'.log == q.log + [a] + [b] + [FlushIssued(q.issued)])
            && q'.rqs == q.rqs[id := r]
  {
    hide Lists, Heads, Spare, Flight, RqOk, CompleteSeq, Completing;
    WaiterCompleting(q, id, l);
    var step := CurSeq(q.rqs[id].mask);
    var q1 := Log(q, Advanced(id, step));
    CompleteEffect(q1, id, Only(step), error, now, hz);
    a, b := Advanced(id, step), Arrival(id, Target(q.rqs[id], Only(step), error), error);
    r := Advance(q, id, error, now, hz).rqs[id];
  }

  lemma RestCovered(rest: seq<Id>, rqs: map<Id, Rq>, log: seq<Event>, a: Event, b: Event, c: Event, id: Id, r: Rq,
                    b0: int, error: bool)
    requires CoveredBy(rest, rqs, log, b0) && JustDone(log, b0, error) && id !in rest
    ensures CoveredBy(rest, rqs[id := r], log + [a] + [b], b0) && JustDone(log + [a] + [b], b0, error)
    ensures CoveredBy(rest, rqs[id := r], log + [a] + [b] + [c], b0) && JustDone(log + [a] + [b] + [c], b0, error)
  {
    hide CoveredBy, JustDone;
    JustDoneRange(log, b0, error);
    JustDoneExt(log, a, b0, error);
    JustDoneExt(log + [a], b, b0, error);
    JustDoneExt(log + [a] + [b], c, b0, error);
    var rqs' := rqs[id := r];
    assert rqs'[id := r] == rqs';
    CoveredByExt(rest, rqs, log, b0, a, id, r);
    CoveredByExt(rest, rqs', log + [a], b0, b, id, r);
    CoveredByExt(rest, rqs', log + [a] + [b], b0, c, id, r);
  }

  lemma AdvanceWalking(q: Queue, id: Id, error: bool, now: int, hz: nat, l: nat, b0: int)
    requires Walking(q, l, b0, error) && q.fq[l] != [] && id == q.fq[l][0]
    ensures id in q.rqs && Walking(Advance(q, id, error, now, hz), l, b0, error)
  {
    hide Lists, Heads, RqsOk, Flight, RqOk, Advance, CoveredBy, JustDone, Sound, Flying, NoStall;
    AdvanceSound(q, id, error, now, hz, l, b0);
    AdvanceBase(q, id, error, now, hz, l);
    var a, b, r := AdvanceEffect(q, id, error, now, hz, l);
    FirstOnly(q, l);
    CoveredTail(q.fq[l], q.rqs, q.log, b0);
    RestCovered(q.fq[l][1..], q.rqs, q.log, a, b, FlushIssued(q.issued), id, r, b0, error);
  }

  lemma CoveredTail(ids: seq<Id>, rqs: map<Id, Rq>, log: seq<Event>, b0: int)
    requires CoveredBy(ids, rqs, log, b0) && ids != []
    ensures CoveredBy(ids[1..], rqs, log, b0)
  {
    hide Covered;
  }

  lemma JustDoneRange(log: seq<Event>, b0: int, error: bool)
    requires JustDone(log, b0, error)
    ensures 0 <= b0 < |log|
  {
  }

  lemma FirstOnly(q: Queue, l: nat)
    requires Lists(q) && l < 2 && q.fq[l] != []
    ensures q.fq[l][0] !in q.fq[l][1..]
  {
    if l == 0 { assert NoDup(q.fq[0]); } else { assert NoDup(q.fq[1]); }
  }

  lemma {:induction false} AdvanceAllSound(q: Queue, ids: seq<Id>, error: bool, now: int, hz: nat, l: nat, b0: int)
    requires Walking(q, l, b0, error) && ids == q.fq[l]
    ensures var q' := AdvanceAll(q, ids, error, now, hz); Shape(q') && Sound(q') && Flying(q')
    decreases |ids|
  {
    hide Advance, Sound, Flying, JustDone, CoveredBy, Lists, Heads, RqsOk, Flight, Spare;
    if ids != [] {
      AdvanceWalking(q, ids[0], error, now, hz, l, b0);
      AdvanceBase(q, ids[0], error, now, hz, l);
      AdvanceAllSound(Advance(q, ids[0], error, now, hz), ids[1..], error, now, hz, l, b0);
    }
  }

  // ---------------------------------------------------------------------------------------
  // The other transitions

  ghost predicate SoundQueue(q: Queue) {
    Shape(q) && Sound(q) && Flying(q)
  }

  lemma SoundSame(q: Queue, q': Queue)
    requires SoundQueue(q) && q.rqs == q'.rqs && q.log == q'.log && q.fq == q'.fq
    requires q.pend == q'.pend && q.run == q'.run
    requires q.issued == q'.issued
    ensures SoundQueue(q')
  {
    hide Durable, AllKnown, AllCovered, CoveredBy;
  }

  lemma FlushEndSound(q: Queue, error: bool, now: int, hz: nat)
    requires Inv(q) && FlushCmd in q.driver && SoundQueue(q)
    ensures SoundQueue(FlushEnd(q, error, now, hz))
  {
    hide Lists, Heads, RqsOk, Flight, Spare, AdvanceAll, NoStall, Durable, AllKnown, AllCovered, CoveredBy;
    FlushDoneBase(q, error);
    var q1 := Log(q.(run := 1 - q.run, driver := q.driver - {FlushCmd}), FlushDone(q.issued - 1, error));
    var b0 :| 0 <= b0 < |q.log| && q.issued > 0 && q.log[b0] == FlushIssued(q.issued - 1)
              && CoveredBy(q.fq[q.run], q.rqs, q.log, b0);
    var e := FlushDone(q.issued - 1, error);
    assert q1.log[b0] == q.log[b0] && q1.log[|q.log|] == e;
    SoundLog(q.rqs, q.log, e);
    CoveredByLog(q.fq[q.run], q.rqs, q.log, b0, e);
    AdvanceAllSound(q1, q.fq[q.run], error, now, hz, q.run, b0);
    SoundSame(AdvanceAll(q1, q.fq[q.run], error, now, hz), FlushEnd(q, error, now, hz));
  }

  lemma CoveredByLog(ids: seq<Id>, rqs: map<Id, Rq>, log: seq<Event>, b: int, e: Event)
    requires CoveredBy(ids, rqs, log, b) && b <= |log|
    ensures CoveredBy(ids, rqs, log + [e], b)
  {
    hide Covered;
    forall id | id in ids
      ensures Covered(log + [e], id, rqs[id], b)
    {
      CoveredExt(log, e, id, rqs[id], b, b);
    }
  }

  /** A request other than those waiting changed in ways that do not matter here. */
  lemma SoundPut(q: Queue, id: Id, r: Rq)
    requires SoundQueue(q) && id in q.rqs && r.policy == q.rqs[id].policy && r.mask == q.rqs[id].mask
    requires StepOf(r) == StepOf(q.rqs[id]) && r.ended == q.rqs[id].ended && r.link == q.rqs[id].link
    ensures SoundQueue(Put(q, id, r))
  {
    hide Durable, Known, Covered, StepOf;
    var rqs' := q.rqs[id := r];
    SameMind(q.log, id, q.rqs[id], r, |q.log|);
    assert AllKnown(rqs', q.log);
    assert AllCovered(rqs', q.log);
    if q.pend != q.run {
      var b :| 0 <= b < |q.log| && q.issued > 0 && q.log[b] == FlushIssued(q.issued - 1)
               && CoveredBy(q.fq[q.run], q.rqs, q.log, b);
      SameMind(q.log, id, q.rqs[id], r, b);
      assert CoveredBy(q.fq[q.run], rqs', q.log, b);
      assert Put(q, id, r).log[b] == FlushIssued(q.issued - 1);
    }
  }

  /** Data that has been written: what it ends or begins is justified. */
  lemma DataJustified(log: seq<Event>, id: Id, r: Rq, error: bool)
    requires Completing(r, Only(Data)) && CurSeq(r.mask) == Data && Known(log, id, r)
    ensures Justified(log + [DataDone(id, error)], id, r, Only(Data), error)
  {
    hide FlushBetween;
    var done := DataDone(id, error);
    var log1 := log + [done];
    var e := Arrival(id, Target(r, Only(Data), error), error);
    var log2 := log1 + [e];
    assert log2[|log1|] == e && log2[|log|] == done;
    if !error {
      var s :| 0 <= s < |log| && log[s] == Submitted(id, r.policy)
               && (r.policy.pre && StepOf(r) != Pre ==> FlushBetween(log, s, |log|, false));
      assert log2[s] == log[s];
      if r.policy.pre {
        BetweenExt(log, done, s, |log|, |log|, false);
        BetweenExt(log1, e, s, |log|, |log1|, false);
        BetweenExt(log1, e, s, |log|, |log2|, false);
      }
    }
  }

  lemma DoneOk(log: seq<Event>, e: Event)
    requires e.DataDone? || e.Submitted? || e.FlushIssued? || e.FlushDone?
    ensures Ok(log + [e], |log|)
  {
  }

  lemma PlainEnd(log: seq<Event>, id: Id, r: Rq, error: bool)
    requires r.policy == Mask(false, true, false, false) && Known(log, id, r)
    ensures Ok(log + [DataDone(id, error)] + [BioEnded(id, error)], |log| + 1)
  {
    var log2 := log + [DataDone(id, error)] + [BioEnded(id, error)];
    assert log2[|log| + 1] == BioEnded(id, error) && log2[|log|] == DataDone(id, error);
    var s :| 0 <= s < |log| && log[s] == Submitted(id, r.policy);
    assert log2[s] == log[s];
  }

  lemma DataEndHookedSound(q: Queue, id: Id, error: bool, now: int, hz: nat)
    requires Inv(q) && id in q.rqs && Cmd(id) in q.driver && SoundQueue(q) && q.rqs[id].hooked
    ensures SoundQueue(DataEnd(q, id, error, now, hz))
  {
    hide Lists, Heads, RqsOk, Flight, CompleteSeq, NoStall, Durable, Known, Covered, CoveredBy;
    hide Ready, Completing, Completes, Justified;
    DriverCompleting(q, id);
    var r := q.rqs[id].(busy := false);
    var l := if q.pend != q.run then q.pend else 1 - q.pend;
    DataDoneReady(q, id, error, l);
    var q0 := Put(q.(driver := q.driver - {Cmd(id)}), id, r);
    SoundPut(q.(driver := q.driver - {Cmd(id)}), id, r);
    var e := DataDone(id, error);
    DoneOk(q.log, e);
    SoundLog(q0.rqs, q0.log, e);
    FlyingLog(q0, e);
    DataJustified(q.log, id, r, error);
    CompleteSound(Log(q0, e), id, Only(Data), error, now, hz, l);
    SoundSame(CompleteSeq(Log(q0, e), id, Only(Data), error, now, hz), DataEnd(q, id, error, now, hz));
  }

  lemma DataEndPlainSound(q: Queue, id: Id, error: bool, now: int, hz: nat)
    requires Inv(q) && id in q.rqs && Cmd(id) in q.driver && SoundQueue(q) && !q.rqs[id].hooked
    ensures SoundQueue(DataEnd(q, id, error, now, hz))
  {
    hide Heads, RqsOk, Flight, CompleteSeq, NoStall, Durable, Known, Covered, CoveredBy, Ok;
    DriverCompleting(q, id);
    var r := q.rqs[id].(busy := false, ended := true);
    var e, f := DataDone(id, error), BioEnded(id, error);
    DoneOk(q.log, e);
    SoundLog(q.rqs, q.log, e);
    PlainEnd(q.log, id, q.rqs[id], error);
    PlainUnlinked(q, id);
    SoundExt(q.rqs, q.log + [e], f, id, r);
    var q' := DataEnd(q, id, error, now, hz);
    assert q'.rqs == q.rqs[id := r] && q'.log == q.log + [e] + [f];
    if q.pend != q.run {
      NotListed(q, id, q.run);
      var b :| 0 <= b < |q.log| && q.issued > 0 && q.log[b] == FlushIssued(q.issued - 1)
               && CoveredBy(q.fq[q.run], q.rqs, q.log, b);
      CoveredByLog(q.fq[q.run], q.rqs, q.log, b, e);
      CoveredByExt(q.fq[q.run], q.rqs, q.log + [e], b, f, id, r);
      assert q'.log[b] == q.log[b];
    }
  }

  lemma PlainUnlinked(q: Queue, id: Id)
    requires Inv(q) && id in q.rqs && !q.rqs[id].hooked
    ensures q.rqs[id].link == Unlinked
  {
    assert RqOk(q.rqs[id]);
  }

  /** A new request begins to wait for its first flush, or its data needs none before it. */
  lemma InsertJustified(log: seq<Event>, id: Id, policy: Mask)
    requires Completing(NewRq(policy, true), OtherActions(policy))
    ensures Justified(log + [Submitted(id, policy)], id, NewRq(policy, true), OtherActions(policy), false)
    ensures Target(NewRq(policy, true), OtherActions(policy), false) == if policy.pre then Pre else Data
  {
    var log1 := log + [Submitted(id, policy)];
    var e := Arrival(id, if policy.pre then Pre else Data, false);
    var log2 := log1 + [e];
    assert log2[|log1|] == e && log2[|log|] == Submitted(id, policy);
    assert Logged(log2, Submitted(id, policy), |log1|);
  }

  lemma SubmittedSound(q: Queue, id: Id, policy: Mask)
    requires SoundQueue(q) && id !in q.rqs && Lists(q)
    ensures SoundQueue(Put(Log(q, Submitted(id, policy)), id, NewRq(policy, true)))
  {
    hide Durable, Covered, CoveredBy, Ok;
    var e := Submitted(id, policy);
    var r := NewRq(policy, true);
    DoneOk(q.log, e);
    NewKnown(q.log, id, policy);
    SoundExt(q.rqs, q.log, e, id, r);
    NewFlying(q, [e], id, r);
  }

  lemma NewKnown(log: seq<Event>, id: Id, policy: Mask)
    ensures Known(log + [Submitted(id, policy)], id, NewRq(policy, true))
  {
    assert (log + [Submitted(id, policy)])[|log|] == Submitted(id, policy);
  }

  /** A request that is not in the queue yet is not waiting for the flush in flight. */
  lemma {:induction false} NewFlying(q: Queue, tail: seq<Event>, id: Id, r: Rq)
    requires Shape(q) && Flying(q) && Lists(q) && id !in q.rqs
    ensures Flying(Put(q.(log := q.log + tail), id, r))
  {
    hide Covered;
    if q.pend != q.run {
      var b :| 0 <= b < |q.log| && q.issued > 0 && q.log[b] == FlushIssued(q.issued - 1)
               && CoveredBy(q.fq[q.run], q.rqs, q.log, b);
      var q' := Put(q.(log := q.log + tail), id, r);
      assert q'.log[b] == q.log[b];
      forall j | j in q.fq[q.run]
        ensures j in q'.rqs && Covered(q'.log, j, q'.rqs[j], b)
      {
        CoveredTailExt(q.log, tail, j, q.rqs[j], b);
        assert j != id by { WaiterListed(q, j, q.run); }
      }
    }
  }

  lemma {:induction false} CoveredTailExt(log: seq<Event>, tail: seq<Event>, id: Id, r: Rq, b: int)
    requires Covered(log, id, r, b)
    ensures Covered(log + tail, id, r, b)
    decreases |tail|
  {
    hide Covered;
    if tail == [] {
      assert log + tail == log;
    } else {
      CoveredRange(log, id, r, b);
      CoveredExt(log, tail[0], id, r, b, b);
      CoveredTailExt(log + [tail[0]], tail[1..], id, r, b);
      assert log + tail == log + [tail[0]] + tail[1..];
    }
  }

  lemma CoveredRange(log: seq<Event>, id: Id, r: Rq, b: int)
    requires Covered(log, id, r, b)
    ensures b <= |log|
  {
  }

  lemma InsertSound(q: Queue, id: Id, policy: Mask, now: int, hz: nat)
    requires Inv(q) && id !in q.rqs && !policy.done && (policy.post ==> policy.data) && SoundQueue(q)
    requires policy.pre || policy.post
    ensures SoundQueue(Insert(q, id, policy, now, hz))
  {
    hide Lists, Heads, RqsOk, Flight, CompleteSeq, NoStall, Sound, Flying, Justified, Ready;
    var l := if q.pend != q.run then q.pend else 1 - q.pend;
    var q0 := Log(q, Submitted(id, policy));
    BaseSame(q, q0, l);
    NewReady(q0, id, policy, l);
    SubmittedSound(q, id, policy);
    InsertJustified(q.log, id, policy);
    CompleteSound(Put(q0, id, NewRq(policy, true)), id, OtherActions(policy), false, now, hz, l);
  }

  /** Requests that need no flush. */
  lemma InsertPlainSound(q: Queue, id: Id, policy: Mask, now: int, hz: nat)
    requires Inv(q) && id !in q.rqs && !policy.done && SoundQueue(q)
    requires !policy.pre && !policy.post
    ensures SoundQueue(Insert(q, id, policy, now, hz))
  {
    hide Heads, RqsOk, Flight, CompleteSeq, NoStall, Durable, Covered;
    var e := Submitted(id, policy);
    var f := if policy.data then DataIssued(id) else BioEnded(id, false);
    var r := if policy.data then NewRq(policy, false).(queued := true) else NewRq(policy, false).(ended := true);
    DoneOk(q.log, e);
    SoundLog(q.rqs, q.log, e);
    var log2 := q.log + [e] + [f];
    assert log2[|q.log|] == e && log2[|q.log| + 1] == f;
    assert Ok(log2, |q.log| + 1);
    assert Known(log2, id, r);
    SoundExt(q.rqs, q.log + [e], f, id, r);
    assert log2 == q.log + [e, f];
    NewFlying(q, [e, f], id, r);
  }

  lemma DispatchSound(q: Queue)
    requires Inv(q) && SoundQueue(q)
    ensures SoundQueue(Dispatch(q))
  {
    hide Lists, RqsOk, Flight, Spare, NoStall, Sound, Flying;
    if q.head != [] && q.head[0].Cmd? {
      var id := q.head[0].id;
      OwnedTaken(q.rqs, id, q.head, q.driver);
      SoundPut(q, id, Dispatch(q).rqs[id]);
      SoundSame(Put(q, id, Dispatch(q).rqs[id]), Dispatch(q));
    } else {
      SoundSame(q, Dispatch(q));
    }
  }

  lemma ActSound(q: Queue, a: Action, now: int, hz: nat)
    requires Inv(q) && Allowed(q, a) && SoundQueue(q)
    ensures SoundQueue(Act(q, a, now, hz))
  {
    hide Inv, Insert, Dispatch, DataEnd, FlushEnd, Sound, Flying;
    match a {
      case Submit(id, sectors, flush, fua, devFlush, devFua) =>
        var policy := Policy(sectors, flush, fua, devFlush, devFua);
        if policy.pre || policy.post {
          InsertSound(q, id, policy, now, hz);
        } else {
          InsertPlainSound(q, id, policy, now, hz);
        }
      case Take => DispatchSound(q);
      case HoldQueue => SoundSame(q, Hold(q));
      case CompleteData(id, error) =>
        DriverHolds(q, id);
        if q.rqs[id].hooked {
          DataEndHookedSound(q, id, error, now, hz);
        } else {
          DataEndPlainSound(q, id, error, now, hz);
        }
      case CompleteFlush(error) => FlushEndSound(q, error, now, hz);
    }
  }

  lemma {:induction false} RunSound(q: Queue, run: seq<Timed>, hz: nat)
    requires Inv(q) && Legal(q, run, hz) && SoundQueue(q)
    ensures SoundQueue(After(q, run, hz))
    decreases |run|
  {
    hide Inv, Act, SoundQueue;
    if run != [] {
      ActInv(q, run[0].action, run[0].now, hz);
      ActSound(q, run[0].action, run[0].now, hz);
      RunSound(Act(q, run[0].action, run[0].now, hz), run[1..], hz);
    }
  }

  lemma {:induction false} Durability(run: seq<Timed>, hz: nat)
    requires Legal(Init(), run, hz)
    ensures Durable(After(Init(), run, hz).log)
  {
    InitInv();
    hide Legal, After, Inv;
    RunSound(Init(), run, hz);
  }
}
