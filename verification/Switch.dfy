/** block/blk-core.c and block/elevator.c: the request list and the scheduler of a queue, updated in place. Each
    method is one region of the source and refines one step of SwitchModel. */
module Switch {
  import opened Common
  import opened SwitchModel

  datatype MayQueue = May | No | Must

  class RequestQueue {
    var nrRequests: nat
    var congestionOn: nat
    var slots: map<nat, Slot>
    var countSync: int
    var countAsync: int
    var starvedSync: bool
    var starvedAsync: bool
    var fullSync: bool
    var fullAsync: bool
    var elvpriv: int
    var elevator: nat
    var switching: bool
    ghost var peak: nat
    ghost var phase: Phase
    ghost var exited: set<nat>

    ghost function View(): Sw
      reads this
    {
      Sw(slots, countSync, countAsync, starvedSync, starvedAsync, nrRequests, peak, elvpriv, elevator, switching, phase,
         exited)
    }

    ghost predicate Valid()
      reads this
    {
      Inv(View()) && congestionOn == CongestionOn(nrRequests)
    }

    constructor (nr: nat, e: nat)
      ensures View() == Init(e, nr) && !fullSync && !fullAsync && Valid()
    {
      nrRequests, peak, congestionOn := nr, nr, CongestionOn(nr);
      slots, countSync, countAsync, starvedSync, starvedAsync := map[], 0, 0, false, false;
      fullSync, fullAsync, elvpriv, elevator, switching := false, false, 0, e, false;
      phase, exited := Idle, {};
      new;
      InitInv(e, nr);
    }

    method SetCount(sync: bool, n: int)
      modifies this`countSync, this`countAsync
      ensures View() == WithCount(old(View()), sync, n)
    {
      if sync {
        countSync := n;
      } else {
        countAsync := n;
      }
    }

    method SetStarved(sync: bool, s: bool)
      modifies this`starvedSync, this`starvedAsync
      ensures View() == WithStarved(old(View()), sync, s)
    {
      if sync {
        starvedSync := s;
      } else {
        starvedAsync := s;
      }
    }

    method SetFull(sync: bool, f: bool)
      modifies this`fullSync, this`fullAsync
      ensures (if sync then fullSync else fullAsync) == f
      ensures if sync then fullAsync == old(fullAsync) else fullSync == old(fullSync)
    {
      if sync {
        fullSync := f;
      } else {
        fullAsync := f;
      }
    }

    function Full(sync: bool): bool
      reads this
    {
      if sync then fullSync else fullAsync
    }

    /** The limits of get_request: at nr_requests the queue is marked full, and from then on only batching processes
        and those the scheduler insists on get through, up to half as many again */
    method LimitAllows(sync: bool, may: MayQueue, batching: bool) returns (ok: bool)
      requires congestionOn == CongestionOn(nrRequests)
      modifies this`fullSync, this`fullAsync
      ensures View() == old(View())
      ensures var count := Count(View(), sync);
              ok <==> count < 3 * nrRequests / 2
                      && (count + 1 >= nrRequests && old(Full(sync)) ==> may == Must || batching)
      ensures Full(sync) == (old(Full(sync)) || Count(View(), sync) + 1 >= nrRequests)
      ensures Full(!sync) == old(Full(!sync))
    {
      var count := if sync then countSync else countAsync;
      if count + 1 >= congestionOn {
        if count + 1 >= nrRequests {
          if !Full(sync) {
            SetFull(sync, true);
          } else if may != Must && !batching {
            return false;
          }
        }
      }
      return count < 3 * nrRequests / 2;
    }

    /** get_request up to where it drops the lock; batching says whether the process may go over the limit */
    method GetRequest(x: nat, sync: bool, wantsData: bool, may: MayQueue, batching: bool) returns (ok: bool)
      requires Valid() && x !in slots
      modifies this
      ensures ok <==> may != No && old(Count(View(), sync)) < 3 * old(nrRequests) / 2
                      && (old(Count(View(), sync)) + 1 >= old(nrRequests) && old(Full(sync)) ==>
                            may == Must || batching)
      ensures Full(sync) == (old(Full(sync)) || (may != No && old(Count(View(), sync)) + 1 >= old(nrRequests)))
      ensures Full(!sync) == old(Full(!sync))
      ensures ok ==> View() == Step(old(View()), Reserve(x, sync, wantsData))
      ensures !ok ==> View() == if may == No then Step(old(View()), Refuse(sync)) else old(View())
      ensures Valid()
    {
      hide Counted, Current, Phased, Within, Reserved;
      ghost var q := View();
      if may == No {
        StepInv(q, Refuse(sync));
        if (if sync then countSync else countAsync) == 0 {
          SetStarved(sync, true);
        }
        return false;
      }
      ok := LimitAllows(sync, may, batching);
      if ok {
        StepInv(q, Reserve(x, sync, wantsData));
        Take(x, sync, wantsData);
      }
    }

    method Take(x: nat, sync: bool, wantsData: bool)
      modifies this`slots, this`countSync, this`countAsync, this`starvedSync, this`starvedAsync, this`elvpriv
      ensures View() == Reserved(old(View()), x, sync, wantsData)
    {
      SetCount(sync, (if sync then countSync else countAsync) + 1);
      SetStarved(sync, false);
      var priv := false;
      if wantsData {
        priv := !switching;
        if priv {
          elvpriv := elvpriv + 1;
        }
      }
      slots := slots[x := Slot(sync, priv, Reserving, None)];
    }

    /** blk_alloc_request, without the lock: it succeeds, or leaves the reservation to be undone */
    method AllocRequest(x: nat, memory: bool, schedulerAgrees: bool) returns (ok: bool)
      requires Valid() && x in slots && slots[x].stage == Reserving
      modifies this
      ensures ok <==> memory && (old(slots)[x].priv ==> schedulerAgrees)
      ensures ok ==> View() == Step(old(View()), Fill(x))
      ensures !ok ==> View() == old(View())
      ensures Valid()
    {
      hide Counted, Current, Phased, Within;
      StepInv(View(), Fill(x));
      if !memory {
        return false;
      }
      var data: Option<nat> := None;
      if slots[x].priv {
        if !schedulerAgrees {
          return false;
        }
        data := Some(elevator);
      }
      slots := slots[x := slots[x].(stage := Allocated, data := data)];
      return true;
    }

    /** __freed_request: below the limit the queue is not full */
    method FreedOne(sync: bool)
      modifies this`fullSync, this`fullAsync
      ensures View() == old(View())
      ensures Full(sync) == (old(Full(sync)) && Count(View(), sync) + 1 > nrRequests)
      ensures Full(!sync) == old(Full(!sync))
    {
      if (if sync then countSync else countAsync) + 1 <= nrRequests {
        SetFull(sync, false);
      }
    }

    /** freed_request: the direction of the request is looked at, and the other one if it is starved */
    method FreedRequest(x: nat)
      requires x in slots
      modifies this`slots, this`countSync, this`countAsync, this`elvpriv, this`fullSync, this`fullAsync
      ensures View() == Released(old(View()), x)
      ensures var sync := old(slots[x].sync);
              && Full(sync) == (old(Full(sync)) && Count(View(), sync) + 1 > nrRequests)
              && Full(!sync) == (old(Full(!sync)) && !(Starved(!sync) && Count(View(), !sync) + 1 <= nrRequests))
    {
      var sync, priv := slots[x].sync, slots[x].priv;
      SetCount(sync, (if sync then countSync else countAsync) - 1);
      if priv {
        elvpriv := elvpriv - 1;
      }
      slots := slots - {x};
      FreedOne(sync);
      if Starved(!sync) {
        FreedOne(!sync);
      }
    }

    function Starved(sync: bool): bool
      reads this
    {
      if sync then starvedSync else starvedAsync
    }

    /** queue_requests_store: a new limit, not below BLKDEV_MIN_RQ, and the full flags that go with it */
    method SetRequests(wanted: nat)
      requires Valid()
      modifies this`nrRequests, this`peak, this`congestionOn, this`fullSync, this`fullAsync
      ensures nrRequests == (if wanted < BLKDEV_MIN_RQ then BLKDEV_MIN_RQ else wanted)
      ensures View() == Step(old(View()), SetLimit(nrRequests))
      ensures fullSync == (countSync >= nrRequests) && fullAsync == (countAsync >= nrRequests)
      ensures Valid()
    {
      hide Counted, Current, Phased, Within, CongestionOn;
      var nr := if wanted < BLKDEV_MIN_RQ then BLKDEV_MIN_RQ else wanted;
      StepInv(View(), SetLimit(nr));
      nrRequests := nr;
      peak := if nr > peak then nr else peak;
      congestionOn := CongestionOn(nr);
      assert View() == Limited(old(View()), nr);
      RefillFlags();
    }

    method RefillFlags()
      modifies this`fullSync, this`fullAsync
      ensures View() == old(View())
      ensures fullSync == (countSync >= nrRequests) && fullAsync == (countAsync >= nrRequests)
    {
      SetFull(true, countSync >= nrRequests);
      SetFull(false, countAsync >= nrRequests);
    }

    /** The end of get_request when the allocation failed */
    method UndoReserve(x: nat)
      requires Valid() && x in slots && slots[x].stage == Reserving
      modifies this
      ensures View() == Step(old(View()), Fail(x))
      ensures Valid()
    {
      hide Counted, Current, Phased, Within;
      StepInv(View(), Fail(x));
      var sync := slots[x].sync;
      FreedRequest(x);
      if (if sync then countSync else countAsync) == 0 {
        SetStarved(sync, true);
      }
    }

    /** __blk_put_request, last reference: private data goes back to the scheduler in use, which is its owner */
    method PutRequest(x: nat)
      requires Valid() && Allowed(View(), Put(x))
      modifies this
      ensures old(slots[x].data.Some?) ==> old(slots[x].data.value) == old(elevator)
      ensures View() == Step(old(View()), Put(x))
      ensures Valid()
    {
      StepInv(View(), Put(x));
      hide Counted, Phased, Within;
      FreedRequest(x);
    }

    /** __elv_add_request for a sorted insert */
    method AddRequest(x: nat)
      requires Valid() && Allowed(View(), Insert(x))
      modifies this
      ensures View() == Step(old(View()), Insert(x))
      ensures Valid()
    {
      hide Counted, Current, Phased, Within;
      StepInv(View(), Insert(x));
      if slots[x].priv {
        slots := slots[x := slots[x].(stage := Scheduled)];
      } else {
        slots := slots[x := slots[x].(stage := Issued)];
      }
    }

    /** elv_drain_elevator: what the scheduler holds goes out, request by request */
    method DrainElevator()
      requires Valid()
      modifies this`slots
      ensures View() == Step(old(View()), Drain)
      ensures Valid()
    {
      hide Counted, Current, Phased, Within, DrainedBut, Outgoing;
      StepInv(View(), Drain);
      ghost var all := slots;
      var rest := set x | x in slots && slots[x].stage == Scheduled;
      DrainStart(all, rest);
      while rest != {}
        invariant DrainedBut(all, slots, rest)
        decreases |rest|
      {
        var x :| x in rest;
        DrainOne(all, slots, rest, x);
        slots := slots[x := slots[x].(stage := Issued)];
        rest := rest - {x};
      }
      DrainDone(all, slots);
    }

    /** elv_quiesce_start, up to its wait */
    method QuiesceStart(next: nat)
      requires Valid() && Allowed(View(), Start(next))
      modifies this
      ensures View() == Step(old(View()), Start(next))
      ensures Valid()
    {
      hide Counted, Current, Phased, Within;
      StepInv(View(), Start(next));
      DrainElevator();
      switching := true;
      phase := Quiescing(next);
    }

    /** One round of the wait in elv_quiesce_start: drain, and attach once no private data is left */
    method TryAttach(next: nat) returns (done: bool)
      requires Valid() && phase == Quiescing(next)
      modifies this
      ensures done <==> old(elvpriv) == 0
      ensures View() == Step(old(View()), if done then Attach else Drain)
      ensures done ==> elevator == next && Unowned(View())
      ensures Valid()
    {
      ghost var q := View();
      StepInv(q, Drain);
      DrainElevator();
      if elvpriv != 0 {
        return false;
      }
      StepInv(q, Attach);
      NonePrivate(View());
      phase := Attached(elevator);
      elevator := next;
      return true;
    }

    /** elevator_exit of the old scheduler, once the new one is registered; the lock is not held */
    method ExitOldElevator(prior: nat)
      requires Valid() && phase == Attached(prior)
      modifies this`phase, this`exited
      ensures View() == Step(old(View()), ExitOld)
      ensures Unowned(View()) && elevator !in exited && prior in exited
      ensures Valid()
    {
      StepInv(View(), ExitOld);
      NonePrivate(View());
      exited := exited + {prior};
      phase := OldExited;
    }

    /** elevator_exit of the new scheduler, when it could not be registered; the lock is not held, and the queue still
        points to it */
    method ExitNewElevator(prior: nat)
      requires Valid() && phase == Attached(prior)
      modifies this`phase, this`exited
      ensures View() == Step(old(View()), ExitNew)
      ensures Unowned(View()) && elevator in exited && prior !in exited
      ensures Valid()
    {
      StepInv(View(), ExitNew);
      NonePrivate(View());
      exited := exited + {elevator};
      phase := NewExited(prior);
    }

    /** The old scheduler is put back; the lock is not held */
    method PutBackElevator(prior: nat)
      requires Valid() && phase == NewExited(prior)
      modifies this`phase, this`elevator
      ensures View() == Step(old(View()), PutBack)
      ensures elevator == prior && Unowned(View()) && elevator !in exited
      ensures Valid()
    {
      StepInv(View(), PutBack);
      NonePrivate(View());
      elevator := prior;
      phase := OldBack;
    }

    /** elv_quiesce_end, and the same at the end of fail_register */
    method QuiesceEnd()
      requires Valid() && (phase.OldExited? || phase.OldBack?)
      modifies this`phase, this`switching
      ensures View() == Step(old(View()), Clear)
      ensures !switching && elevator !in exited && Valid()
    {
      hide Counted, Current, Within;
      StepInv(View(), Clear);
      switching := false;
      phase := Idle;
    }
  }

  /** blk_queue_congestion_threshold */
  function CongestionOn(nr: nat): (on: nat)
    ensures on <= nr
  {
    if nr - nr / 8 + 1 > nr then nr else nr - nr / 8 + 1
  }

  /** Everything the scheduler held has gone out, but for what is still to go. */
  ghost predicate DrainedBut(all: map<nat, Slot>, now: map<nat, Slot>, rest: set<nat>) {
    && now.Keys == all.Keys && rest <= all.Keys
    && (forall x | x in rest :: now[x] == all[x] && all[x].stage == Scheduled)
    && forall x | x in all && x !in rest ::
         now[x] == if all[x].stage == Scheduled then all[x].(stage := Issued) else all[x]
  }

  lemma DrainStart(all: map<nat, Slot>, rest: set<nat>)
    requires rest == set x | x in all && all[x].stage == Scheduled
    ensures DrainedBut(all, all, rest)
  {
  }

  lemma DrainOne(all: map<nat, Slot>, now: map<nat, Slot>, rest: set<nat>, x: nat)
    requires DrainedBut(all, now, rest) && x in rest
    ensures x in now && DrainedBut(all, now[x := now[x].(stage := Issued)], rest - {x})
  {
  }

  lemma DrainDone(all: map<nat, Slot>, now: map<nat, Slot>)
    requires DrainedBut(all, now, {})
    ensures now == Outgoing(all)
  {
  }
}
