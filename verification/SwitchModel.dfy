/** Changing the scheduler of a running queue: request allocation in block/blk-core.c against elevator_switch in
    block/elevator.c. Each region under the queue lock is one step, and so is each part of request allocation and
    each statement of elevator_switch that runs without the lock, so that a run is any interleaving. */
module SwitchModel {
  import opened Common

  /** How far a request has come: counted but not yet allocated, allocated, with the scheduler, or past it */
  datatype Stage = Reserving | Allocated | Scheduled | Issued

  /** An outstanding request or reservation; data names the scheduler whose private data it holds */
  datatype Slot = Slot(sync: bool, priv: bool, stage: Stage, data: Option<nat>)

  /** Where elevator_switch is: not running; waiting for requests with private data to drain; with the new scheduler
      attached; with the old one exited; or, when the new one could not be registered, with the new one exited but
      still attached, and then with the old one put back */
  datatype Phase = Idle | Quiescing(next: nat) | Attached(prior: nat) | OldExited | NewExited(prior: nat) | OldBack

  /** The request list with its limit nr and the highest limit it ever had, the scheduler in use, the
      QUEUE_FLAG_ELVSWITCH flag, and the schedulers already exited */
  datatype Sw = Sw(slots: map<nat, Slot>, countSync: int, countAsync: int, starvedSync: bool, starvedAsync: bool,
                   nr: nat, peak: nat, elvpriv: int, elevator: nat, switching: bool, phase: Phase, exited: set<nat>)

  function Count(q: Sw, sync: bool): int { if sync then q.countSync else q.countAsync }

  function WithCount(q: Sw, sync: bool, n: int): Sw {
    if sync then q.(countSync := n) else q.(countAsync := n)
  }

  function WithStarved(q: Sw, sync: bool, s: bool): Sw {
    if sync then q.(starvedSync := s) else q.(starvedAsync := s)
  }

  /** get_request under the lock: the request is counted, and counted as private unless a switch is running */
  function Reserved(q: Sw, x: nat, sync: bool, wantsData: bool): Sw {
    var priv := wantsData && !q.switching;
    var p := WithStarved(WithCount(q, sync, Count(q, sync) + 1), sync, false);
    p.(slots := q.slots[x := Slot(sync, priv, Reserving, None)], elvpriv := q.elvpriv + if priv then 1 else 0)
  }

  /** blk_alloc_request without the lock: private data comes from the scheduler in use at that moment */
  function Filled(q: Sw, x: nat): Sw
    requires x in q.slots
  {
    var s := q.slots[x];
    q.(slots := q.slots[x := s.(stage := Allocated, data := if s.priv then Some(q.elevator) else None)])
  }

  /** freed_request */
  function Released(q: Sw, x: nat): Sw
    requires x in q.slots
  {
    var s := q.slots[x];
    WithCount(q, s.sync, Count(q, s.sync) - 1)
      .(slots := q.slots - {x}, elvpriv := q.elvpriv - if s.priv then 1 else 0)
  }

  /** The tail of get_request after a failed allocation: with nothing else outstanding, ask to be noticed */
  function Failed(q: Sw, x: nat): Sw
    requires x in q.slots
  {
    NoteStarved(Released(q, x), q.slots[x].sync)
  }

  function NoteStarved(q: Sw, sync: bool): Sw {
    if Count(q, sync) == 0 then WithStarved(q, sync, true) else q
  }

  /** __elv_add_request: what has no private data bypasses the scheduler */
  function Inserted(q: Sw, x: nat): Sw
    requires x in q.slots
  {
    var s := q.slots[x];
    q.(slots := q.slots[x := s.(stage := if s.priv then Scheduled else Issued)])
  }

  function Outgoing(slots: map<nat, Slot>): map<nat, Slot> {
    map x | x in slots :: if slots[x].stage == Scheduled then slots[x].(stage := Issued) else slots[x]
  }

  /** elv_drain_elevator */
  function Drained(q: Sw): Sw { q.(slots := Outgoing(q.slots)) }

  /** elv_quiesce_start: the flag, and a first drain */
  function Quiesced(q: Sw, next: nat): Sw {
    Drained(q).(switching := true, phase := Quiescing(next))
  }

  /** Once no private data is left, elevator_attach */
  function AttachedNew(q: Sw): Sw
    requires q.phase.Quiescing?
  {
    Drained(q).(elevator := q.phase.next, phase := Attached(q.elevator))
  }

  /** The new scheduler is registered: elevator_exit of the old one, without the lock */
  function ExitedOld(q: Sw): Sw
    requires q.phase.Attached?
  {
    q.(exited := q.exited + {q.phase.prior}, phase := OldExited)
  }

  /** fail_register: elevator_exit of the new scheduler, which the queue still points to, without the lock */
  function ExitedNew(q: Sw): Sw
    requires q.phase.Attached?
  {
    q.(exited := q.exited + {q.elevator}, phase := NewExited(q.phase.prior))
  }

  /** The old scheduler is put back, without the lock */
  function Restored(q: Sw): Sw
    requires q.phase.NewExited?
  {
    q.(elevator := q.phase.prior, phase := OldBack)
  }

  /** elv_quiesce_end, or the same at the end of fail_register */
  function Cleared(q: Sw): Sw { q.(phase := Idle, switching := false) }

  /** queue_requests_store: the limit never goes below BLKDEV_MIN_RQ */
  function Limited(q: Sw, nr: nat): Sw { q.(nr := nr, peak := if nr > q.peak then nr else q.peak) }

  // ---------------------------------------------------------------------------------------
  // Steps

  datatype Action = Reserve(x: nat, sync: bool, wantsData: bool) | Refuse(sync: bool) | Fill(x: nat) | Fail(x: nat)
                  | Insert(x: nat) | Issue(x: nat) | Put(x: nat) | Drain | SetLimit(nr: nat)
                  | Start(next: nat) | Attach | ExitOld | ExitNew | PutBack | Clear

  /** A new scheduler is a new object. Everything but the switch itself may happen at any point of it. */
  predicate Allowed(q: Sw, a: Action) {
    match a
    case Reserve(x, sync, wantsData) => x !in q.slots && Count(q, sync) < 3 * q.nr / 2
    case Refuse(sync) => true
    case Fill(x) => x in q.slots && q.slots[x].stage == Reserving
    case Fail(x) => x in q.slots && q.slots[x].stage == Reserving
    case Insert(x) => x in q.slots && q.slots[x].stage == Allocated
    case Issue(x) => x in q.slots && q.slots[x].stage == Scheduled
    case Put(x) => x in q.slots && (q.slots[x].stage == Allocated || q.slots[x].stage == Issued)
    case Drain => true
    case Start(next) => q.phase.Idle? && next != q.elevator && next !in q.exited
    case Attach => q.phase.Quiescing? && q.elvpriv == 0
    case SetLimit(nr) => nr >= BLKDEV_MIN_RQ
    case ExitOld => q.phase.Attached?
    case ExitNew => q.phase.Attached?
    case PutBack => q.phase.NewExited?
    case Clear => q.phase.OldExited? || q.phase.OldBack?
  }

  function Step(q: Sw, a: Action): Sw
    requires Allowed(q, a)
  {
    match a
    case Reserve(x, sync, wantsData) => Reserved(q, x, sync, wantsData)
    case Refuse(sync) => NoteStarved(q, sync)
    case Fill(x) => Filled(q, x)
    case Fail(x) => Failed(q, x)
    case Insert(x) => Inserted(q, x)
    case Issue(x) => q.(slots := q.slots[x := q.slots[x].(stage := Issued)])
    case Put(x) => Released(q, x)
    case Drain => Drained(q)
    case Start(next) => Quiesced(q, next)
    case Attach => AttachedNew(q)
    case SetLimit(nr) => Limited(q, nr)
    case ExitOld => ExitedOld(q)
    case ExitNew => ExitedNew(q)
    case PutBack => Restored(q)
    case Clear => Cleared(q)
  }

  // ---------------------------------------------------------------------------------------
  // The invariant

  function Privs(slots: map<nat, Slot>): set<nat> { set x | x in slots && slots[x].priv }
  function Syncs(slots: map<nat, Slot>, sync: bool): set<nat> { set x | x in slots && slots[x].sync == sync }

  /** elvpriv counts exactly the reservations that hold or will hold private data, the two counts all others. */
  ghost predicate Counted(q: Sw) {
    && q.elvpriv == |Privs(q.slots)|
    && q.countSync == |Syncs(q.slots, true)| && q.countAsync == |Syncs(q.slots, false)|
    && (q.starvedSync ==> q.countSync == 0) && (q.starvedAsync ==> q.countAsync == 0)
  }

  /** Private data is that of the scheduler in use, and only requests with private data are with the scheduler. */
  predicate SlotOk(s: Slot, elevator: nat) {
    && (s.data.Some? ==> s.priv && s.data.value == elevator)
    && (s.stage == Scheduled ==> s.priv)
    && (s.priv && s.stage != Reserving ==> s.data.Some?)
  }

  ghost predicate Current(slots: map<nat, Slot>, elevator: nat) {
    forall x | x in slots :: SlotOk(slots[x], elevator)
  }

  /** From the attachment to the end of a switch. */
  predicate Switched(p: Phase) { !p.Idle? && !p.Quiescing? }

  /** The queue points to an exited scheduler exactly between the exit of a new scheduler that could not be registered
      and the return of the old one; and after the attachment nobody has private data. */
  ghost predicate Phased(q: Sw) {
    && (q.switching <==> !q.phase.Idle?)
    && (q.elevator in q.exited <==> q.phase.NewExited?)
    && (q.phase.Quiescing? ==> q.phase.next != q.elevator && q.phase.next !in q.exited)
    && (q.phase.Attached? || q.phase.NewExited? ==> q.phase.prior != q.elevator && q.phase.prior !in q.exited)
    && (Switched(q.phase) ==> q.elvpriv == 0)
  }

  ghost predicate Within(q: Sw) {
    q.nr <= q.peak && q.countSync <= 3 * q.peak / 2 && q.countAsync <= 3 * q.peak / 2
  }

  ghost predicate Inv(q: Sw) { Counted(q) && Current(q.slots, q.elevator) && Phased(q) && Within(q) }

  function Init(elevator: nat, nr: nat): Sw {
    Sw(map[], 0, 0, false, false, nr, nr, 0, elevator, false, Idle, {})
  }

  lemma InitInv(elevator: nat, nr: nat)
    ensures Inv(Init(elevator, nr))
  {
    assert Privs(map[]) == {} && Syncs(map[], true) == {} && Syncs(map[], false) == {};
  }

  /** Adding or removing one member changes a count by one. */
  lemma AddOne(a: set<nat>, b: set<nat>, x: nat)
    requires x !in a && b == a + {x}
    ensures |b| == |a| + 1
  {
  }

  lemma SetsAfterAdd(slots: map<nat, Slot>, x: nat, s: Slot)
    requires x !in slots
    ensures Privs(slots[x := s]) == if s.priv then Privs(slots) + {x} else Privs(slots)
    ensures forall sync :: Syncs(slots[x := s], sync)
                           == if s.sync == sync then Syncs(slots, sync) + {x} else Syncs(slots, sync)
  {
  }

  lemma SetsAfterRemove(slots: map<nat, Slot>, x: nat)
    requires x in slots
    ensures Privs(slots) == if slots[x].priv then Privs(slots - {x}) + {x} else Privs(slots - {x})
    ensures forall sync :: Syncs(slots, sync)
                           == if slots[x].sync == sync then Syncs(slots - {x}, sync) + {x} else Syncs(slots - {x}, sync)
  {
  }

  /** A step that keeps who is there, in which direction and with which kind of reservation keeps the counts. */
  lemma SameSets(a: map<nat, Slot>, b: map<nat, Slot>)
    requires a.Keys == b.Keys && forall x | x in a :: a[x].priv == b[x].priv && a[x].sync == b[x].sync
    ensures Privs(a) == Privs(b) && forall sync :: Syncs(a, sync) == Syncs(b, sync)
  {
  }

  lemma ReserveCounted(q: Sw, x: nat, sync: bool, wantsData: bool)
    requires Counted(q) && x !in q.slots
    ensures Counted(Reserved(q, x, sync, wantsData))
  {
    hide Privs, Syncs;
    var priv := wantsData && !q.switching;
    SetsAfterAdd(q.slots, x, Slot(sync, priv, Reserving, None));
    NotCounted(q.slots, x);
    AddOne(Syncs(q.slots, sync), Syncs(q.slots, sync) + {x}, x);
    AddOne(Privs(q.slots), Privs(q.slots) + {x}, x);
  }

  lemma NotCounted(slots: map<nat, Slot>, x: nat)
    requires x !in slots
    ensures x !in Privs(slots) && forall sync :: x !in Syncs(slots, sync)
  {
  }

  lemma ReleaseCounted(q: Sw, x: nat)
    requires Counted(q) && x in q.slots
    ensures Counted(Released(q, x)) && Count(Released(q, x), q.slots[x].sync) < Count(q, q.slots[x].sync)
    ensures q.slots[x].priv ==> q.elvpriv >= 1
  {
    hide Privs, Syncs;
    var rest := q.slots - {x};
    SetsAfterRemove(q.slots, x);
    NotCounted(rest, x);
    AddOne(Syncs(rest, q.slots[x].sync), Syncs(rest, q.slots[x].sync) + {x}, x);
    AddOne(Privs(rest), Privs(rest) + {x}, x);
  }

  lemma NonePrivate(q: Sw)
    requires Counted(q) && q.elvpriv == 0
    ensures forall x | x in q.slots :: !q.slots[x].priv
  {
    forall x | x in q.slots
      ensures !q.slots[x].priv
    {
      assert x !in Privs(q.slots);
    }
  }

  lemma SlotCounted(q: Sw, x: nat, s: Slot)
    requires Counted(q) && x in q.slots && s.priv == q.slots[x].priv && s.sync == q.slots[x].sync
    ensures Counted(q.(slots := q.slots[x := s]))
  {
    SameSets(q.slots, q.slots[x := s]);
  }

  lemma StarvedCounted(q: Sw, sync: bool)
    requires Counted(q)
    ensures Counted(NoteStarved(q, sync))
  {
  }

  lemma DrainedCounted(q: Sw)
    requires Counted(q)
    ensures Counted(Drained(q))
  {
    SameSets(q.slots, Outgoing(q.slots));
  }

  /** The switch itself and the limit play no part in the counts. */
  lemma CountedSame(q: Sw, p: Sw)
    requires Counted(q) && p.slots == q.slots && p.elvpriv == q.elvpriv
    requires p.countSync == q.countSync && p.countAsync == q.countAsync
    requires p.starvedSync == q.starvedSync && p.starvedAsync == q.starvedAsync
    ensures Counted(p)
  {
  }

  lemma StepCounted(q: Sw, a: Action)
    requires Counted(q) && Allowed(q, a)
    ensures Counted(Step(q, a))
  {
    hide Counted, Outgoing, NoteStarved, Reserved, Released;
    match a
    case Reserve(x, sync, wantsData) => ReserveCounted(q, x, sync, wantsData);
    case Refuse(sync) => StarvedCounted(q, sync);
    case Fill(x) => SlotCounted(q, x, Filled(q, x).slots[x]);
    case Fail(x) =>
      ReleaseCounted(q, x);
      StarvedCounted(Released(q, x), q.slots[x].sync);
    case Insert(x) => SlotCounted(q, x, Inserted(q, x).slots[x]);
    case Issue(x) => SlotCounted(q, x, q.slots[x].(stage := Issued));
    case Put(x) => ReleaseCounted(q, x);
    case Drain => DrainedCounted(q);
    case Start(next) =>
      DrainedCounted(q);
      CountedSame(Drained(q), Step(q, a));
    case Attach =>
      DrainedCounted(q);
      CountedSame(Drained(q), Step(q, a));
    case _ => CountedSame(q, Step(q, a));
  }

  predicate SameSwitch(q: Sw, p: Sw) {
    p.elevator == q.elevator && p.switching == q.switching && p.phase == q.phase && p.exited == q.exited
    && p.nr == q.nr && p.peak == q.peak
  }

  lemma ReservedFrame(q: Sw, x: nat, sync: bool, wantsData: bool)
    ensures var p := Reserved(q, x, sync, wantsData);
            && SameSwitch(q, p)
            && p.slots == q.slots[x := Slot(sync, wantsData && !q.switching, Reserving, None)]
            && Count(p, sync) == Count(q, sync) + 1 && Count(p, !sync) == Count(q, !sync)
            && p.elvpriv == q.elvpriv + if wantsData && !q.switching then 1 else 0
  {
  }

  lemma ReleasedFrame(q: Sw, x: nat)
    requires x in q.slots
    ensures var p := Released(q, x);
            && SameSwitch(q, p) && p.slots == q.slots - {x}
            && Count(p, q.slots[x].sync) == Count(q, q.slots[x].sync) - 1
            && Count(p, !q.slots[x].sync) == Count(q, !q.slots[x].sync)
            && p.elvpriv == q.elvpriv - if q.slots[x].priv then 1 else 0
  {
  }

  lemma StarvedFrame(q: Sw, sync: bool)
    ensures var p := NoteStarved(q, sync);
            && SameSwitch(q, p) && p.slots == q.slots && p.elvpriv == q.elvpriv
            && p.countSync == q.countSync && p.countAsync == q.countAsync
  {
  }

  /** What a step of allocation or release does to the counts, and that it leaves the switch alone. */
  lemma StepFrame(q: Sw, a: Action)
    requires Allowed(q, a) && (a.Reserve? || a.Refuse? || a.Fail? || a.Put?)
    ensures SameSwitch(q, Step(q, a))
    ensures a.Reserve? ==> Count(Step(q, a), a.sync) == Count(q, a.sync) + 1
                           && Count(Step(q, a), !a.sync) == Count(q, !a.sync)
    ensures !a.Reserve? ==> Step(q, a).countSync <= q.countSync && Step(q, a).countAsync <= q.countAsync
    ensures match a
            case Reserve(x, sync, wantsData) =>
              && Step(q, a).slots == q.slots[x := Slot(sync, wantsData && !q.switching, Reserving, None)]
              && Step(q, a).elvpriv == q.elvpriv + if wantsData && !q.switching then 1 else 0
            case Refuse(_) => Step(q, a).slots == q.slots && Step(q, a).elvpriv == q.elvpriv
            case _ => Step(q, a).slots == q.slots - {a.x}
                      && Step(q, a).elvpriv == q.elvpriv - if q.slots[a.x].priv then 1 else 0
  {
    hide Reserved, Released, NoteStarved;
    match a
    case Reserve(x, sync, wantsData) => ReservedFrame(q, x, sync, wantsData);
    case Refuse(sync) => StarvedFrame(q, sync);
    case Fail(x) =>
      ReleasedFrame(q, x);
      StarvedFrame(Released(q, x), q.slots[x].sync);
    case Put(x) => ReleasedFrame(q, x);
  }

  lemma PutCurrent(slots: map<nat, Slot>, elevator: nat, x: nat, s: Slot)
    requires Current(slots, elevator)
    ensures SlotOk(s, elevator) ==> Current(slots[x := s], elevator)
    ensures Current(slots - {x}, elevator)
  {
  }

  lemma OutgoingCurrent(slots: map<nat, Slot>, elevator: nat)
    requires Current(slots, elevator)
    ensures Current(Outgoing(slots), elevator)
  {
  }

  /** Where nobody has private data, the scheduler may change. */
  lemma NoneCurrent(q: Sw, elevator: nat)
    requires Counted(q) && Current(q.slots, q.elevator) && q.elvpriv == 0
    ensures Current(q.slots, elevator)
  {
    hide Counted;
    NonePrivate(q);
  }

  lemma StepCurrent(q: Sw, a: Action)
    requires Counted(q) && Current(q.slots, q.elevator) && Allowed(q, a) && (a.Attach? || a.PutBack? ==> q.elvpriv == 0)
    ensures Current(Step(q, a).slots, Step(q, a).elevator)
  {
    hide Counted, Outgoing, Current, SlotOk, Reserved, Released, NoteStarved;
    if a.Reserve? || a.Refuse? || a.Fail? || a.Put? {
      StepFrame(q, a);
    }
    var slots, e := q.slots, q.elevator;
    match a
    case Reserve(x, sync, wantsData) =>
      var s := Slot(sync, wantsData && !q.switching, Reserving, None);
      assert SlotOk(s, e) by { FreshSlot(s, e); }
      PutCurrent(slots, e, x, s);
    case Fill(x) => MoveCurrent(q, x, slots[x].(stage := Allocated, data := if slots[x].priv then Some(e) else None));
    case Fail(x) => PutCurrent(slots, e, x, slots[x]);
    case Insert(x) => MoveCurrent(q, x, slots[x].(stage := if slots[x].priv then Scheduled else Issued));
    case Issue(x) => MoveCurrent(q, x, slots[x].(stage := Issued));
    case Put(x) => PutCurrent(slots, e, x, slots[x]);
    case Drain => OutgoingCurrent(slots, e);
    case Start(next) => OutgoingCurrent(slots, e);
    case Attach =>
      NoneCurrent(q, q.phase.next);
      OutgoingCurrent(slots, q.phase.next);
    case PutBack => NoneCurrent(q, q.phase.prior);
    case _ =>
  }

  lemma FreshSlot(s: Slot, e: nat)
    requires s.data.None? && s.stage == Reserving
    ensures SlotOk(s, e)
  {
  }

  /** The three ways in which a request moves on. */
  lemma MoveCurrent(q: Sw, x: nat, s: Slot)
    requires Current(q.slots, q.elevator) && x in q.slots && s.priv == q.slots[x].priv
    requires || (q.slots[x].stage == Reserving && s.stage == Allocated
                 && s.data == if s.priv then Some(q.elevator) else None)
             || (s.data == q.slots[x].data && q.slots[x].stage == Allocated
                 && s.stage == if s.priv then Scheduled else Issued)
             || (s.data == q.slots[x].data && q.slots[x].stage == Scheduled && s.stage == Issued)
    ensures Current(q.slots[x := s], q.elevator)
  {
    assert SlotOk(q.slots[x], q.elevator);
    PutCurrent(q.slots, q.elevator, x, s);
  }

  lemma StepPhased(q: Sw, a: Action)
    requires Counted(q) && Phased(q) && Allowed(q, a)
    ensures Phased(Step(q, a))
  {
    hide Counted, Outgoing, Reserved, Released, NoteStarved;
    if a.Reserve? || a.Refuse? || a.Fail? || a.Put? {
      StepFrame(q, a);
    }
    if a.Put? || a.Fail? {
      ReleaseCounted(q, a.x);
    }
  }

  lemma StepWithin(q: Sw, a: Action)
    requires Within(q) && Allowed(q, a)
    ensures Within(Step(q, a))
  {
    hide Outgoing, Reserved, Released, NoteStarved;
    if a.Reserve? || a.Refuse? || a.Fail? || a.Put? {
      StepFrame(q, a);
    }
  }

  lemma StepInv(q: Sw, a: Action)
    requires Inv(q) && Allowed(q, a)
    ensures Inv(Step(q, a))
  {
    hide Counted, Current, Within, Step;
    StepCounted(q, a);
    StepCurrent(q, a);
    StepPhased(q, a);
    StepWithin(q, a);
  }

  // ---------------------------------------------------------------------------------------
  // Runs

  predicate Legal(q: Sw, acts: seq<Action>)
    decreases |acts|
  {
    acts == [] || (Allowed(q, acts[0]) && Legal(Step(q, acts[0]), acts[1..]))
  }

  function After(q: Sw, acts: seq<Action>): Sw
    requires Legal(q, acts)
    decreases |acts|
  {
    if acts == [] then q else After(Step(q, acts[0]), acts[1..])
  }

  lemma {:induction false} RunKeepsInv(q: Sw, acts: seq<Action>)
    requires Inv(q) && Legal(q, acts)
    ensures Inv(After(q, acts))
    decreases |acts|
  {
    hide Inv, Step, Allowed;
    if acts != [] {
      StepInv(q, acts[0]);
      RunKeepsInv(Step(q, acts[0]), acts[1..]);
    }
  }

  /** Nothing belongs to any scheduler: no request holds private data, and none is queued with a scheduler. */
  ghost predicate Unowned(q: Sw) {
    forall x | x in q.slots :: q.slots[x].data.None? && q.slots[x].stage != Scheduled
  }

  /** Over every interleaving of allocation, failure, insertion, completion, changes of the limit and every statement
      of elevator_switch: elvpriv counts exactly the reservations for scheduler data; every request that has such
      data has that of the scheduler in use, which has not been exited, so it is given back to the scheduler it came
      from; from the attachment to the end of a switch, failed or not, nothing belongs to any scheduler, the old or the
      new; and the queue points to an exited scheduler exactly while a failed switch has not yet put the old one
      back. */
  lemma SwitchIsSafe(elevator: nat, nr: nat, acts: seq<Action>)
    requires Legal(Init(elevator, nr), acts)
    ensures var q := After(Init(elevator, nr), acts);
            && q.elvpriv == |Privs(q.slots)|
            && (forall x | x in q.slots && q.slots[x].data.Some? ::
                  q.slots[x].data.value == q.elevator && q.elevator !in q.exited)
            && (forall x | x in q.slots && q.slots[x].stage == Scheduled :: q.slots[x].data == Some(q.elevator))
            && (Switched(q.phase) ==> Unowned(q))
            && (q.elevator in q.exited <==> q.phase.NewExited?)
            && q.countSync <= 3 * q.peak / 2 && q.countAsync <= 3 * q.peak / 2
  {
    InitInv(elevator, nr);
    RunKeepsInv(Init(elevator, nr), acts);
    hide Legal, After, Privs, Syncs;
    var q := After(Init(elevator, nr), acts);
    if q.elvpriv == 0 {
      NonePrivate(q);
    }
  }

  // ---------------------------------------------------------------------------------------
  // When a queue points to an exited scheduler

  /** In no state of the run, from the first to the last, does the queue point to an exited scheduler. */
  ghost predicate NeverExited(q: Sw, acts: seq<Action>)
    requires Legal(q, acts)
    decreases |acts|
  {
    q.elevator !in q.exited && (acts == [] || NeverExited(Step(q, acts[0]), acts[1..]))
  }

  /** A run keeps clear of exited schedulers exactly when in none of its switches the new scheduler fails to be
      registered. */
  lemma {:induction false} NeverExitedIff(q: Sw, acts: seq<Action>)
    requires Inv(q) && !q.phase.NewExited? && Legal(q, acts)
    ensures NeverExited(q, acts) <==> ExitNew !in acts
    decreases |acts|
  {
    hide Step, Allowed, Counted, Current, Within;
    if acts != [] {
      StepInv(q, acts[0]);
      OnlyExitNew(q, acts[0]);
      if acts[0] == ExitNew {
        LastExited(Step(q, acts[0]), acts[1..]);
      } else {
        NeverExitedIff(Step(q, acts[0]), acts[1..]);
      }
    }
  }

  lemma LastExited(q: Sw, acts: seq<Action>)
    requires Phased(q) && q.phase.NewExited? && Legal(q, acts)
    ensures !NeverExited(q, acts)
  {
  }

  lemma OnlyExitNew(q: Sw, a: Action)
    requires Allowed(q, a) && !q.phase.NewExited?
    ensures Step(q, a).phase.NewExited? <==> a == ExitNew
  {
    hide Outgoing, Reserved, Released, NoteStarved;
    if a.Reserve? || a.Refuse? || a.Fail? || a.Put? {
      StepFrame(q, a);
    }
  }

  /** The scheduler whose operations an action calls, if it calls any: elv_may_queue for every allocation, refused or
      not; elv_set_request and elv_put_request for private data; the scheduler's add function for what does not
      bypass it; and its dispatch function whenever requests are taken from it. */
  function Consults(q: Sw, a: Action): Option<nat>
    requires Allowed(q, a)
  {
    match a
    case Reserve(_, _, _) => Some(q.elevator)
    case Refuse(_) => Some(q.elevator)
    case Fill(x) => if q.slots[x].priv then Some(q.elevator) else None
    case Insert(x) => if q.slots[x].priv then Some(q.elevator) else None
    case Issue(_) => Some(q.elevator)
    case Put(x) => if q.slots[x].data.Some? then Some(q.elevator) else None
    case Drain => Some(q.elevator)
    case Start(_) => Some(q.elevator)
    case Attach => Some(q.elevator)
    case _ => None
  }

  /** An exited scheduler is called exactly by allocations and drains that happen while a failed switch has not yet put
      the old one back; private data never leads to one. */
  lemma ExitedConsultedIff(q: Sw, a: Action)
    requires Inv(q) && Allowed(q, a)
    ensures Consults(q, a).Some? && Consults(q, a).value in q.exited
            <==> q.phase.NewExited? && (a.Reserve? || a.Refuse? || a.Drain?)
  {
    hide Counted;
    if q.phase.NewExited? {
      NonePrivate(q);
      if a.Put? || a.Issue? {
        assert SlotOk(q.slots[a.x], q.elevator);
      }
    }
  }

  /** Such a run exists for every queue and every new scheduler, and after it each of the three calls the exited one,
      under the lock that fail_register does not hold. */
  lemma ExitedSchedulerReached(elevator: nat, next: nat, nr: nat, x: nat, sync: bool, wantsData: bool)
    requires next != elevator
    ensures var acts := [Start(next), Attach, ExitNew];
            && Legal(Init(elevator, nr), acts)
            && var q := After(Init(elevator, nr), acts);
               && next in q.exited
               && (nr > 0 ==> Allowed(q, Reserve(x, sync, wantsData))
                              && Consults(q, Reserve(x, sync, wantsData)) == Some(next))
               && Consults(q, Refuse(sync)) == Some(next) && Consults(q, Drain) == Some(next)
  {
    var q0 := Init(elevator, nr);
    var acts := [Start(next), Attach, ExitNew];
    var q1 := Step(q0, acts[0]);
    var q2 := Step(q1, Attach);
    var q3 := Step(q2, ExitNew);
    assert acts[1..] == [Attach, ExitNew] && acts[1..][1..] == [ExitNew] && acts[1..][1..][1..] == [];
    assert Legal(q3, []) && Legal(q2, [ExitNew]) && Legal(q1, [Attach, ExitNew]);
    assert After(q3, []) == q3 && After(q2, [ExitNew]) == q3 && After(q1, [Attach, ExitNew]) == q3;
  }

  // ---------------------------------------------------------------------------------------
  // What becomes of a request

  /** An allocation is private exactly when the scheduler wants data and no switch is running; it then gets the data
      of the scheduler in use when it is filled. Inserted, a request with private data is with the scheduler and one
      without is past it; a request leaves the scheduler when it is issued, and all do when it is drained. */
  lemma RequestsWay(q: Sw, x: nat, sync: bool, wantsData: bool)
    requires Inv(q)
    ensures Allowed(q, Reserve(x, sync, wantsData)) ==>
              Step(q, Reserve(x, sync, wantsData)).slots
              == q.slots[x := Slot(sync, wantsData && !q.switching, Reserving, None)]
    ensures Allowed(q, Fill(x)) ==>
              var s := q.slots[x];
              Step(q, Fill(x)) == q.(slots := q.slots[x := Slot(s.sync, s.priv, Allocated,
                                                               if s.priv then Some(q.elevator) else None)])
    ensures Allowed(q, Insert(x)) ==>
              var s := q.slots[x];
              Step(q, Insert(x)) == q.(slots := q.slots[x := Slot(s.sync, s.priv,
                                                                 if s.data.Some? then Scheduled else Issued, s.data)])
    ensures Allowed(q, Issue(x)) ==>
              Step(q, Issue(x)) == q.(slots := q.slots[x := q.slots[x].(stage := Issued)])
    ensures x in q.slots ==>
              var p := Step(q, Drain);
              && p == q.(slots := p.slots) && p.slots.Keys == q.slots.Keys
              && p.slots[x] == if q.slots[x].stage == Scheduled then q.slots[x].(stage := Issued) else q.slots[x]
  {
    hide Counted;
    if Allowed(q, Insert(x)) {
      assert SlotOk(q.slots[x], q.elevator);
    }
  }

  /** A refused allocation, or one that fails, asks to be noticed exactly when nothing else of its direction is
      outstanding; an allocation that succeeds takes that back. */
  lemma StarvedIff(q: Sw, x: nat, sync: bool, wantsData: bool)
    requires Inv(q)
    ensures var p := Step(q, Refuse(sync));
            && (p.starvedSync <==> q.starvedSync || (sync && q.countSync == 0))
            && (p.starvedAsync <==> q.starvedAsync || (!sync && q.countAsync == 0))
    ensures Allowed(q, Fail(x)) ==>
              var p, s := Step(q, Fail(x)), q.slots[x].sync;
              && (p.starvedSync <==> q.starvedSync || (s && q.countSync == 1))
              && (p.starvedAsync <==> q.starvedAsync || (!s && q.countAsync == 1))
    ensures Allowed(q, Reserve(x, sync, wantsData)) ==>
              var p := Step(q, Reserve(x, sync, wantsData));
              (p.starvedSync <==> q.starvedSync && !sync) && (p.starvedAsync <==> q.starvedAsync && sync)
  {
    hide Counted;
  }

  /** A switch: the flag and a drain; then, with no private data left, the new scheduler; then the old one exited, or
      the new one exited and the old one put back; and at the end no flag. */
  lemma SwitchWay(q: Sw, next: nat)
    requires Inv(q)
    ensures Allowed(q, Start(next)) ==>
              var p := Step(q, Start(next));
              p.switching && p.phase == Quiescing(next) && p.elevator == q.elevator && p.slots == Step(q, Drain).slots
    ensures Allowed(q, Attach) ==>
              var p := Step(q, Attach);
              p.switching && p.elevator == q.phase.next && p.phase == Attached(q.elevator) && p.exited == q.exited
    ensures Allowed(q, ExitOld) ==>
              Step(q, ExitOld) == q.(exited := q.exited + {q.phase.prior}, phase := OldExited)
    ensures Allowed(q, ExitNew) ==>
              Step(q, ExitNew) == q.(exited := q.exited + {q.elevator}, phase := NewExited(q.phase.prior))
    ensures Allowed(q, PutBack) ==> Step(q, PutBack) == q.(elevator := q.phase.prior, phase := OldBack)
    ensures Allowed(q, Clear) ==> Step(q, Clear) == q.(switching := false, phase := Idle)
  {
    hide Counted, Outgoing;
  }
}
