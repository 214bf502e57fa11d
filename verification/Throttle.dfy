/** struct throtl_data: the operations of block/blk-throttle.c on its groups, updated in place. */
module Throttle {
  import opened Common
  import opened ListOps
  import opened ThrottleRate
  import opened ThrottleQueue

  /** The fields of throtl_data agree with each other. */
  ghost predicate DataOk(groups: map<Gid, Group>, list: seq<Gid>, tree: seq<Gid>, left: Option<Gid>, count: nat,
                         nrRead: nat, nrWrite: nat, clock: nat)
  {
    && TreeOk(tree, left, count, groups)
    && NoDup(list) && (forall g: Gid :: g in list <==> g in groups)
    && nrRead == QueuedOn(list, groups, false) && nrWrite == QueuedOn(list, groups, true)
    && forall g | g in groups :: GroupOk(groups[g], clock)
  }

  /** A group is on the service tree exactly when it has queued bios. */
  ghost predicate OnTreeIfQueued(groups: map<Gid, Group>, tree: seq<Gid>) {
    forall g | g in groups :: g in tree <==> HasQueued(groups[g])
  }

  /** One group changes, without moving on the tree. */
  lemma PutOk(groups: map<Gid, Group>, list: seq<Gid>, tree: seq<Gid>, left: Option<Gid>, count: nat,
              nrRead: nat, nrWrite: nat, clock: nat, g: Gid, x: Group, now: nat)
    requires DataOk(groups, list, tree, left, count, nrRead, nrWrite, clock) && g in groups && clock <= now
    requires x.onRr == groups[g].onRr && (g in tree ==> x.disptime == groups[g].disptime) && GroupOk(x, now)
    ensures |groups[g].read.queue| <= nrRead && |groups[g].write.queue| <= nrWrite
    ensures DataOk(groups[g := x], list, tree, left, count, nrRead - |groups[g].read.queue| + |x.read.queue|,
                   nrWrite - |groups[g].write.queue| + |x.write.queue|, now)
    ensures SentOn(list, groups[g := x]) == SentOn(list, groups) + |x.read.sent| + |x.write.sent|
                                            - |groups[g].read.sent| - |groups[g].write.sent|
  {
    hide SideOk, QueuedOn, SentOn, InOrder, NoDup;
    SumsUpdate(list, groups, g, x, false);
    SumsUpdate(list, groups, g, x, true);
    SumHolds(list, groups, g, false);
    SumHolds(list, groups, g, true);
    OrderIgnores(tree, groups, g, x);
    forall j | j in groups
      ensures GroupOk(groups[j], now)
    {
      LaterOk(groups[j], clock, now);
    }
  }

  lemma {:induction false} SumHolds(list: seq<Gid>, groups: map<Gid, Group>, g: Gid, write: bool)
    requires g in list && g in groups
    ensures |SideOf(groups[g], write).queue| <= QueuedOn(list, groups, write)
    decreases |list|
  {
    if list[0] != g {
      assert list == [list[0]] + list[1..];
      SumHolds(list[1..], groups, g, write);
    }
  }

  /** One group leaves the tree. */
  lemma ErasedOk(groups: map<Gid, Group>, list: seq<Gid>, tree: seq<Gid>, left: Option<Gid>, count: nat,
                 nrRead: nat, nrWrite: nat, clock: nat, g: Gid)
    requires DataOk(groups, list, tree, left, count, nrRead, nrWrite, clock) && g in groups && g in tree
    ensures count > 0
    ensures DataOk(groups[g := groups[g].(onRr := false)], list, Without(tree, g),
                   if left == Some(g) then None else left,
                   count - 1, nrRead, nrWrite, clock)
    ensures SentOn(list, groups[g := groups[g].(onRr := false)]) == SentOn(list, groups)
  {
    hide SideOk, QueuedOn, SentOn, InOrder, NoDup, Without;
    var x := groups[g].(onRr := false);
    SumsUpdate(list, groups, g, x, false);
    SumsUpdate(list, groups, g, x, true);
    WithoutFacts(tree, g);
    WithoutInOrder(tree, g, groups);
    OrderIgnores(Without(tree, g), groups, g, x);
  }

  /** One group enters the tree. */
  lemma InsertedOk(groups: map<Gid, Group>, list: seq<Gid>, tree: seq<Gid>, left: Option<Gid>, count: nat,
                   nrRead: nat, nrWrite: nat, clock: nat, g: Gid, p: nat)
    requires DataOk(groups, list, tree, left, count, nrRead, nrWrite, clock) && g in groups && g !in tree
    requires Position(tree, groups, groups[g].disptime, p)
    ensures DataOk(groups[g := groups[g].(onRr := true)], list, InsertAt(tree, p, g), if p == 0 then Some(g) else left,
                   count + 1, nrRead, nrWrite, clock)
    ensures SentOn(list, groups[g := groups[g].(onRr := true)]) == SentOn(list, groups)
    ensures forall x :: x in InsertAt(tree, p, g) <==> x in tree || x == g
  {
    hide SideOk, QueuedOn, SentOn, InOrder, NoDup, InsertAt;
    var x := groups[g].(onRr := true);
    SumsUpdate(list, groups, g, x, false);
    SumsUpdate(list, groups, g, x, true);
    InsertedAt(tree, g, p);
    InsertInOrder(tree, groups, g, p);
    OrderIgnores(InsertAt(tree, p, g), groups, g, x);
  }

  lemma ProbedData(groups: map<Gid, Group>, list: seq<Gid>, tree: seq<Gid>, left: Option<Gid>, count: nat,
                   nrRead: nat, nrWrite: nat, clock: nat, g: Gid, write: bool, now: nat, size: nat)
    requires DataOk(groups, list, tree, left, count, nrRead, nrWrite, clock) && g in groups && clock <= now
    requires LimitsOk(SideOf(groups[g], write).limits)
    ensures var x := WithSide(groups[g], write, Probe(SideOf(groups[g], write), now, size));
            && DataOk(groups[g := x], list, tree, left, count, nrRead, nrWrite, now)
            && SentOn(list, groups[g := x]) == SentOn(list, groups)
  {
    hide QueuedOn, SentOn, TreeOk, SideOk, MayDispatch;
    assert GroupOk(groups[g], clock);
    var x := WithSide(groups[g], write, Probe(SideOf(groups[g], write), now, size));
    ProbeOk(SideOf(groups[g], write), now, size, clock);
    LaterOk(groups[g], clock, now);
    PutOk(groups, list, tree, left, count, nrRead, nrWrite, clock, g, x, now);
  }

  lemma SentData(groups: map<Gid, Group>, list: seq<Gid>, tree: seq<Gid>, left: Option<Gid>, count: nat,
                 nrRead: nat, nrWrite: nat, clock: nat, g: Gid, write: bool, now: nat)
    requires DataOk(groups, list, tree, left, count, nrRead, nrWrite, clock) && g in groups && clock <= now
    requires var s := SideOf(groups[g], write);
             LimitsOk(s.limits) && s.queue != [] && Allowed(s, now, s.queue[0].size)
    ensures SideOf(groups[g], write).nr > 0 && (if write then nrWrite else nrRead) > 0
    ensures var s := SideOf(groups[g], write);
            var x := WithSide(groups[g], write, Charged(s.(queue := s.queue[1..], nr := s.nr - 1), now, s.queue[0]));
            && DataOk(groups[g := x], list, tree, left, count, if write then nrRead else nrRead - 1,
                      if write then nrWrite - 1 else nrWrite, now)
            && SentOn(list, groups[g := x]) == SentOn(list, groups) + 1
  {
    hide QueuedOn, SentOn, TreeOk, SideOk, ChargeAndTrim, Allowed;
    assert GroupOk(groups[g], clock);
    var s := SideOf(groups[g], write);
    SendOk(s, now, clock);
    LaterOk(groups[g], clock, now);
    var x := WithSide(groups[g], write, Charged(s.(queue := s.queue[1..], nr := s.nr - 1), now, s.queue[0]));
    PutOk(groups, list, tree, left, count, nrRead, nrWrite, clock, g, x, now);
  }

  /** tg_may_dispatch on one side of a group. */
  method ProbeSide(s: Side, size: nat, now: nat) returns (s': Side, wait: nat)
    requires LimitsOk(s.limits)
    ensures s' == Probe(s, now, size) && wait == DispatchWait(s.limits, s.meter, now, size)
  {
    hide BpsWait, IopsWait, StartNewSlice, ExtendSlice, Slice;
    var r, m := s.limits, s.meter;
    if SliceUsed(m, now) {
      m := StartNewSlice(r, now);
    } else if m.end < now + Slice(r) {
      m := ExtendSlice(r, m, now + Slice(r));
    }
    assert m == CurrentSlice(r, s.meter, now);
    wait := BpsWait(r, m, now, size);
    if wait == 0 {
      wait := IopsWait(r, m, now);
    }
    if wait > 0 && m.end < now + wait {
      m := ExtendSlice(r, m, now + wait);
    }
    s' := s.(meter := m, run := s.run + [Attempt(now, size, false)]);
  }

  class ThrotlData {
    var groups: map<Gid, Group>
    var list: seq<Gid>         // tg_list
    var tree: seq<Gid>         // tg_service_tree, in key order
    var left: Option<Gid>      // its cached leftmost node
    var count: nat
    var nrRead: nat            // nr_queued[READ]
    var nrWrite: nat           // nr_queued[WRITE]
    ghost var clock: nat       // the latest jiffies seen

    ghost predicate Base()
      reads this
    {
      DataOk(groups, list, tree, left, count, nrRead, nrWrite, clock)
    }

    ghost predicate Valid()
      reads this
    {
      Base() && OnTreeIfQueued(groups, tree)
    }

    /** throtl_rb_first: the group with the earliest dispatch time. */
    method RbFirst() returns (first: Option<Gid>)
      requires Base()
      modifies this`left
      ensures Base()
      ensures if tree == [] then first == None
              else first == Some(tree[0]) && tree[0] in groups
                   && forall g | g in tree :: g in groups && groups[tree[0]].disptime <= groups[g].disptime
    {
      hide GroupOk;
      if count == 0 {
        return None;
      }
      if left == None {
        left := Some(tree[0]);
      }
      assert tree[0] in tree;
      return left;
    }

    /** throtl_dequeue_tg */
    method DequeueTg(g: Gid)
      requires Base() && g in groups
      modifies this`groups, this`tree, this`left, this`count
      ensures Base() && g !in tree && groups == old(groups)[g := old(groups[g]).(onRr := false)]
      ensures forall x :: x in tree <==> x in old(tree) && x != g
      ensures SentOn(list, groups) == old(SentOn(list, groups))
    {
      hide GroupOk, QueuedOn, SentOn, InOrder, Without;
      if groups[g].onRr {
        ErasedOk(groups, list, tree, left, count, nrRead, nrWrite, clock, g);
        WithoutFacts(tree, g);
        if left == Some(g) {
          left := None;
        }
        tree := Without(tree, g);
        count := count - 1;
        groups := groups[g := groups[g].(onRr := false)];
      } else {
        assert groups == groups[g := groups[g].(onRr := false)];
      }
    }

    /** throtl_enqueue_tg with tg_service_tree_add */
    method EnqueueTg(g: Gid)
      requires Base() && g in groups
      modifies this`groups, this`tree, this`left, this`count
      ensures Base() && groups == old(groups)[g := old(groups[g]).(onRr := true)]
      ensures forall x :: x in tree <==> x in old(tree) || x == g
      ensures SentOn(list, groups) == old(SentOn(list, groups))
    {
      hide GroupOk, QueuedOn, SentOn, InsertAt;
      if groups[g].onRr {
        assert groups == groups[g := groups[g].(onRr := true)];
        return;
      }
      var key := groups[g].disptime;
      var p := 0;
      var leftmost := true;
      while p < |tree| && !(key < groups[tree[p]].disptime)
        invariant p <= |tree| && leftmost == (p == 0)
        invariant forall i | 0 <= i < p :: groups[tree[i]].disptime <= key
      {
        p := p + 1;
        leftmost := false;
      }
      assert Position(tree, groups, key, p) by {
        FoundPosition(tree, groups, key, p);
      }
      InsertedOk(groups, list, tree, left, count, nrRead, nrWrite, clock, g, p);
      if leftmost {
        left := Some(g);
      }
      tree := InsertAt(tree, p, g);
      groups := groups[g := groups[g].(onRr := true)];
      count := count + 1;
    }

    /** tg_may_dispatch: 0 if the bio may be dispatched, and otherwise the jiffies to wait. */
    method MayDispatch(g: Gid, write: bool, size: nat, now: nat) returns (wait: nat)
      requires Base() && g in groups && clock <= now
      modifies this`groups, this`clock
      ensures Base() && clock == now
      ensures var s := SideOf(old(groups[g]), write);
              && LimitsOk(s.limits)
              && wait == DispatchWait(s.limits, s.meter, now, size)
              && groups == old(groups)[g := WithSide(old(groups[g]), write, Probe(s, now, size))]
              && (wait == 0 ==> Allowed(Probe(s, now, size), now, size))
      ensures SentOn(list, groups) == old(SentOn(list, groups))
    {
      hide DataOk, SentOn, Probe, Allowed, DispatchWait;
      GroupLimits(groups, list, tree, left, count, nrRead, nrWrite, clock, g);
      var s := SideOf(groups[g], write);
      var s';
      s', wait := ProbeSide(s, size, now);
      if wait == 0 { AllowedAfterProbe(s, now, size); }
      ProbedData(groups, list, tree, left, count, nrRead, nrWrite, clock, g, write, now, size);
      groups, clock := groups[g := WithSide(groups[g], write, s')], now;
    }

    /** tg_dispatch_one_bio, when tg_may_dispatch has allowed the first queued bio. */
    method DispatchOneBio(g: Gid, write: bool, now: nat)
      requires Base() && g in groups && clock <= now && LimitsOk(SideOf(groups[g], write).limits)
      requires var s := SideOf(groups[g], write); s.queue != [] && Allowed(s, now, s.queue[0].size)
      modifies this`groups, this`clock, this`nrRead, this`nrWrite
      ensures Base() && clock == now
      ensures var s := SideOf(old(groups[g]), write);
              s.nr > 0 && groups == old(groups)[g := WithSide(old(groups[g]), write,
                            Charged(s.(queue := s.queue[1..], nr := s.nr - 1), now, s.queue[0]))]
      ensures SentOn(list, groups) == old(SentOn(list, groups)) + 1
    {
      hide DataOk, SentOn, Charged, Allowed;
      var s := SideOf(groups[g], write);
      SentData(groups, list, tree, left, count, nrRead, nrWrite, clock, g, write, now);
      var s' := Charged(s.(queue := s.queue[1..], nr := s.nr - 1), now, s.queue[0]);
      if write {
        nrWrite := nrWrite - 1;
      } else {
        nrRead := nrRead - 1;
      }
      groups, clock := groups[g := WithSide(groups[g], write, s')], now;
    }

    /** One of the two loops of throtl_dispatch_tg: send queued bios while they may be dispatched, at
        most max of them. If none is sent, the first one has been refused. */
    method DispatchSide(g: Gid, write: bool, max: nat, now: nat) returns (n: nat)
      requires Base() && g in groups && clock <= now && max > 0
      modifies this`groups, this`clock, this`nrRead, this`nrWrite
      ensures Base() && g in groups && n <= max
      ensures groups == old(groups)[g := WithSide(old(groups[g]), write, SideOf(groups[g], write))]
      ensures SentOn(list, groups) == old(SentOn(list, groups)) + n
      ensures n == 0 ==> SideOf(groups[g], write).queue == SideOf(old(groups[g]), write).queue
      ensures n < max ==> SideRefused(SideOf(groups[g], write), now)
      ensures |SideOf(groups[g], write).sent| == |SideOf(old(groups[g]), write).sent| + n
      ensures old(clock) <= clock <= now
      ensures Onward(SideOf(old(groups[g]), write), SideOf(groups[g], write))
    {
      hide DataOk, SentOn, Charged, Probe, Allowed, Onward;
      OnwardStart(SideOf(groups[g], write));
      n := 0;
      SameSide(groups, g, write);
      GroupLimits(groups, list, tree, left, count, nrRead, nrWrite, clock, g);
      while SideOf(groups[g], write).queue != []
        invariant Base() && g in groups && n < max && old(clock) <= clock <= now
        invariant groups == old(groups)[g := WithSide(old(groups[g]), write, SideOf(groups[g], write))]
        invariant SentOn(list, groups) == old(SentOn(list, groups)) + n
        invariant n == 0 ==> groups == old(groups)
        invariant |SideOf(groups[g], write).sent| == |SideOf(old(groups[g]), write).sent| + n
        invariant Onward(SideOf(old(groups[g]), write), SideOf(groups[g], write))
        decreases max - n
      {
        var bio := SideOf(groups[g], write).queue[0];
        ghost var s := SideOf(groups[g], write);
        var wait := MayDispatch(g, write, bio.size, now);
        ProbeArrived(s, now, bio.size);
        ProbeOnward(SideOf(old(groups[g]), write), s, now, bio.size);
        if wait > 0 {
          RefusedSide(s, now, bio.size);
          break;
        }
        ghost var t := SideOf(groups[g], write);
        DispatchOneBio(g, write, now);
        ChargedSends(t.(queue := t.queue[1..], nr := t.nr - 1), now, t.queue[0]);
        SendOnward(SideOf(old(groups[g]), write), t, now);
        n := n + 1;
        if n >= max {
          break;
        }
      }
      GroupLimits(groups, list, tree, left, count, nrRead, nrWrite, clock, g);
    }

    /** throtl_dispatch_tg: at most three quarters of the quantum for reads, the rest for writes. */
    method DispatchTg(g: Gid, now: nat) returns (n: nat)
      requires Base() && g in groups && clock <= now
      modifies this`groups, this`clock, this`nrRead, this`nrWrite
      ensures Base() && g in groups && n <= THROTL_GRP_QUANTUM && old(clock) <= clock <= now
      ensures groups == old(groups)[g := groups[g]] && SameKey(old(groups[g]), groups[g])
      ensures SentOn(list, groups) == old(SentOn(list, groups)) + n
      ensures Shared(old(groups[g]), groups[g], now, n)
      ensures n == 0 ==> GroupRefused(groups[g], now)
                         && groups[g].read.queue == old(groups[g]).read.queue
                         && groups[g].write.queue == old(groups[g]).write.queue
    {
      hide DataOk, SentOn, DispatchWait, Onward;
      OnwardStart(groups[g].write);
      var maxReads := THROTL_GRP_QUANTUM * 3 / 4;
      var maxWrites := THROTL_GRP_QUANTUM - maxReads;
      var nrReads := DispatchSide(g, false, maxReads, now);
      var nrWrites := DispatchSide(g, true, maxWrites, now);
      return nrReads + nrWrites;
    }

    /** tg_update_disptime: the group moves on the tree to the time its first bio may go. */
    method UpdateDisptime(g: Gid, now: nat)
      requires Base() && g in groups && clock <= now && HasQueued(groups[g])
      modifies this`groups, this`clock, this`tree, this`left, this`count
      ensures Base() && g in groups && clock == now && groups == old(groups)[g := groups[g]]
      ensures LimitsOk(old(groups[g]).read.limits) && LimitsOk(old(groups[g]).write.limits)
      ensures groups[g] == Rescheduled(old(groups[g]), now)
      ensures DueAtFirst(old(groups[g]), now, groups[g].disptime)
      ensures forall x :: x in tree <==> x in old(tree) || x == g
      ensures SentOn(list, groups) == old(SentOn(list, groups))
    {
      hide DataOk, SentOn, DispatchWait, Probe, Allowed;
      GroupLimits(groups, list, tree, left, count, nrRead, nrWrite, clock, g);
      var readWait, writeWait := None, None;
      if groups[g].read.queue != [] {
        var wait := MayDispatch(g, false, groups[g].read.queue[0].size, now);
        readWait := Some(wait);
      }
      if groups[g].write.queue != [] {
        var wait := MayDispatch(g, true, groups[g].write.queue[0].size, now);
        writeWait := Some(wait);
      }
      var minWait := if readWait == None then writeWait.value
                     else if writeWait == None || readWait.value <= writeWait.value then readWait.value
                     else writeWait.value;
      DequeueTg(g);
      Rekeyed(groups, list, tree, left, count, nrRead, nrWrite, clock, g, now + minWait);
      groups := groups[g := groups[g].(disptime := now + minWait)];
      EnqueueTg(g);
      RescheduledDue(old(groups[g]), now);
    }

    /** The body of the loop of throtl_select_dispatch, for the group that is first on the tree. */
    method ServeGroup(g: Gid, now: nat) returns (n: nat)
      requires Valid() && clock <= now && g in tree && g in groups
      modifies this`groups, this`clock, this`nrRead, this`nrWrite, this`tree, this`left, this`count
      ensures Valid() && g in groups && old(clock) <= clock <= now && n <= THROTL_GRP_QUANTUM
      ensures groups == old(groups)[g := groups[g]] && (forall x | x != g :: x in tree <==> x in old(tree))
      ensures SentOn(list, groups) == old(SentOn(list, groups)) + n
      ensures n == 0 ==> now < groups[g].disptime
      ensures GroupOnward(old(groups[g]), groups[g])
    {
      hide DataOk, SentOn, DispatchWait, Rescheduled;
      DequeueTg(g);
      n := DispatchTg(g, now);
      GroupLimits(groups, list, tree, left, count, nrRead, nrWrite, clock, g);
      if groups[g].read.nr > 0 || groups[g].write.nr > 0 {
        ghost var grp := groups[g];
        UpdateDisptime(g, now);
        RescheduledQueues(grp, now);
        if n == 0 { RefusedLater(grp, now); }
        EnqueueTg(g);
      }
    }

    /** throtl_select_dispatch: send bios of the groups whose time has come, until no such group is left or
        throtl_quantum bios have been sent. It terminates at any fixed time, because a group from which
        nothing could be sent is put off to a later time. */
    method SelectDispatch(now: nat) returns (nrDisp: nat)
      requires Valid() && clock <= now
      modifies this
      ensures Valid() && old(clock) <= clock <= now && list == old(list)
      ensures nrDisp < 32 + 8
      ensures SentOn(list, groups) == old(SentOn(list, groups)) + nrDisp
      ensures nrDisp < 32 ==> forall g | g in tree :: g in groups && now < groups[g].disptime
      ensures AllOnward(old(groups), groups)
    {
      hide DataOk, SentOn, OnTreeIfQueued, GroupOnward;
      OnwardAll(groups);
      nrDisp := 0;
      while true
        invariant Valid() && old(clock) <= clock <= now && list == old(list)
        invariant nrDisp < THROTL_QUANTUM && AllOnward(old(groups), groups)
        invariant SentOn(list, groups) == old(SentOn(list, groups)) + nrDisp
        decreases THROTL_QUANTUM - nrDisp, Due(groups, tree, now)
      {
        var first := RbFirst();
        if first == None {
          break;
        }
        var g := first.value;
        if now < groups[g].disptime {
          break;
        }
        ghost var due := Due(groups, tree, now);
        assert g in due;
        ghost var before := groups;
        var n := ServeGroup(g, now);
        OnwardStep(old(groups), before, groups, g);
        nrDisp := nrDisp + n;
        if nrDisp >= THROTL_QUANTUM {
          break;
        }
        assert n == 0 ==> Due(groups, tree, now) == due - {g};
      }
    }

    /** blk_throtl_init: the root group, with the limits of the root cgroup. */
    constructor (root: Gid, readLimits: Limits, writeLimits: Limits)
      requires LimitsOk(readLimits) && LimitsOk(writeLimits)
      ensures Valid() && groups == map[root := NewGroup(readLimits, writeLimits)] && clock == 0
    {
      groups, list, tree, left, count := map[], [], [], None, 0;
      nrRead, nrWrite, clock := 0, 0, 0;
      new;
      AddGroup(root, readLimits, writeLimits);
    }

    /** throtl_init_add_tg_lists: a new group with its limits. */
    method AddGroup(g: Gid, readLimits: Limits, writeLimits: Limits)
      requires Valid() && g !in groups && LimitsOk(readLimits) && LimitsOk(writeLimits)
      modifies this`groups, this`list
      ensures Valid() && groups == old(groups)[g := NewGroup(readLimits, writeLimits)]
    {
      NewGroupOk(groups, list, tree, left, count, nrRead, nrWrite, clock, g, NewGroup(readLimits, writeLimits));
      groups := groups[g := NewGroup(readLimits, writeLimits)];
      list := [g] + list;
    }

    /** throtl_add_bio_tg */
    method AddBio(g: Gid, write: bool, bio: Bio)
      requires Base() && g in groups
      modifies this`groups, this`nrRead, this`nrWrite, this`tree, this`left, this`count
      ensures Base() && groups == old(groups)[g := WithSide(old(groups[g]), write,
                                                  Arrived(SideOf(old(groups[g]), write), bio)).(onRr := true)]
      ensures forall x :: x in tree <==> x in old(tree) || x == g
    {
      hide DataOk, SentOn;
      ArrivedData(groups, list, tree, left, count, nrRead, nrWrite, clock, g, write, bio);
      groups := groups[g := WithSide(groups[g], write, Arrived(SideOf(groups[g], write), bio))];
      if write {
        nrWrite := nrWrite + 1;
      } else {
        nrRead := nrRead + 1;
      }
      EnqueueTg(g);
    }

    /** blk_throtl_bio: a bio passes when none is queued before it and the limits allow it; otherwise it is
        queued, and if it is the first of its direction the group is put at the right time. */
    method ThrotlBio(g: Gid, write: bool, bio: Bio, now: nat) returns (queued: bool)
      requires Valid() && g in groups && clock <= now
      modifies this
      ensures Valid() && g in groups && groups == old(groups)[g := groups[g]] && list == old(list) && clock <= now
      ensures var s := SideOf(old(groups[g]), write);
              && LimitsOk(s.limits)
              && (queued <==> s.queue != [] || DispatchWait(s.limits, s.meter, now, bio.size) > 0)
              && SideOf(groups[g], write).arrived == s.arrived + [bio]
              && SideOf(groups[g], write).queue == (if queued then s.queue + [bio] else [])
              && SideOf(groups[g], write).limits == s.limits
      ensures var s := SideOf(old(groups[g]), !write);
              SideOf(groups[g], !write).arrived == s.arrived && SideOf(groups[g], !write).queue == s.queue
              && SideOf(groups[g], !write).limits == s.limits
    {
      hide DataOk, SentOn, DispatchWait, Rescheduled, Allowed, Probe, Charged;
      GroupLimits(groups, list, tree, left, count, nrRead, nrWrite, clock, g);
      ghost var s0 := SideOf(groups[g], write);
      if SideOf(groups[g], write).nr > 0 {
        AddBio(g, write, bio);
        return true;
      }
      var wait := MayDispatch(g, write, bio.size, now);
      ProbeArrived(s0, now, bio.size);
      if wait == 0 {
        PassBio(g, write, bio, now);
        return false;
      }
      QueueBio(g, write, bio, now);
      return true;
    }

    /** A bio that neither limit refuses is charged and passes. */
    method PassBio(g: Gid, write: bool, bio: Bio, now: nat)
      requires Valid() && g in groups && clock == now
      requires var s := SideOf(groups[g], write); LimitsOk(s.limits) && s.queue == [] && Allowed(s, now, bio.size)
      modifies this`groups
      ensures Valid() && g in groups && groups == old(groups)[g := groups[g]]
      ensures var s, t := SideOf(old(groups[g]), write), SideOf(groups[g], write);
              t.arrived == s.arrived + [bio] && t.queue == [] && t.limits == s.limits
      ensures SideOf(groups[g], !write) == SideOf(old(groups[g]), !write)
    {
      hide DataOk, Allowed, Charged;
      PassedData(groups, list, tree, left, count, nrRead, nrWrite, clock, g, write, now, bio);
      var s := SideOf(groups[g], write);
      groups := groups[g := WithSide(groups[g], write, Charged(s.(arrived := s.arrived + [bio]), now, bio))];
      ChargedArrived(s.(arrived := s.arrived + [bio]), now, bio);
    }

    /** The first bio of its direction is queued, and the group put at the right time. */
    method QueueBio(g: Gid, write: bool, bio: Bio, now: nat)
      requires Valid() && g in groups && clock <= now
      modifies this`groups, this`clock, this`nrRead, this`nrWrite, this`tree, this`left, this`count
      ensures Valid() && g in groups && groups == old(groups)[g := groups[g]] && clock == now
      ensures GroupOnward(WithSide(old(groups[g]), write, Arrived(SideOf(old(groups[g]), write), bio)), groups[g])
      ensures SideOf(groups[g], write).queue == SideOf(old(groups[g]), write).queue + [bio]
      ensures SideOf(groups[g], !write).queue == SideOf(old(groups[g]), !write).queue
    {
      hide DataOk, SentOn, Rescheduled;
      AddBio(g, write, bio);
      ghost var grp := groups[g];
      GroupLimits(groups, list, tree, left, count, nrRead, nrWrite, clock, g);
      UpdateDisptime(g, now);
      RescheduledQueues(grp, now);
    }
  }

  function NewSide(r: Limits): Side {
    Side(r, Fresh().meter, [], 0, [], [], [])
  }

  function NewGroup(r: Limits, w: Limits): Group {
    Group(NewSide(r), NewSide(w), 0, false)
  }

  lemma {:induction false} SumsNew(list: seq<Gid>, groups: map<Gid, Group>, g: Gid, x: Group, write: bool)
    requires g !in list
    ensures QueuedOn(list, groups[g := x], write) == QueuedOn(list, groups, write)
    decreases |list|
  {
    if list != [] {
      assert list == [list[0]] + list[1..];
      SumsNew(list[1..], groups, g, x, write);
    }
  }

  lemma CountsNew(list: seq<Gid>, groups: map<Gid, Group>, g: Gid, x: Group, write: bool)
    requires g !in list && SideOf(x, write).queue == []
    ensures QueuedOn([g] + list, groups[g := x], write) == QueuedOn(list, groups, write)
  {
    SumsNew(list, groups, g, x, write);
    assert ([g] + list)[1..] == list;
  }

  lemma NewGroupOk(groups: map<Gid, Group>, list: seq<Gid>, tree: seq<Gid>, left: Option<Gid>, count: nat,
                   nrRead: nat, nrWrite: nat, clock: nat, g: Gid, x: Group)
    requires DataOk(groups, list, tree, left, count, nrRead, nrWrite, clock) && g !in groups
    requires LimitsOk(x.read.limits) && LimitsOk(x.write.limits) && x == NewGroup(x.read.limits, x.write.limits)
    ensures DataOk(groups[g := x], [g] + list, tree, left, count, nrRead, nrWrite, clock)
    ensures g !in tree
  {
    hide SideOk, TreeOk, QueuedOn;
    CountsNew(list, groups, g, x, false);
    CountsNew(list, groups, g, x, true);
    NewSideOk(x.read.limits, clock);
    NewSideOk(x.write.limits, clock);
    TreeIgnoresNew(tree, left, count, groups, g, x);
  }

  lemma TreeIgnoresNew(tree: seq<Gid>, left: Option<Gid>, count: nat, groups: map<Gid, Group>, g: Gid, x: Group)
    requires TreeOk(tree, left, count, groups) && g !in groups && !x.onRr
    ensures TreeOk(tree, left, count, groups[g := x]) && g !in tree
  {
  }

  lemma NewSideOk(r: Limits, clock: nat)
    requires LimitsOk(r)
    ensures SideOk(NewSide(r), clock)
  {
  }

  function Arrived(s: Side, bio: Bio): Side {
    s.(queue := s.queue + [bio], nr := s.nr + 1, arrived := s.arrived + [bio])
  }

  lemma ArrivedData(groups: map<Gid, Group>, list: seq<Gid>, tree: seq<Gid>, left: Option<Gid>, count: nat,
                    nrRead: nat, nrWrite: nat, clock: nat, g: Gid, write: bool, bio: Bio)
    requires DataOk(groups, list, tree, left, count, nrRead, nrWrite, clock) && g in groups
    ensures DataOk(groups[g := WithSide(groups[g], write, Arrived(SideOf(groups[g], write), bio))],
                   list, tree, left, count,
                   if write then nrRead else nrRead + 1, if write then nrWrite + 1 else nrWrite, clock)
  {
    hide QueuedOn, SentOn, TreeOk, TryAll, SizeOf, Forward;
    assert GroupOk(groups[g], clock);
    var s := SideOf(groups[g], write);
    assert s.sent + s.queue + [bio] == s.sent + (s.queue + [bio]);
    var x := WithSide(groups[g], write, Arrived(s, bio));
    PutOk(groups, list, tree, left, count, nrRead, nrWrite, clock, g, x, clock);
  }

  lemma PassedData(groups: map<Gid, Group>, list: seq<Gid>, tree: seq<Gid>, left: Option<Gid>, count: nat,
                   nrRead: nat, nrWrite: nat, clock: nat, g: Gid, write: bool, now: nat, bio: Bio)
    requires DataOk(groups, list, tree, left, count, nrRead, nrWrite, clock) && g in groups && clock <= now
    requires var s := SideOf(groups[g], write); LimitsOk(s.limits) && s.queue == [] && Allowed(s, now, bio.size)
    ensures var s := SideOf(groups[g], write);
            DataOk(groups[g := WithSide(groups[g], write, Charged(s.(arrived := s.arrived + [bio]), now, bio))],
                   list, tree, left, count, nrRead, nrWrite, now)
  {
    hide QueuedOn, SentOn, TreeOk, SideOk, ChargeAndTrim, Allowed;
    assert GroupOk(groups[g], clock);
    var s := SideOf(groups[g], write);
    PassOk(s, now, bio, clock);
    LaterOk(groups[g], clock, now);
    var x := WithSide(groups[g], write, Charged(s.(arrived := s.arrived + [bio]), now, bio));
    PutOk(groups, list, tree, left, count, nrRead, nrWrite, clock, g, x, now);
  }

  lemma ProbeArrived(s: Side, now: nat, size: nat)
    requires LimitsOk(s.limits)
    ensures var t := Probe(s, now, size);
            t.arrived == s.arrived && t.sent == s.sent && t.queue == s.queue && t.limits == s.limits
  {
    hide MayDispatch;
  }

  lemma ChargedArrived(s: Side, now: nat, bio: Bio)
    requires LimitsOk(s.limits)
    ensures var t := Charged(s, now, bio); t.arrived == s.arrived && t.queue == s.queue && t.limits == s.limits
  {
    hide ChargeAndTrim;
  }

  /** When bios are queued there is a group on the tree: throtl_schedule_next_dispatch finds one. */
  lemma QueuedMeansTree(d: ThrotlData)
    requires d.Valid() && d.nrRead + d.nrWrite > 0
    ensures d.count > 0
  {
    hide GroupOk;
    var write := d.nrWrite > 0;
    var g := SomeQueued(d.list, d.groups, write);
    assert g in d.tree;
  }

  lemma {:induction false} SomeQueued(list: seq<Gid>, groups: map<Gid, Group>, write: bool) returns (g: Gid)
    requires QueuedOn(list, groups, write) > 0
    ensures g in list && g in groups && SideOf(groups[g], write).queue != []
    decreases |list|
  {
    if list[0] in groups && SideOf(groups[list[0]], write).queue != [] {
      g := list[0];
    } else {
      g := SomeQueued(list[1..], groups, write);
    }
  }

  /** The rate of every group in every direction, after any series of operations. */
  lemma GroupsWithinRate(d: ThrotlData, g: Gid, write: bool)
    requires d.Valid() && g in d.groups
    ensures var s := SideOf(d.groups[g], write);
            && LimitsOk(s.limits)
            && s.arrived == s.sent + s.queue
            && (s.run != [] ==>
                  && SizeOf(s.sent) * s.limits.hz <= s.limits.bps * (d.clock - s.run[0].now + Slice(s.limits))
                  && |s.sent| * s.limits.hz <= s.limits.iops * (d.clock - s.run[0].now + Slice(s.limits)))
            && (s.run == [] ==> s.sent == [])
  {
    assert GroupOk(d.groups[g], d.clock);
    hide TryAll, SizeOf, Slice, DataOk, Forward;
    SentWithinRate(SideOf(d.groups[g], write), d.clock);
  }

  /** The groups whose time has come. */
  ghost function Due(groups: map<Gid, Group>, tree: seq<Gid>, now: nat): set<Gid> {
    set g | g in tree && g in groups && groups[g].disptime <= now
  }

  /** Only the sides of the group have changed, and nothing new has arrived. */
  predicate SameKey(a: Group, b: Group) {
    a.disptime == b.disptime && a.onRr == b.onRr && GroupOnward(a, b)
  }

  /** What a dispatch may change of a side: it makes more attempts and sends more bios. */
  predicate Onward(s: Side, s': Side) {
    s'.limits == s.limits && s'.arrived == s.arrived && s.sent <= s'.sent && s.run <= s'.run
  }

  predicate GroupOnward(g: Group, g': Group) {
    Onward(g.read, g'.read) && Onward(g.write, g'.write)
  }

  ghost predicate AllOnward(before: map<Gid, Group>, after: map<Gid, Group>) {
    before.Keys == after.Keys && forall g | g in before :: GroupOnward(before[g], after[g])
  }

  lemma OnwardAll(groups: map<Gid, Group>)
    ensures AllOnward(groups, groups)
  {
  }

  lemma OnwardStep(a: map<Gid, Group>, b: map<Gid, Group>, c: map<Gid, Group>, g: Gid)
    requires AllOnward(a, b) && g in b && g in c && c == b[g := c[g]] && GroupOnward(b[g], c[g])
    ensures AllOnward(a, c)
  {
  }

  lemma OnwardStart(s: Side)
    ensures Onward(s, s)
  {
  }

  lemma ProbeOnward(s: Side, t: Side, now: nat, size: nat)
    requires LimitsOk(t.limits) && Onward(s, t)
    ensures Onward(s, Probe(t, now, size))
  {
    hide MayDispatch;
  }

  lemma SendOnward(s: Side, t: Side, now: nat)
    requires LimitsOk(t.limits) && Onward(s, t) && t.queue != [] && t.nr > 0
    ensures Onward(s, Charged(t.(queue := t.queue[1..], nr := t.nr - 1), now, t.queue[0]))
  {
    hide ChargeAndTrim;
  }

  predicate GroupRefused(g: Group, now: nat) {
    SideRefused(g.read, now) && SideRefused(g.write, now)
  }

  function Probed(s: Side, now: nat): Side
    requires LimitsOk(s.limits)
  {
    if s.queue == [] then s else Probe(s, now, s.queue[0].size)
  }

  function WaitOf(s: Side, now: nat): nat
    requires LimitsOk(s.limits) && s.queue != []
  {
    DispatchWait(s.limits, s.meter, now, s.queue[0].size)
  }

  /** The shortest wait of the first bios of a group. */
  function MinWait(g: Group, now: nat): nat
    requires LimitsOk(g.read.limits) && LimitsOk(g.write.limits) && HasQueued(g)
  {
    if g.read.queue == [] then WaitOf(g.write, now)
    else if g.write.queue == [] || WaitOf(g.read, now) <= WaitOf(g.write, now) then WaitOf(g.read, now)
    else WaitOf(g.write, now)
  }

  /** The group after tg_update_disptime. */
  function Rescheduled(g: Group, now: nat): Group
    requires LimitsOk(g.read.limits) && LimitsOk(g.write.limits) && HasQueued(g)
  {
    Group(Probed(g.read, now), Probed(g.write, now), now + MinWait(g, now), true)
  }

  /** The time at which the first of the first bios of the group may go, and no bio has to wait past it for the other.
      */
  predicate DueAtFirst(g: Group, now: nat, due: nat)
    requires LimitsOk(g.read.limits) && LimitsOk(g.write.limits)
  {
    && (g.read.queue != [] ==> due <= now + DispatchWait(g.read.limits, g.read.meter, now, g.read.queue[0].size))
    && (g.write.queue != [] ==> due <= now + DispatchWait(g.write.limits, g.write.meter, now, g.write.queue[0].size))
    && (|| (g.read.queue != [] && due == now + DispatchWait(g.read.limits, g.read.meter, now, g.read.queue[0].size))
        || (g.write.queue != []
            && due == now + DispatchWait(g.write.limits, g.write.meter, now, g.write.queue[0].size)))
  }

  /** Of n bios sent at most six were reads and two writes, and fewer only because the next must wait or there is
      none. */
  predicate Shared(g: Group, g': Group, now: nat, n: nat) {
    && n == |g'.read.sent| - |g.read.sent| + |g'.write.sent| - |g.write.sent|
    && 0 <= |g'.read.sent| - |g.read.sent| <= 6 && 0 <= |g'.write.sent| - |g.write.sent| <= 2
    && (|g'.read.sent| - |g.read.sent| < 6 ==> SideRefused(g'.read, now))
    && (|g'.write.sent| - |g.write.sent| < 2 ==> SideRefused(g'.write, now))
  }

  lemma RescheduledDue(g: Group, now: nat)
    requires LimitsOk(g.read.limits) && LimitsOk(g.write.limits) && HasQueued(g)
    ensures DueAtFirst(g, now, Rescheduled(g, now).disptime)
  {
    hide DispatchWait, Probed;
  }

  lemma ChargedSends(s: Side, now: nat, bio: Bio)
    requires LimitsOk(s.limits)
    ensures |Charged(s, now, bio).sent| == |s.sent| + 1
  {
    hide ChargeAndTrim;
  }

  lemma RescheduledQueues(g: Group, now: nat)
    requires LimitsOk(g.read.limits) && LimitsOk(g.write.limits) && HasQueued(g)
    ensures HasQueued(Rescheduled(g, now)) && Rescheduled(g, now).onRr && GroupOnward(g, Rescheduled(g, now))
    ensures Rescheduled(g, now).read.queue == g.read.queue && Rescheduled(g, now).write.queue == g.write.queue
  {
    hide MayDispatch, DispatchWait;
  }

  lemma RefusedLater(g: Group, now: nat)
    requires GroupRefused(g, now) && HasQueued(g)
    ensures Rescheduled(g, now).disptime > now
  {
  }

  lemma Rekeyed(groups: map<Gid, Group>, list: seq<Gid>, tree: seq<Gid>, left: Option<Gid>, count: nat,
                nrRead: nat, nrWrite: nat, clock: nat, g: Gid, key: nat)
    requires DataOk(groups, list, tree, left, count, nrRead, nrWrite, clock) && g in groups && g !in tree
    ensures DataOk(groups[g := groups[g].(disptime := key)], list, tree, left, count, nrRead, nrWrite, clock)
    ensures SentOn(list, groups[g := groups[g].(disptime := key)]) == SentOn(list, groups)
  {
    hide QueuedOn, SentOn, TreeOk, SideOk;
    assert GroupOk(groups[g], clock);
    PutOk(groups, list, tree, left, count, nrRead, nrWrite, clock, g, groups[g].(disptime := key), clock);
  }

  /** The first queued bio of a side, if there is one, may not be dispatched now. */
  predicate SideRefused(s: Side, now: nat) {
    LimitsOk(s.limits) && (s.queue != [] ==> DispatchWait(s.limits, s.meter, now, s.queue[0].size) > 0)
  }

  lemma SameSide(groups: map<Gid, Group>, g: Gid, write: bool)
    requires g in groups
    ensures groups == groups[g := WithSide(groups[g], write, SideOf(groups[g], write))]
  {
    assert groups[g] == WithSide(groups[g], write, SideOf(groups[g], write));
  }

  lemma GroupLimits(groups: map<Gid, Group>, list: seq<Gid>, tree: seq<Gid>, left: Option<Gid>, count: nat,
                    nrRead: nat, nrWrite: nat, clock: nat, g: Gid)
    requires DataOk(groups, list, tree, left, count, nrRead, nrWrite, clock) && g in groups
    ensures LimitsOk(groups[g].read.limits) && LimitsOk(groups[g].write.limits)
    ensures groups[g].read.nr == |groups[g].read.queue| && groups[g].write.nr == |groups[g].write.queue|
  {
    assert GroupOk(groups[g], clock);
  }

  lemma RefusedSide(s: Side, now: nat, size: nat)
    requires LimitsOk(s.limits) && s.queue != [] && s.queue[0].size == size
    requires DispatchWait(s.limits, s.meter, now, size) > 0
    ensures SideRefused(Probe(s, now, size), now)
  {
    RefusedAgain(s.limits, s.meter, now, size);
  }

  lemma FoundPosition(tree: seq<Gid>, groups: map<Gid, Group>, key: nat, p: nat)
    requires InOrder(tree, groups) && p <= |tree| && forall i | 0 <= i < p :: groups[tree[i]].disptime <= key
    requires p < |tree| ==> key < groups[tree[p]].disptime
    ensures Position(tree, groups, key, p)
  {
  }
}
