/** The throttled bios of a request queue: groups with a queue per direction, the service tree of
    groups with its cached leftmost node, and the dispatch loops of block/blk-throttle.c. */
module ThrottleQueue {
  import opened Common
  import opened ListOps
  import opened ThrottleRate

  type Gid = nat

  const THROTL_GRP_QUANTUM := 8
  const THROTL_QUANTUM := 32

  datatype Bio = Bio(id: nat, size: nat)

  /** One direction of a group: its limits, meter, queued bios and nr_queued; and, as an observer sees it,
      the attempts made so far, the bios that arrived and the bios sent on. */
  datatype Side = Side(limits: Limits, meter: Meter, queue: seq<Bio>, nr: nat,
                       run: seq<Attempt>, arrived: seq<Bio>, sent: seq<Bio>)

  datatype Group = Group(read: Side, write: Side, disptime: nat, onRr: bool)

  function SideOf(g: Group, write: bool): Side {
    if write then g.write else g.read
  }

  function WithSide(g: Group, write: bool, s: Side): Group {
    if write then g.(write := s) else g.(read := s)
  }

  predicate HasQueued(g: Group) {
    g.read.queue != [] || g.write.queue != []
  }

  function SizeOf(bios: seq<Bio>): nat {
    if bios == [] then 0 else SizeOf(bios[..|bios| - 1]) + bios[|bios| - 1].size
  }

  /** The meter is what the attempts have made of it, the bios left in order, none lost and none twice,
      and what has been sent is what the attempts dispatched. */
  predicate SideOk(s: Side, clock: nat) {
    && LimitsOk(s.limits)
    && s.nr == |s.queue|
    && s.arrived == s.sent + s.queue
    && Forward(s.run)
    && (s.run != [] ==> s.run[|s.run| - 1].now <= clock)
    && TryAll(s.limits, Fresh(), s.run) == Account(s.meter, SizeOf(s.sent), |s.sent|)
  }

  predicate GroupOk(g: Group, clock: nat) {
    SideOk(g.read, clock) && SideOk(g.write, clock)
  }

  /** tg_may_dispatch for a bio of the given size */
  function Probe(s: Side, now: nat, size: nat): Side
    requires LimitsOk(s.limits)
  {
    s.(meter := MayDispatch(s.limits, s.meter, now, size), run := s.run + [Attempt(now, size, false)])
  }

  /** Charge a bio that may be dispatched, and trim the slice. */
  function Charged(s: Side, now: nat, bio: Bio): Side
    requires LimitsOk(s.limits)
  {
    s.(meter := ChargeAndTrim(s.limits, s.meter, now, bio.size), run := s.run + [Attempt(now, bio.size, true)],
       sent := s.sent + [bio])
  }

  /** tg_may_dispatch has just allowed a bio of this size. */
  predicate Allowed(s: Side, now: nat, size: nat)
    requires LimitsOk(s.limits)
  {
    DispatchWait(s.limits, s.meter, now, size) == 0 && MayDispatch(s.limits, s.meter, now, size) == s.meter
  }

  lemma TryAllSnoc(r: Limits, run: seq<Attempt>, t: Attempt)
    requires LimitsOk(r)
    ensures TryAll(r, Fresh(), run + [t]) == Try(r, TryAll(r, Fresh(), run), t)
  {
    hide Try;
    assert (run + [t])[..|run|] == run;
  }

  lemma ForwardSnoc(run: seq<Attempt>, t: Attempt, clock: nat)
    requires Forward(run) && (run != [] ==> run[|run| - 1].now <= clock) && clock <= t.now
    ensures Forward(run + [t])
  {
  }

  lemma ProbeOk(s: Side, now: nat, size: nat, clock: nat)
    requires SideOk(s, clock) && clock <= now
    ensures SideOk(Probe(s, now, size), now)
  {
    hide TryAll, MayDispatch, DispatchWait, SizeOf;
    TryAllSnoc(s.limits, s.run, Attempt(now, size, false));
    ForwardSnoc(s.run, Attempt(now, size, false), clock);
  }

  lemma SizeSnoc(bios: seq<Bio>, b: Bio)
    ensures SizeOf(bios + [b]) == SizeOf(bios) + b.size
  {
    assert (bios + [b])[..|bios|] == bios;
  }

  /** Sending the first queued bio. */
  lemma SendOk(s: Side, now: nat, clock: nat)
    requires SideOk(s, clock) && clock <= now && s.queue != [] && Allowed(s, now, s.queue[0].size)
    ensures s.nr > 0 && SideOk(Charged(s.(queue := s.queue[1..], nr := s.nr - 1), now, s.queue[0]), now)
  {
    hide TryAll, MayDispatch, DispatchWait, SizeOf, ChargeAndTrim;
    TryAllSnoc(s.limits, s.run, Attempt(now, s.queue[0].size, true));
    ForwardSnoc(s.run, Attempt(now, s.queue[0].size, true), clock);
    SizeSnoc(s.sent, s.queue[0]);
    assert s.sent + s.queue == s.sent + [s.queue[0]] + s.queue[1..];
  }

  /** Letting a bio pass when none is queued before it. */
  lemma PassOk(s: Side, now: nat, bio: Bio, clock: nat)
    requires SideOk(s, clock) && clock <= now && s.queue == [] && Allowed(s, now, bio.size)
    ensures SideOk(Charged(s.(arrived := s.arrived + [bio]), now, bio), now)
  {
    hide TryAll, MayDispatch, DispatchWait, SizeOf, ChargeAndTrim;
    TryAllSnoc(s.limits, s.run, Attempt(now, bio.size, true));
    ForwardSnoc(s.run, Attempt(now, bio.size, true), clock);
    SizeSnoc(s.sent, bio);
  }

  lemma LaterOk(g: Group, clock: nat, now: nat)
    requires GroupOk(g, clock) && clock <= now
    ensures GroupOk(g, now)
  {
    hide TryAll, SizeOf;
  }

  /** Looking at the same bio again at the same time gives the same answer. */
  lemma RefusedAgain(r: Limits, m: Meter, now: nat, size: nat)
    requires LimitsOk(r)
    ensures DispatchWait(r, MayDispatch(r, m, now, size), now, size) == DispatchWait(r, m, now, size)
  {
    hide Roundup, BpsWait, IopsWait;
    var m1 := CurrentSlice(r, m, now);
    RoundupBounds(now + Slice(r), Slice(r));
    var wait := DispatchWait(r, m, now, size);
    RoundupBounds(now + wait, Slice(r));
    var m2 := MayDispatch(r, m, now, size);
    assert now + Slice(r) <= m2.end && m2.start == m1.start && m2.bytes == m1.bytes && m2.ios == m1.ios;
    assert CurrentSlice(r, m2, now) == m2;
    LimitsIgnoreEnd(r, m1, m2, now, size);
  }

  lemma LimitsIgnoreEnd(r: Limits, m: Meter, m': Meter, now: nat, size: nat)
    requires LimitsOk(r) && m.start == m'.start <= now && m.bytes == m'.bytes && m.ios == m'.ios
    ensures BpsWait(r, m, now, size) == BpsWait(r, m', now, size) && IopsWait(r, m, now) == IopsWait(r, m', now)
  {
    hide Roundup, Allowance, TimeFor;
  }

  /** After tg_may_dispatch the slice is current, so that asking again changes nothing when it allowed
      the bio. */
  lemma AllowedAfterProbe(s: Side, now: nat, size: nat)
    requires LimitsOk(s.limits) && DispatchWait(s.limits, s.meter, now, size) == 0
    ensures Allowed(Probe(s, now, size), now, size)
  {
    hide Roundup, BpsWait, IopsWait;
    RefusedAgain(s.limits, s.meter, now, size);
    RoundupBounds(now + Slice(s.limits), Slice(s.limits));
  }

  /** The rate bound for one side: over the life of the group, the bytes and bios sent. */
  lemma SentWithinRate(s: Side, clock: nat)
    requires SideOk(s, clock)
    ensures s.run == [] ==> s.sent == []
    ensures s.run != [] ==>
              && SizeOf(s.sent) * s.limits.hz <= s.limits.bps * (clock - s.run[0].now + Slice(s.limits))
              && |s.sent| * s.limits.hz <= s.limits.iops * (clock - s.run[0].now + Slice(s.limits))
  {
    hide Slice, Forward, SizeOf;
    if s.run != [] {
      RateBound(s.limits, s.run, clock);
    }
  }

  // ---------------------------------------------------------------------------------------
  // Groups and the service tree, in key order

  ghost predicate InOrder(tree: seq<Gid>, groups: map<Gid, Group>) {
    && (forall g | g in tree :: g in groups)
    && forall i, j | 0 <= i < j < |tree| :: groups[tree[i]].disptime <= groups[tree[j]].disptime
  }

  /** The cached leftmost node is the first one or not known; the count and the on_rr flags are right. */
  ghost predicate TreeOk(tree: seq<Gid>, left: Option<Gid>, count: nat, groups: map<Gid, Group>) {
    && NoDup(tree) && InOrder(tree, groups) && count == |tree|
    && (left.Some? ==> tree != [] && left.value == tree[0])
    && forall g | g in groups :: groups[g].onRr <==> g in tree
  }

  /** How many bios are queued in one direction. */
  function QueuedOn(list: seq<Gid>, groups: map<Gid, Group>, write: bool): nat {
    if list == [] then 0
    else (if list[0] in groups then |SideOf(groups[list[0]], write).queue| else 0) + QueuedOn(list[1..], groups, write)
  }

  /** How many bios have been sent on. */
  function SentOn(list: seq<Gid>, groups: map<Gid, Group>): nat {
    if list == [] then 0
    else (if list[0] in groups then |groups[list[0]].read.sent| + |groups[list[0]].write.sent| else 0)
         + SentOn(list[1..], groups)
  }

  lemma {:induction false} SumsUpdate(list: seq<Gid>, groups: map<Gid, Group>, g: Gid, x: Group, write: bool)
    requires NoDup(list) && g in groups
    ensures var here := if g in list then 1 else 0;
            && QueuedOn(list, groups[g := x], write) ==
                 QueuedOn(list, groups, write) + here * (|SideOf(x, write).queue| - |SideOf(groups[g], write).queue|)
            && SentOn(list, groups[g := x]) ==
                 SentOn(list, groups)
                 + here * (|x.read.sent| + |x.write.sent| - |groups[g].read.sent| - |groups[g].write.sent|)
  {
    if list != [] {
      SumsUpdate(list[1..], groups, g, x, write);
      assert list == [list[0]] + list[1..];
    }
  }

  /** The position of a key: after all keys that are not greater. */
  ghost predicate Position(tree: seq<Gid>, groups: map<Gid, Group>, key: nat, p: nat) {
    && p <= |tree| && (forall g | g in tree :: g in groups)
    && (forall i | 0 <= i < p :: groups[tree[i]].disptime <= key)
    && (forall i | p <= i < |tree| :: key < groups[tree[i]].disptime)
  }

  lemma InsertedAt(tree: seq<Gid>, g: Gid, p: nat)
    requires p <= |tree|
    ensures var t := InsertAt(tree, p, g);
            |t| == |tree| + 1 && t[p] == g
            && (forall i | 0 <= i < p :: t[i] == tree[i]) && (forall i | p < i < |t| :: t[i] == tree[i - 1])
            && (forall x :: x in t <==> x in tree || x == g)
  {
    assert tree == tree[..p] + tree[p..];
  }

  lemma InsertInOrder(tree: seq<Gid>, groups: map<Gid, Group>, g: Gid, p: nat)
    requires NoDup(tree) && InOrder(tree, groups) && g in groups && g !in tree
    requires Position(tree, groups, groups[g].disptime, p)
    ensures NoDup(InsertAt(tree, p, g)) && InOrder(InsertAt(tree, p, g), groups)
  {
    hide InsertAt;
    InsertedAt(tree, g, p);
    var t := InsertAt(tree, p, g);
    forall i, j | 0 <= i < j < |t|
      ensures t[i] != t[j] && groups[t[i]].disptime <= groups[t[j]].disptime
    {
      if j == p {
        assert t[i] == tree[i];
      } else if i == p {
        assert t[j] == tree[j - 1];
      } else {
        assert t[i] == tree[if i < p then i else i - 1] && t[j] == tree[if j < p then j else j - 1];
      }
    }
  }

  lemma WithoutInOrder(s: seq<Gid>, g: Gid, groups: map<Gid, Group>)
    requires NoDup(s) && InOrder(s, groups)
    ensures InOrder(Without(s, g), groups)
  {
    WithoutFacts(s, g);
  }

  lemma OrderIgnores(tree: seq<Gid>, groups: map<Gid, Group>, g: Gid, x: Group)
    requires InOrder(tree, groups) && (g !in tree || (g in groups && x.disptime == groups[g].disptime))
    ensures InOrder(tree, groups[g := x])
  {
  }
}
