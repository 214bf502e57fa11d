/** block/blk-tag.c as a state machine: tags for requests in flight, with a bitmap of busy tags and an index
    from tags to requests. */
module TagModel {
  import opened Common
  import opened ListOps

  /** The tag map, and nr_requests of its queue; tag and sync describe the requests that hold a tag, busy lists them
      newest first, and queue is the request queue they go back to */
  datatype Td = Td(bits: seq<bool>, index: seq<Option<nat>>, maxDepth: nat, nr: nat, tag: map<nat, nat>, sync: set<nat>,
                   busy: seq<nat>, queue: seq<nat>)

  /** The part of the map a request may use: a few tags are kept for synchronous ones */
  function Usable(maxDepth: nat, sync: bool): nat {
    if sync || maxDepth <= 1 then maxDepth else if maxDepth == 2 then 1 else maxDepth - 2
  }

  /** find_first_zero_bit */
  function FirstZero(m: seq<bool>, from: nat, limit: nat): (t: nat)
    requires from <= limit <= |m|
    ensures from <= t <= limit && (t < limit ==> !m[t]) && forall i | from <= i < t :: m[i]
    decreases limit - from
  {
    if from == limit || !m[from] then from else FirstZero(m, from + 1, limit)
  }

  // ---------------------------------------------------------------------------------------
  // The operations

  /** blk_queue_start_tag once it has a tag */
  function Started(d: Td, x: nat, sync: bool, t: nat): Td
    requires t < |d.bits| && t < |d.index|
  {
    d.(bits := d.bits[t := true], index := d.index[t := Some(x)], tag := d.tag[x := t],
       sync := if sync then d.sync + {x} else d.sync - {x}, busy := [x] + d.busy)
  }

  /** blk_queue_end_tag */
  function Ended(d: Td, x: nat): Td
    requires x in d.tag && d.tag[x] < |d.bits| && d.tag[x] < |d.index| && x in d.busy
  {
    var t := d.tag[x];
    d.(bits := d.bits[t := false], index := d.index[t := None], tag := d.tag - {x}, busy := Without(d.busy, x))
  }

  /** The new size when the map has to grow: init_tag_map limits it to twice the number of requests */
  function GrownTo(depth: nat, nr: nat): nat { if depth > 2 * nr then 2 * nr else depth }

  /** memcpy of a table into another, from entry i on; none if it would write behind the end of the other */
  function Copied<T>(src: seq<T>, dst: seq<T>, i: nat): Option<seq<T>>
    requires i <= |src|
    decreases |src| - i
  {
    if i == |src| then Some(dst)
    else if i < |dst| then Copied(src, dst[i := src[i]], i + 1)
    else None
  }

  /** blk_queue_resize_tags: without growth only the limit moves; a map shared with another queue cannot grow; with
      growth a new map is made and the old one is copied into it. None if the copy does not fit */
  function ResizeOutcome(d: Td, depth: nat, shared: bool): Option<Td> {
    if depth <= |d.bits| then Some(d.(maxDepth := depth))
    else if shared then Some(d)
    else
      var n := GrownTo(depth, d.nr);
      var index := Copied(d.index, seq(n, i => None), 0);
      var bits := Copied(d.bits, seq(n, i => false), 0);
      if index.None? || bits.None? then None
      else Some(d.(maxDepth := n, bits := bits.value, index := index.value))
  }

  /** What the copy gives where it fits. */
  function Resized(d: Td, depth: nat, shared: bool): Td
    requires depth > |d.bits| && !shared ==> |d.bits| <= GrownTo(depth, d.nr)
    requires |d.index| == |d.bits|
  {
    if depth <= |d.bits| then d.(maxDepth := depth)
    else if shared then d
    else
      var n := GrownTo(depth, d.nr);
      d.(maxDepth := n, bits := Extended(d.bits, n, false), index := Extended(d.index, n, None))
  }

  /** blk_requeue_request of the requests on the busy list, first to last, each to the front of the queue */
  function Requeued(d: Td): Td
    requires TagsOk(d)
    decreases |d.busy|
  {
    if d.busy == [] then d
    else
      var x := d.busy[0];
      FirstOfBusy(d);
      EndOk(d, x);
      assert |Ended(d, x).busy| < |d.busy| by { WithoutMembers(d.busy, x); }
      Requeued(Ended(d, x).(queue := [x] + d.queue))
  }

  // ---------------------------------------------------------------------------------------
  // The invariant

  /** An index entry names the one holder of its tag, and the bit is set exactly for such entries. */
  ghost predicate TagsOk(d: Td) {
    && |d.bits| == |d.index| && d.maxDepth <= |d.bits|
    && (forall x | x in d.tag :: d.tag[x] < |d.bits| && d.index[d.tag[x]] == Some(x))
    && (forall t | 0 <= t < |d.bits| && d.index[t].Some? :: d.index[t].value in d.tag && d.tag[d.index[t].value] == t)
    && (forall t | 0 <= t < |d.bits| :: d.bits[t] <==> d.index[t].Some?)
    && NoDup(d.busy) && (forall x :: x in d.busy <==> x in d.tag)
  }

  /** Asynchronous requests leave the last tags to the synchronous. */
  ghost predicate AsyncLow(d: Td) {
    forall x | x in d.tag && x !in d.sync ::
      d.tag[x] < d.maxDepth && (d.maxDepth >= 2 ==> d.tag[x] == 0 || d.tag[x] < d.maxDepth - 2)
  }

  lemma FirstOfBusy(d: Td)
    requires TagsOk(d) && d.busy != []
    ensures d.busy[0] in d.tag && d.tag[d.busy[0]] < |d.bits| && |d.bits| == |d.index|
  {
    assert d.busy[0] in d.busy;
  }

  lemma StartOk(d: Td, x: nat, sync: bool, t: nat)
    requires TagsOk(d) && x !in d.tag && t < |d.bits| && !d.bits[t]
    ensures TagsOk(Started(d, x, sync, t))
  {
    var e := Started(d, x, sync, t);
    assert e.busy[0] == x;
    assert forall y :: y in e.busy <==> y in d.busy || y == x;
  }

  lemma EndOk(d: Td, x: nat)
    requires TagsOk(d) && x in d.tag
    ensures d.tag[x] < |d.bits| == |d.index| && x in d.busy && TagsOk(Ended(d, x))
  {
    WithoutMembers(d.busy, x);
  }

  lemma ResizeOk(d: Td, depth: nat, shared: bool)
    requires TagsOk(d) && (depth > |d.bits| && !shared ==> |d.bits| <= GrownTo(depth, d.nr))
    ensures TagsOk(Resized(d, depth, shared)) && Resized(d, depth, shared).tag == d.tag
  {
  }

  /** A copy fits exactly when the target is no shorter, and then the rest of the target stays. */
  lemma {:induction false} CopyFits<T>(src: seq<T>, dst: seq<T>, i: nat)
    requires i <= |src| && i <= |dst| && src[..i] == dst[..i]
    ensures Copied(src, dst, i) == if |src| <= |dst| then Some(src + dst[|src|..]) else None
    decreases |src| - i
  {
    if i == |src| {
      assert dst == dst[..i] + dst[i..];
      assert src[..i] == src;
    } else if i < |dst| {
      var next := dst[i := src[i]];
      assert next[..i + 1] == dst[..i] + [src[i]];
      assert src[..i + 1] == src[..i] + [src[i]];
      CopyFits(src, next, i + 1);
      assert |src| <= |dst| ==> next[|src|..] == dst[|src|..];
    }
  }

  /** Resizing a map goes well exactly when it does not have to grow, may not grow, or twice the present number of
      requests covers what the map has; and then every request keeps its tag, and all is consistent. */
  lemma ResizeIff(d: Td, depth: nat, shared: bool)
    requires TagsOk(d)
    ensures ResizeOutcome(d, depth, shared).Some? <==> depth <= |d.bits| || shared || |d.bits| <= 2 * d.nr
    ensures ResizeOutcome(d, depth, shared).Some? ==>
              && (depth > |d.bits| && !shared ==> |d.bits| <= GrownTo(depth, d.nr))
              && |d.index| == |d.bits|
              && ResizeOutcome(d, depth, shared) == Some(Resized(d, depth, shared))
              && TagsOk(Resized(d, depth, shared)) && Resized(d, depth, shared).tag == d.tag
  {
    hide TagsOk, Copied;
    Fits(d);
    var n := GrownTo(depth, d.nr);
    if depth > |d.bits| && !shared {
      var none: seq<Option<nat>> := seq(n, i => None);
      var clear := seq(n, i => false);
      CopyFits(d.index, none, 0);
      CopyFits(d.bits, clear, 0);
      if |d.bits| <= n {
        assert d.index + none[|d.index|..] == Extended(d.index, n, None);
        assert d.bits + clear[|d.bits|..] == Extended(d.bits, n, false);
        ResizeOk(d, depth, shared);
      }
    } else {
      ResizeOk(d, depth, shared);
    }
  }

  lemma {:induction false} RequeueOk(d: Td)
    requires TagsOk(d)
    ensures TagsOk(Requeued(d)) && Requeued(d).busy == [] && Requeued(d).tag == map[]
    ensures Requeued(d).queue == Reversed(d.busy) + d.queue && Requeued(d).maxDepth == d.maxDepth
    decreases |d.busy|
  {
    hide TagsOk, Requeued, Ended;
    if d.busy == [] {
      NoneBusy(d);
    } else {
      var x := d.busy[0];
      var e := RequeueOne(d);
      RequeueOk(e);
      assert Reversed(d.busy[1..]) + ([x] + d.queue) == (Reversed(d.busy[1..]) + [x]) + d.queue;
    }
  }

  lemma NoneBusy(d: Td)
    requires TagsOk(d) && d.busy == []
    ensures d.tag == map[] && Requeued(d) == d
  {
    assert forall x | x in d.tag :: x in d.busy;
    assert d.tag.Keys == {};
  }

  lemma RequeueOne(d: Td) returns (e: Td)
    requires TagsOk(d) && d.busy != []
    ensures TagsOk(e) && Requeued(d) == Requeued(e)
    ensures e.busy == d.busy[1..] && e.queue == [d.busy[0]] + d.queue && e.maxDepth == d.maxDepth
    ensures (FirstOfBusy(d); e == Ended(d, d.busy[0]).(queue := e.queue))
  {
    hide TagsOk, Without;
    FirstOfBusy(d);
    EndOk(d, d.busy[0]);
    WithoutHead(d.busy, d.busy[0]);
    e := Ended(d, d.busy[0]).(queue := [d.busy[0]] + d.queue);
    QueueIsFree(Ended(d, d.busy[0]), e.queue);
  }

  lemma QueueIsFree(d: Td, queue: seq<nat>)
    requires TagsOk(d)
    ensures TagsOk(d.(queue := queue))
  {
  }

  function Reversed(s: seq<nat>): seq<nat> { if s == [] then [] else Reversed(s[1..]) + [s[0]] }

  // ---------------------------------------------------------------------------------------
  // Runs

  datatype Action = Start(x: nat, sync: bool) | End(x: nat) | Resize(depth: nat, shared: bool) | Invalidate
                  | SetRequests(nr: nat)

  /** A map grows only while twice the number of requests covers what it has. */
  predicate Allowed(d: Td, a: Action) {
    match a
    case Start(x, sync) => x !in d.tag
    case End(x) => x in d.tag
    case Resize(depth, shared) => depth > |d.bits| && !shared ==> |d.bits| <= 2 * d.nr
    case Invalidate => true
    case SetRequests(nr) => nr >= BLKDEV_MIN_RQ
  }

  /** A request takes the first free tag it may use, if there is one. */
  ghost function Step(d: Td, a: Action): Td
    requires TagsOk(d) && Allowed(d, a)
  {
    match a
    case Start(x, sync) =>
      var limit := Usable(d.maxDepth, sync);
      var t := FirstZero(d.bits, 0, limit);
      if t == limit then d else Started(d, x, sync, t)
    case End(x) =>
      EndOk(d, x);
      Ended(d, x)
    case Resize(depth, shared) => Resized(d, depth, shared)
    case Invalidate => Requeued(d)
    case SetRequests(nr) => d.(nr := nr)
  }

  lemma StepOk(d: Td, a: Action)
    requires TagsOk(d) && Allowed(d, a)
    ensures TagsOk(Step(d, a))
  {
    hide TagsOk;
    match a
    case Start(x, sync) =>
      assert Usable(d.maxDepth, sync) <= d.maxDepth <= |d.bits| by { Fits(d); }
      var t := FirstZero(d.bits, 0, Usable(d.maxDepth, sync));
      if t < Usable(d.maxDepth, sync) {
        StartOk(d, x, sync, t);
      }
    case End(x) => EndOk(d, x);
    case Resize(depth, shared) =>
      Fits(d);
      ResizeOk(d, depth, shared);
    case Invalidate => RequeueOk(d);
    case SetRequests(nr) => LimitIsFree(d, nr);
  }

  lemma LimitIsFree(d: Td, nr: nat)
    requires TagsOk(d)
    ensures TagsOk(d.(nr := nr))
  {
  }

  lemma Fits(d: Td)
    requires TagsOk(d)
    ensures d.maxDepth <= |d.bits| == |d.index|
  {
  }

  /** What each step does to who holds which tag: nobody loses one but by ending it. */
  lemma StepKeepsTags(d: Td, a: Action, x: nat)
    requires TagsOk(d) && Allowed(d, a) && x in d.tag && !(a.End? && a.x == x) && !a.Invalidate?
    ensures x in Step(d, a).tag && Step(d, a).tag[x] == d.tag[x]
  {
  }

  /** Tag t is free, and a request may have it: any tag below the depth for a synchronous one, and for another, when
      there are at least two, any but the last two, or tag 0. */
  predicate Eligible(d: Td, sync: bool, t: nat) {
    && t < d.maxDepth && t < |d.bits| && !d.bits[t]
    && (!sync && d.maxDepth >= 2 ==> t == 0 || t < d.maxDepth - 2)
  }

  /** A request gets the lowest tag that is free and that it may have, and nothing else changes; it gets none exactly
      when there is no such tag, and then nothing changes. */
  lemma StartIs(d: Td, x: nat, sync: bool)
    requires TagsOk(d) && x !in d.tag
    ensures var e := Step(d, Start(x, sync));
            if x in e.tag then
              && Eligible(d, sync, e.tag[x]) && (forall t: nat | t < e.tag[x] :: !Eligible(d, sync, t))
              && e == Td(d.bits[e.tag[x] := true], d.index[e.tag[x] := Some(x)], d.maxDepth, d.nr,
                         d.tag[x := e.tag[x]], if sync then d.sync + {x} else d.sync - {x}, [x] + d.busy, d.queue)
            else e == d && forall t: nat | t < |d.bits| :: !Eligible(d, sync, t)
  {
    Fits(d);
    var limit := Usable(d.maxDepth, sync);
    assert forall t: nat | t < |d.bits| :: Eligible(d, sync, t) <==> t < limit && !d.bits[t];
  }

  /** A map that grows has a bit and an entry for each of min(depth, 2 * nr_requests) tags, the old ones as they were
      and the new ones free; otherwise only the limit moves, or nothing does. */
  lemma ResizeIs(d: Td, depth: nat, shared: bool)
    requires TagsOk(d) && Allowed(d, Resize(depth, shared))
    ensures var e, had := Step(d, Resize(depth, shared)), |d.bits|;
            && e == d.(bits := e.bits, index := e.index, maxDepth := e.maxDepth)
            && |e.bits| == |e.index| && had <= |e.bits| && e.bits[..had] == d.bits && e.index[..had] == d.index
            && (forall t | had <= t < |e.bits| :: !e.bits[t] && e.index[t] == None)
            && (depth <= had ==> |e.bits| == had && e.maxDepth == depth)
            && (depth > had && shared ==> |e.bits| == had && e.maxDepth == d.maxDepth)
            && (depth > had && !shared ==> |e.bits| == e.maxDepth == if depth <= 2 * d.nr then depth else 2 * d.nr)
  {
    Fits(d);
  }

  /** The depth is not reduced. */
  predicate Deepening(d: Td, a: Action) { a.Resize? ==> d.maxDepth <= a.depth }

  lemma StepAsyncLow(d: Td, a: Action)
    requires TagsOk(d) && Allowed(d, a) && AsyncLow(d) && Deepening(d, a)
    ensures AsyncLow(Step(d, a)) && d.maxDepth <= Step(d, a).maxDepth
  {
    if a.Invalidate? {
      RequeueOk(d);
    }
  }

  ghost predicate Legal(d: Td, acts: seq<Action>)
    requires TagsOk(d)
    decreases |acts|
  {
    acts == [] || (Allowed(d, acts[0]) && (StepOk(d, acts[0]); Legal(Step(d, acts[0]), acts[1..])))
  }

  ghost function After(d: Td, acts: seq<Action>): (e: Td)
    requires TagsOk(d) && Legal(d, acts)
    ensures TagsOk(e)
    decreases |acts|
  {
    if acts == [] then d
    else
      StepOk(d, acts[0]);
      After(Step(d, acts[0]), acts[1..])
  }

  ghost predicate NeverReduced(d: Td, acts: seq<Action>)
    requires TagsOk(d) && Legal(d, acts)
    decreases |acts|
  {
    acts == [] || (Deepening(d, acts[0]) && (StepOk(d, acts[0]); NeverReduced(Step(d, acts[0]), acts[1..])))
  }

  /** Entries added at the end of a table. */
  function Extended<T>(s: seq<T>, n: nat, zero: T): seq<T>
    requires |s| <= n
  {
    s + seq(n - |s|, i => zero)
  }

  /** init_tag_map for a queue with nr requests */
  function Init(nr: nat, depth: nat): Td {
    var n := GrownTo(depth, nr);
    Td(seq(n, i => false), seq(n, i => None), n, nr, map[], {}, [], [])
  }

  lemma InitOk(nr: nat, depth: nat)
    ensures TagsOk(Init(nr, depth)) && AsyncLow(Init(nr, depth))
  {
  }

  /** Over every run: no two requests in flight share a tag, an index entry has its bit set and names the holder of
      the tag, and every holder is found under its tag. */
  lemma NoTagShared(nr: nat, depth: nat, acts: seq<Action>)
    requires (InitOk(nr, depth); Legal(Init(nr, depth), acts))
    ensures (InitOk(nr, depth);
             var d := After(Init(nr, depth), acts);
            && (forall x, y | x in d.tag && y in d.tag && x != y :: d.tag[x] != d.tag[y])
            && (forall t | 0 <= t < |d.index| && d.index[t].Some? ::
                  t < |d.bits| && d.bits[t] && d.index[t].value in d.tag && d.tag[d.index[t].value] == t)
            && (forall x | x in d.tag :: d.tag[x] < |d.index| && d.index[d.tag[x]] == Some(x)))
  {
    hide Legal, After;
    InitOk(nr, depth);
  }

  /** Over every run in which the depth is never reduced, asynchronous requests only hold tags below
      max(1, depth - 2), as soon as the depth is above one. */
  lemma {:induction false} SyncTagsReserved(d: Td, acts: seq<Action>)
    requires TagsOk(d) && AsyncLow(d) && Legal(d, acts) && NeverReduced(d, acts)
    ensures AsyncLow(After(d, acts))
    decreases |acts|
  {
    hide TagsOk, AsyncLow, Step, Allowed;
    if acts != [] {
      StepOk(d, acts[0]);
      StepAsyncLow(d, acts[0]);
      SyncTagsReserved(Step(d, acts[0]), acts[1..]);
    }
  }

  /** The failing states are reached: a full-sized map whose queue then gets a lower limit cannot grow any more
      without the copy writing behind the end of the new map. */
  lemma GrowthFails(nr: nat, low: nat, depth: nat, more: nat)
    requires BLKDEV_MIN_RQ <= low < nr && depth >= 2 * nr && more > 2 * nr
    ensures (InitOk(nr, depth);
             && Legal(Init(nr, depth), [SetRequests(low)])
             && var d := After(Init(nr, depth), [SetRequests(low)]);
                |d.bits| == 2 * nr && d.nr == low && ResizeOutcome(d, more, false).None?)
  {
    InitOk(nr, depth);
    var d := Init(nr, depth);
    var acts := [SetRequests(low)];
    assert acts[1..] == [];
    StepOk(d, acts[0]);
    var e := Step(d, acts[0]);
    assert Legal(e, []) && After(e, []) == e;
    assert After(d, acts) == After(e, acts[1..]);
    hide TagsOk, ResizeOutcome;
    ResizeIff(e, more, false);
  }

  /** For example, 256 tags, the limit lowered from 128 to 16, and a new depth of 257. */
  lemma GrowthFailsAt257()
    ensures (InitOk(128, 256);
             && Legal(Init(128, 256), [SetRequests(16)])
             && var d := After(Init(128, 256), [SetRequests(16)]);
                |d.bits| == 256 && GrownTo(257, d.nr) == 32 && ResizeOutcome(d, 257, false).None?)
  {
    hide TagsOk, ResizeOutcome, Legal, After;
    GrowthFails(128, 16, 256, 257);
  }

  /** The number of requests is not lowered. */
  ghost predicate NeverLowered(d: Td, acts: seq<Action>)
    requires TagsOk(d) && Legal(d, acts)
    decreases |acts|
  {
    acts == [] || (&& (acts[0].SetRequests? ==> d.nr <= acts[0].nr)
                   && (StepOk(d, acts[0]); NeverLowered(Step(d, acts[0]), acts[1..])))
  }

  lemma StepCovered(d: Td, a: Action)
    requires TagsOk(d) && Allowed(d, a) && |d.bits| <= 2 * d.nr && (a.SetRequests? ==> d.nr <= a.nr)
    ensures |Step(d, a).bits| <= 2 * Step(d, a).nr
  {
    if a.Invalidate? {
      RequeueSizes(d);
    }
  }

  lemma {:induction false} RequeueSizes(d: Td)
    requires TagsOk(d)
    ensures |Requeued(d).bits| == |d.bits| && Requeued(d).nr == d.nr
    decreases |d.busy|
  {
    hide TagsOk, Requeued;
    if d.busy == [] {
      NoneBusy(d);
    } else {
      var e := RequeueOne(d);
      FirstOfBusy(d);
      RequeueSizes(e);
    }
  }

  /** And only a lower limit leads there: over every run that never lowers it, every resize goes well. */
  lemma {:induction false} GrowthGoesWell(d: Td, acts: seq<Action>, depth: nat, shared: bool)
    requires TagsOk(d) && |d.bits| <= 2 * d.nr && Legal(d, acts) && NeverLowered(d, acts)
    ensures ResizeOutcome(After(d, acts), depth, shared).Some?
    decreases |acts|
  {
    hide TagsOk, Step, Allowed, ResizeOutcome;
    if acts == [] {
      ResizeIff(d, depth, shared);
    } else {
      StepOk(d, acts[0]);
      StepCovered(d, acts[0]);
      GrowthGoesWell(Step(d, acts[0]), acts[1..], depth, shared);
    }
  }
}
