/** block/elevator.c and the merge path of block/blk-core.c: the queue with its merge hash, updated in place.
    Every method refines the state machine of MergeRuns. */
module MergeQueue {
  import opened Common
  import opened ListOps
  import opened Bios
  import opened Merging
  import opened MergeModel
  import opened MergeRuns

  datatype Choice = NoMerge | BackInto(x: nat) | FrontOf(x: nat)

  class Elevator {
    /** hash_long, and the part of elv_rq_merge_ok that is not about the request being mergeable */
    const h: nat -> nat
    const compatible: (nat, Bio) -> bool
    var rqs: map<nat, Req>
    var buckets: seq<seq<nat>>
    var lastMerge: Option<nat>
    ghost var submitted: map<nat, Bio>
    ghost var owner: map<nat, nat>

    ghost function View(): Mq
      reads this
    {
      Mq(rqs, buckets, lastMerge, submitted, owner)
    }

    ghost predicate Valid()
      reads this
    {
      Inv(h, View())
    }

    constructor (hash: nat -> nat, mergeOk: (nat, Bio) -> bool)
      ensures h == hash && compatible == mergeOk && View() == Init() && Valid()
    {
      h, compatible := hash, mergeOk;
      rqs, buckets, lastMerge := map[], seq(ELV_HASH_ENTRIES, i => []), None;
      submitted, owner := map[], map[];
      new;
      InitInv(h);
      assert View() == Init();
    }

    /** elv_rqhash_del */
    method RqhashDel(x: nat)
      requires x in rqs
      requires rqs[x].bucket.Some? ==> rqs[x].bucket.value < |buckets| && x in buckets[rqs[x].bucket.value]
      modifies this`rqs, this`buckets
      ensures View() == Unhash(old(View()), x)
    {
      if rqs[x].bucket.Some? {
        var b := rqs[x].bucket.value;
        buckets := buckets[b := Without(buckets[b], x)];
        rqs := rqs[x := rqs[x].(bucket := None)];
      }
    }

    /** elv_rqhash_add */
    method RqhashAdd(x: nat)
      requires x in rqs && rqs[x].bucket.None? && |buckets| == ELV_HASH_ENTRIES
      modifies this`rqs, this`buckets
      ensures View() == Hash(h, old(View()), x)
      ensures rqs[x].bucket.Some? && rqs[x].bucket.value < |buckets| == 64
      ensures buckets == old(buckets)[rqs[x].bucket.value := [x] + old(buckets)[rqs[x].bucket.value]]
    {
      var b := Bucket(h, Key(rqs[x]));
      buckets := buckets[b := [x] + buckets[b]];
      rqs := rqs[x := rqs[x].(bucket := Some(b))];
    }

    /** elv_rqhash_reposition */
    method RqhashReposition(x: nat)
      requires x in rqs && Stale(h, rqs, buckets, x)
      modifies this`rqs, this`buckets
      ensures View() == Rehashed(h, old(View()), x)
    {
      hide Stale, Unhash, Hash;
      UnhashStale(h, View(), x);
      StaleSize(h, rqs, buckets, x);
      RqhashDel(x);
      StaleSize(h, rqs, buckets, x);
      RqhashAdd(x);
    }

    /** elv_rqhash_find, with the walk that drops what can no longer be merged */
    method RqhashFind(offset: nat) returns (found: Option<nat>)
      requires Valid()
      modifies this`rqs, this`buckets
      ensures View() == Step(h, old(View()), Find(offset))
      ensures Valid()
      ensures found.Some? <==> old(SomeEndsAt(View(), offset))
      ensures found.Some? ==> Open(View(), found.value) && Key(rqs[found.value]) == offset
      ensures found.Some? ==> old(Open(View(), found.value)) && rqs[found.value] == old(rqs)[found.value]
      ensures rqs.Keys == old(rqs).Keys
      ensures forall x | x in rqs :: rqs[x] == old(rqs)[x] || rqs[x] == old(rqs)[x].(bucket := None)
    {
      hide HashOk, Complete, LastOk, Chains, Owned, Unhash, Bucket;
      ghost var q := View();
      StepInv(h, q, Find(offset));
      FindExact(h, q, offset);
      FindKeeps(h, q, offset);
      ChainReady(h, q, Bucket(h, offset));
      ghost var goal := Sweep(q, q.buckets[Bucket(h, offset)], offset);
      var rest := buckets[Bucket(h, offset)];
      while rest != []
        invariant SweepReady(View(), rest) && Sweep(View(), rest, offset) == goal
        invariant lastMerge == q.last && submitted == q.submitted && owner == q.owner
        decreases |rest|
      {
        var x := rest[0];
        if !rqs[x].mergeable {
          SweepDrop(View(), rest);
          RqhashDel(x);
        } else if Key(rqs[x]) == offset {
          return Some(x);
        } else {
          SweepRest(View(), rest);
        }
        rest := rest[1..];
      }
      return None;
    }

    /** A request is allocated for a bio. */
    method InitRequest(x: nat, bio: Bio, mergeable: bool)
      requires Valid() && x !in rqs && Fresh(View(), bio)
      modifies this
      ensures View() == Step(h, old(View()), Make(x, bio, mergeable))
      ensures Valid()
    {
      hide HashOk, Complete, LastOk, Chains, Owned;
      StepInv(h, View(), Make(x, bio, mergeable));
      rqs := rqs[x := Req([bio], bio.sector, BioSize(bio), mergeable, Held, None)];
      submitted, owner := submitted[bio.id := bio], owner[bio.id := x];
    }

    /** __elv_add_request with ELEVATOR_INSERT_SORT */
    method AddRequest(x: nat)
      requires Valid() && x in rqs && rqs[x].place == Held
      modifies this
      ensures View() == Step(h, old(View()), Insert(x))
      ensures Valid()
    {
      hide HashOk, Complete, LastOk, Chains, Owned, Hash;
      StepInv(h, View(), Insert(x));
      NotFiled(h, View(), x);
      rqs := rqs[x := rqs[x].(place := Sorted)];
      if rqs[x].mergeable {
        RqhashAdd(x);
        if lastMerge.None? {
          lastMerge := Some(x);
        }
      }
    }

    /** elv_merged_request */
    method MergedRequest(x: nat, back: bool)
      requires x in rqs && Stale(h, rqs, buckets, x)
      modifies this`rqs, this`buckets, this`lastMerge
      ensures View() == (if back then Rehashed(h, old(View()), x) else old(View())).(last := Some(x))
    {
      hide Stale, Rehashed;
      if back {
        RqhashReposition(x);
      }
      lastMerge := Some(x);
    }

    /** attempt_merge once it is decided, with elv_merge_requests and the release of the absorbed request; next
        is unsorted when it is merged before it was ever inserted */
    method MergeRequests(x: nat, next: nat)
      requires x in rqs && next in rqs && x != next && rqs[x].place == Sorted && Stale(h, rqs, buckets, x)
      modifies this
      ensures View() == Fused(h, old(View()), x, next)
    {
      hide HashOk, Stale, Rehashed, Unhash;
      ghost var q := View();
      GrownByStale(h, q, x, next);
      var r, s := rqs[x], rqs[next];
      rqs := rqs[x := r.(bios := r.bios + s.bios, dataLen := r.dataLen + s.dataLen)];
      RehashedOk(h, View(), x);
      RqhashReposition(x);
      OkIsStale(h, rqs, buckets, next);
      UnhashStale(h, View(), next);
      UnhashFrame(View(), next);
      UnsortedUnhashed(h, View(), next);
      if s.place == Sorted {
        RqhashDel(next);
      }
      lastMerge := Some(x);
      rqs := rqs[next := rqs[next].(bios := [], dataLen := 0, place := Gone)];
      owner := Reowned(owner, x, next);
    }

    /** blk_attempt_req_merge, when it succeeds */
    method JoinRequests(x: nat, next: nat)
      requires Valid() && Allowed(View(), Join(x, next))
      modifies this
      ensures View() == Step(h, old(View()), Join(x, next))
      ensures Valid()
    {
      hide HashOk, Complete, LastOk, Chains, Owned, Stale, Fused;
      StepInv(h, View(), Join(x, next));
      OkIsStale(h, rqs, buckets, x);
      MergeRequests(x, next);
    }

    /** The back merge of __make_request: the bio joins the request, which may then join its successor. The hash is
        updated once, at the end, and the result is that of the two merges one after the other */
    method BackMerge(x: nat, bio: Bio, latter: Option<nat>)
      requires Valid() && Legal(h, View(), Backs(x, bio, latter))
      modifies this
      ensures View() == After(h, old(View()), Backs(x, bio, latter))
      ensures Valid()
    {
      hide HashOk, Complete, LastOk, Chains, Owned, Stale, Rehashed, Fused, Legal, After;
      ghost var q := View();
      OneOrTwo(h, q, Backs(x, bio, latter));
      StepInv(h, q, Back(x, bio));
      OkIsStale(h, q.rqs, q.buckets, x);
      ghost var g := GrownBack(q, x, bio);
      StaleChange(h, q.rqs, q.buckets, x, g.rqs[x]);
      rqs := rqs[x := rqs[x].(bios := rqs[x].bios + [bio], dataLen := rqs[x].dataLen + BioSize(bio))];
      submitted, owner := submitted[bio.id := bio], owner[bio.id := x];
      if latter.Some? {
        var y := latter.value;
        StepInv(h, BackMerged(h, q, x, bio), Join(x, y));
        BackKnows(h, q, x, bio, y);
        BackThenJoin(h, q, x, bio, y);
        MergeRequests(x, y);
      } else {
        MergedRequest(x, true);
      }
    }

    /** The front merge of __make_request: the end stays, so the hash does; the predecessor may then absorb x */
    method FrontMerge(x: nat, bio: Bio, former: Option<nat>)
      requires Valid() && Legal(h, View(), Fronts(x, bio, former))
      modifies this
      ensures View() == After(h, old(View()), Fronts(x, bio, former))
      ensures Valid()
    {
      hide HashOk, Complete, LastOk, Chains, Owned, Stale, Rehashed, Fused, Legal, After;
      ghost var q := View();
      OneOrTwo(h, q, Fronts(x, bio, former));
      StepInv(h, q, Front(x, bio));
      ghost var g := FrontMerged(q, x, bio);
      rqs := rqs[x := rqs[x].(bios := [bio] + rqs[x].bios, sector := bio.sector,
                              dataLen := rqs[x].dataLen + BioSize(bio))];
      submitted, owner := submitted[bio.id := bio], owner[bio.id := x];
      if former.Some? {
        var y := former.value;
        StepInv(h, g, Join(y, x));
        OkIsStale(h, g.rqs, g.buckets, y);
        JoinIgnoresLast(h, g, y, x, q.last);
        MergeRequests(y, x);
      } else {
        OkIsStale(h, g.rqs, g.buckets, x);
        MergedRequest(x, false);
      }
    }

    /** A request is marked REQ_NOMERGE or otherwise closed to merging. */
    method CloseRequest(x: nat)
      requires Valid() && Allowed(View(), Close(x))
      modifies this
      ensures View() == Step(h, old(View()), Close(x))
      ensures Valid()
    {
      hide HashOk, Complete, LastOk, Chains, Owned;
      StepInv(h, View(), Close(x));
      rqs := rqs[x := rqs[x].(mergeable := false)];
      if lastMerge == Some(x) {
        lastMerge := None;
      }
    }

    /** attempt_plug_merge: the plug list is searched from its end for a request that the bio adjoins and whose limits
        accept it; a request whose limits refuse it is closed */
    method AttemptPlugMerge(plug: seq<nat>, bio: Bio, accepts: (nat, Bio) -> bool) returns (merged: bool)
      requires Valid() && Fresh(View(), bio) && PlugList(View(), plug)
      modifies this
      ensures (View(), merged) == PlugMerged(old(View()), plug, bio, compatible, accepts)
      ensures merged ==> bio.id in owner && owner[bio.id] in plug
      ensures !merged ==> submitted == old(submitted) && owner == old(owner)
      ensures !merged ==> forall x | x in plug :: !(Takes(old(View()), x, bio, compatible) && accepts(x, bio))
      ensures Valid()
    {
      hide HashOk, Complete, LastOk, Chains, Owned, GrownBack, GrownFront, PlugMerged, Takes;
      ghost var goal := PlugMerged(View(), plug, bio, compatible, accepts);
      PlugMergedOk(h, View(), plug, bio, compatible, accepts);
      var n := |plug|;
      assert plug[..n] == plug;
      while n > 0
        invariant n <= |plug| && Valid() && Fresh(View(), bio) && PlugList(View(), plug[..n])
        invariant PlugMerged(View(), plug[..n], bio, compatible, accepts) == goal
      {
        var x := plug[n - 1];
        PlugLast(View(), plug, n, bio, compatible, accepts);
        var choice := TryMerge(x, bio);
        if choice != NoMerge {
          if accepts(x, bio) {
            if choice.BackInto? {
              PlugBackMerge(x, bio);
            } else {
              PlugFrontMerge(x, bio);
            }
            return true;
          }
          CloseRequest(x);
        }
        n := n - 1;
      }
      PlugNone(View(), bio, compatible, accepts);
      assert plug[..0] == [];
      return false;
    }

    /** bio_attempt_back_merge on a plugged request: no hash, no scheduler */
    method PlugBackMerge(x: nat, bio: Bio)
      requires Valid() && Allowed(View(), PlugBack(x, bio))
      modifies this
      ensures View() == Step(h, old(View()), PlugBack(x, bio))
      ensures Valid()
    {
      hide HashOk, Complete, LastOk, Chains, Owned;
      StepInv(h, View(), PlugBack(x, bio));
      rqs := rqs[x := rqs[x].(bios := rqs[x].bios + [bio], dataLen := rqs[x].dataLen + BioSize(bio))];
      submitted, owner := submitted[bio.id := bio], owner[bio.id := x];
    }

    method PlugFrontMerge(x: nat, bio: Bio)
      requires Valid() && Allowed(View(), PlugFront(x, bio))
      modifies this
      ensures View() == Step(h, old(View()), PlugFront(x, bio))
      ensures Valid()
    {
      hide HashOk, Complete, LastOk, Chains, Owned;
      StepInv(h, View(), PlugFront(x, bio));
      rqs := rqs[x := rqs[x].(bios := [bio] + rqs[x].bios, sector := bio.sector,
                              dataLen := rqs[x].dataLen + BioSize(bio))];
      submitted, owner := submitted[bio.id := bio], owner[bio.id := x];
    }

    /** elv_dispatch_add_tail */
    method DispatchAddTail(x: nat)
      requires Valid() && Allowed(View(), Send(x))
      modifies this
      ensures View() == Step(h, old(View()), Send(x))
      ensures Valid()
    {
      hide HashOk, Complete, LastOk, Chains, Owned, Stale, Unhash;
      StepInv(h, View(), Send(x));
      OkIsStale(h, rqs, buckets, x);
      UnhashStale(h, View(), x);
      UnhashFrame(View(), x);
      if lastMerge == Some(x) {
        lastMerge := None;
      }
      UnhashIgnoresLast(old(View()), x, lastMerge);
      RqhashDel(x);
      rqs := rqs[x := rqs[x].(place := Dispatched)];
    }

    /** elv_try_merge */
    method TryMerge(x: nat, bio: Bio) returns (choice: Choice)
      requires x in rqs
      ensures choice != NoMerge <==> Takes(View(), x, bio, compatible)
      ensures choice.BackInto? ==> choice.x == x && bio.sector == Key(rqs[x])
      ensures choice.FrontOf? ==> choice.x == x && bio.sector != Key(rqs[x])
    {
      if rqs[x].mergeable && compatible(x, bio) {
        if Key(rqs[x]) == bio.sector {
          return BackInto(x);
        } else if bio.sector + BioSectors(bio) == rqs[x].sector {
          return FrontOf(x);
        }
      }
      return NoMerge;
    }

    /** elv_merge: the one-hit cache, the hash, and then the scheduler's own search, which may know of a request that
        starts where the bio ends. What is returned can be merged as it says; a request that ends at the bio is passed
        over only if the hash holds another that ends there but is not compatible, and the scheduler's only if it is
        not mergeable or not compatible */
    method Merge(bio: Bio, nomerges: bool, noxmerges: bool, front: Option<nat>) returns (choice: Choice)
      requires Valid()
      requires front.Some? ==> StartsAt(View(), front.value, bio.sector + BioSectors(bio))
      modifies this`rqs, this`buckets
      ensures Searched(h, old(View()), View(), bio.sector)
      ensures choice.BackInto? && Fresh(View(), bio) ==>
                Allowed(View(), Back(choice.x, bio)) && compatible(choice.x, bio)
      ensures choice.FrontOf? && Fresh(View(), bio) ==>
                Allowed(View(), Front(choice.x, bio)) && compatible(choice.x, bio)
      ensures nomerges ==> choice == NoMerge
      ensures !nomerges && !noxmerges && choice == NoMerge && old(SomeEndsAt(View(), bio.sector)) ==>
                exists x :: x in rqs && Open(View(), x) && Key(rqs[x]) == bio.sector && !compatible(x, bio)
      ensures !nomerges && !noxmerges && choice == NoMerge && front.Some? ==>
                !(old(Open(View(), front.value)) && compatible(front.value, bio))
      ensures Valid()
    {
      hide HashOk, Complete, Chains, Owned, Step;
      if nomerges {
        return NoMerge;
      }
      if lastMerge.Some? {
        choice := TryMerge(lastMerge.value, bio);
        if choice != NoMerge {
          return;
        }
      }
      if noxmerges {
        return NoMerge;
      }
      var found := RqhashFind(bio.sector);
      if found.Some? && compatible(found.value, bio) {
        return BackInto(found.value);
      }
      if front.Some? && rqs[front.value].mergeable && compatible(front.value, bio) {
        return FrontOf(front.value);
      }
      return NoMerge;
    }
  }

  // ---------------------------------------------------------------------------------------
  // Plug lists

  /** Requests a task has made and not yet handed over. */
  ghost predicate PlugList(q: Mq, plug: seq<nat>) {
    NoDup(plug) && forall x | x in plug :: x in q.rqs && q.rqs[x].place == Held
  }

  /** elv_try_merge would merge the bio into the request, at one end or the other */
  predicate Takes(q: Mq, x: nat, bio: Bio, compatible: (nat, Bio) -> bool) {
    && x in q.rqs && q.rqs[x].mergeable && compatible(x, bio)
    && (bio.sector == Key(q.rqs[x]) || bio.sector + BioSectors(bio) == q.rqs[x].sector)
  }

  /** What attempt_plug_merge is to compute */
  function PlugMerged(q: Mq, plug: seq<nat>, bio: Bio, compatible: (nat, Bio) -> bool, accepts: (nat, Bio) -> bool)
    : (Mq, bool)
    decreases |plug|
  {
    if plug == [] then (q, false)
    else
      var x, rest := plug[|plug| - 1], plug[..|plug| - 1];
      if !Takes(q, x, bio, compatible) then PlugMerged(q, rest, bio, compatible, accepts)
      else if accepts(x, bio) then
        (if bio.sector == Key(q.rqs[x]) then GrownBack(q, x, bio) else GrownFront(q, x, bio), true)
      else PlugMerged(Closed(q, x), rest, bio, compatible, accepts)
  }

  lemma PlugNone(q: Mq, bio: Bio, compatible: (nat, Bio) -> bool, accepts: (nat, Bio) -> bool)
    ensures PlugMerged(q, [], bio, compatible, accepts) == (q, false)
  {
  }

  /** One turn of the search. */
  lemma PlugLast(q: Mq, plug: seq<nat>, n: nat, bio: Bio, compatible: (nat, Bio) -> bool, accepts: (nat, Bio) -> bool)
    requires 0 < n <= |plug| && PlugList(q, plug[..n]) && Fresh(q, bio)
    ensures var x := plug[n - 1];
            && x in q.rqs && PlugList(q, plug[..n - 1]) && PlugList(Closed(q, x), plug[..n - 1])
            && Fresh(Closed(q, x), bio)
            && PlugMerged(q, plug[..n], bio, compatible, accepts)
               == (if !Takes(q, x, bio, compatible) then PlugMerged(q, plug[..n - 1], bio, compatible, accepts)
                   else if accepts(x, bio) then
                     (if bio.sector == Key(q.rqs[x]) then GrownBack(q, x, bio) else GrownFront(q, x, bio), true)
                   else PlugMerged(Closed(q, x), plug[..n - 1], bio, compatible, accepts))
            && (Takes(q, x, bio, compatible) ==>
                  if bio.sector == Key(q.rqs[x]) then Allowed(q, PlugBack(x, bio)) else Allowed(q, PlugFront(x, bio)))
  {
    hide Key, GrownBack, GrownFront;
    var p := plug[..n];
    assert p[|p| - 1] == plug[n - 1] && p[..|p| - 1] == plug[..n - 1];
    assert plug[n - 1] in p;
    assert forall y | y in plug[..n - 1] :: y in p;
  }

  /** A merged bio belongs to a request of the list; without a merge only requests were closed, and none that the bio
      adjoins would accept it. */
  lemma {:induction false} PlugMergedOk(h: nat -> nat, q: Mq, plug: seq<nat>, bio: Bio,
                                        compatible: (nat, Bio) -> bool, accepts: (nat, Bio) -> bool)
    requires Inv(h, q) && Fresh(q, bio) && PlugList(q, plug)
    ensures var (p, merged) := PlugMerged(q, plug, bio, compatible, accepts);
            && Inv(h, p)
            && (merged ==> bio.id in p.owner && p.owner[bio.id] in plug)
            && (!merged ==> p.submitted == q.submitted && p.owner == q.owner
                            && forall x | x in plug :: !(Takes(q, x, bio, compatible) && accepts(x, bio)))
    decreases |plug|
  {
    hide HashOk, Complete, LastOk, Chains, Owned, PlugMerged, Takes, GrownBack, GrownFront, Closed, Allowed;
    if plug == [] {
      PlugNone(q, bio, compatible, accepts);
    } else {
      var x, rest := plug[|plug| - 1], plug[..|plug| - 1];
      assert plug[..|plug|] == plug;
      assert plug == rest + [x];
      PlugLast(q, plug, |plug|, bio, compatible, accepts);
      if !Takes(q, x, bio, compatible) {
        PlugMergedOk(h, q, rest, bio, compatible, accepts);
      } else if accepts(x, bio) {
        PlugAllowed(q, x, bio);
        PlugInv(h, q, x, bio);
        GrownOwner(q, x, bio);
      } else {
        CloseInv(h, q, x);
        CloseTakes(q, x, rest, bio, compatible);
        PlugMergedOk(h, Closed(q, x), rest, bio, compatible, accepts);
      }
    }
  }

  lemma PlugAllowed(q: Mq, x: nat, bio: Bio)
    ensures Allowed(q, PlugBack(x, bio)) ==> Plugged(q, x) && Fresh(q, bio) && bio.sector == Key(q.rqs[x])
    ensures Allowed(q, PlugFront(x, bio)) ==>
              Plugged(q, x) && Fresh(q, bio) && bio.sector + BioSectors(bio) == q.rqs[x].sector
  {
  }

  lemma GrownOwner(q: Mq, x: nat, bio: Bio)
    requires x in q.rqs
    ensures GrownBack(q, x, bio).owner == q.owner[bio.id := x] && GrownFront(q, x, bio).owner == q.owner[bio.id := x]
  {
  }

  lemma CloseTakes(q: Mq, x: nat, rest: seq<nat>, bio: Bio, compatible: (nat, Bio) -> bool)
    requires x in q.rqs && x !in rest
    ensures Closed(q, x).submitted == q.submitted && Closed(q, x).owner == q.owner
    ensures forall y | y in rest :: Takes(Closed(q, x), y, bio, compatible) == Takes(q, y, bio, compatible)
  {
  }

  /** At most the hash was searched. */
  ghost predicate Searched(h: nat -> nat, q: Mq, p: Mq, offset: nat)
    requires Inv(h, q)
  {
    p == q || p == Step(h, q, Find(offset))
  }

  /** A request with the scheduler that starts at the sector. */
  predicate StartsAt(q: Mq, x: nat, sector: nat) {
    x in q.rqs && q.rqs[x].place == Sorted && q.rqs[x].sector == sector
  }

  /** The steps of a bio merge that may bring two requests together. */
  function Backs(x: nat, bio: Bio, latter: Option<nat>): seq<Action> {
    if latter.None? then [Back(x, bio)] else [Back(x, bio), Join(x, latter.value)]
  }

  function Fronts(x: nat, bio: Bio, former: Option<nat>): seq<Action> {
    if former.None? then [Front(x, bio)] else [Front(x, bio), Join(former.value, x)]
  }

  lemma OneOrTwo(h: nat -> nat, q: Mq, acts: seq<Action>)
    requires Inv(h, q) && 1 <= |acts| <= 2 && Legal(h, q, acts)
    ensures Allowed(q, acts[0]) && Inv(h, Step(h, q, acts[0]))
    ensures |acts| == 1 ==> After(h, q, acts) == Step(h, q, acts[0])
    ensures |acts| == 2 ==> Allowed(Step(h, q, acts[0]), acts[1])
                            && After(h, q, acts) == Step(h, Step(h, q, acts[0]), acts[1])
                            && Inv(h, After(h, q, acts))
  {
    hide HashOk, Complete, LastOk, Chains, Owned, Step, Allowed;
    StepInv(h, q, acts[0]);
    var p, rest := Step(h, q, acts[0]), acts[1..];
    assert After(h, q, acts) == After(h, p, rest);
    if |acts| == 2 {
      assert rest[0] == acts[1];
      StepInv(h, p, acts[1]);
      assert After(h, p, rest) == After(h, Step(h, p, rest[0]), rest[1..]);
      assert After(h, Step(h, p, rest[0]), []) == Step(h, p, rest[0]);
      assert rest[1..] == [];
    }
  }

  lemma UnsortedUnhashed(h: nat -> nat, q: Mq, x: nat)
    requires HashOk(h, q.rqs, q.buckets) && x in q.rqs
    ensures q.rqs[x].place != Sorted ==> q.rqs[x].bucket.None? && Unhash(q, x) == q
  {
    OkIsStale(h, q.rqs, q.buckets, x);
  }

  lemma BackKnows(h: nat -> nat, q: Mq, x: nat, bio: Bio, y: nat)
    requires HashOk(h, q.rqs, q.buckets) && x in q.rqs && q.rqs[x].place == Sorted
    requires y in BackMerged(h, q, x, bio).rqs
    ensures y in q.rqs
  {
    hide HashOk, Stale, Rehashed;
    var g := GrownBack(q, x, bio);
    OkIsStale(h, q.rqs, q.buckets, x);
    StaleChange(h, q.rqs, q.buckets, x, g.rqs[x]);
    RehashedOk(h, g, x);
  }

  /** The one-hit cache plays no part in joining. */
  lemma JoinIgnoresLast(h: nat -> nat, q: Mq, x: nat, y: nat, last: Option<nat>)
    requires Stale(h, q.rqs, q.buckets, x) && x in q.rqs && y in q.rqs && x != y && q.rqs[x].place == Sorted
    ensures Fused(h, q.(last := last), x, y) == Fused(h, q, x, y)
  {
    hide Stale, HashOk, Rehashed, Fused;
    var p := q.(last := last);
    GrownByStale(h, q, x, y);
    GrownByStale(h, p, x, y);
    RehashIgnoresLast(h, GrownBy(q, x, y), x, last);
    assert GrownBy(p, x, y) == GrownBy(q, x, y).(last := last);
    SameJoin(h, q, p, x, y);
  }

  /** The search leaves what it finds as it was. */
  lemma FindKeeps(h: nat -> nat, q: Mq, offset: nat)
    requires Inv(h, q)
    ensures var p := Step(h, q, Find(offset));
            && p.rqs.Keys == q.rqs.Keys
            && (forall x | x in q.rqs && q.rqs[x].mergeable :: p.rqs[x] == q.rqs[x])
            && (forall x | x in q.rqs :: p.rqs[x] == q.rqs[x] || p.rqs[x] == q.rqs[x].(bucket := None))
  {
    hide HashOk, Complete, LastOk, Chains, Owned, Sweep;
    ChainReady(h, q, Bucket(h, offset));
    SweepFinds(h, q, q.buckets[Bucket(h, offset)], offset);
  }
}
