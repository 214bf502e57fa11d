/** Runs of insert, merge and dispatch at the queue: no bio is lost or duplicated, every request is one
    gap-free run of sectors, and the merge hash is exact. */
module MergeRuns {
  import opened Common
  import opened ListOps
  import opened Bios
  import opened Merging
  import opened Completion
  import opened Requests
  import opened MergeModel

  // ---------------------------------------------------------------------------------------
  // The invariant

  /** A request's bios are one gap-free ascending run that matches its sector and length. */
  ghost predicate ChainOk(r: Req) {
    if r.place == Gone then r.bios == []
    else r.bios != [] && Chained(r.bios) && r.sector == r.bios[0].sector && r.dataLen == TotalSize(r.bios)
  }

  ghost predicate Chains(rqs: map<nat, Req>) { forall x | x in rqs :: ChainOk(rqs[x]) }

  predicate Distinct(bios: seq<Bio>) { forall i, j | 0 <= i < j < |bios| :: bios[i].id != bios[j].id }

  /** Every bio ever submitted is where its owner says, unchanged. */
  ghost predicate Kept(rqs: map<nat, Req>, submitted: map<nat, Bio>, owner: map<nat, nat>) {
    && owner.Keys == submitted.Keys
    && forall i | i in owner :: submitted[i].id == i && owner[i] in rqs && submitted[i] in rqs[owner[i]].bios
  }

  /** A request holds only bios that it owns. */
  ghost predicate OwnOnly(rqs: map<nat, Req>, submitted: map<nat, Bio>, owner: map<nat, nat>) {
    forall x, b | x in rqs && b in rqs[x].bios ::
      b.id in owner && b.id in submitted && owner[b.id] == x && submitted[b.id] == b
  }

  /** Every bio ever submitted is in exactly one request, once and unchanged. */
  ghost predicate Owned(rqs: map<nat, Req>, submitted: map<nat, Bio>, owner: map<nat, nat>) {
    && Kept(rqs, submitted, owner) && OwnOnly(rqs, submitted, owner)
    && (forall x | x in rqs :: Distinct(rqs[x].bios))
  }

  /** Every request that is with the scheduler and can be merged is on the hash. */
  ghost predicate Complete(rqs: map<nat, Req>) {
    forall x | x in rqs && rqs[x].place == Sorted && rqs[x].mergeable :: rqs[x].bucket.Some?
  }

  ghost predicate LastOk(q: Mq) {
    q.last.Some? ==> q.last.value in q.rqs && q.rqs[q.last.value].place == Sorted
  }

  ghost predicate Inv(h: nat -> nat, q: Mq) {
    && HashOk(h, q.rqs, q.buckets) && Complete(q.rqs) && LastOk(q)
    && Chains(q.rqs)
    && Owned(q.rqs, q.submitted, q.owner)
  }

  function Init(): Mq { Mq(map[], seq(ELV_HASH_ENTRIES, i => []), None, map[], map[]) }

  lemma InitInv(h: nat -> nat)
    ensures Inv(h, Init())
  {
    assert Stale(h, map[], Init().buckets, 0);
    StaleIsOk(h, map[], Init().buckets, 0);
  }

  // ---------------------------------------------------------------------------------------
  // The operations

  /** A new request is made for a bio that could not be merged. */
  function MadeFor(q: Mq, x: nat, bio: Bio, mergeable: bool): Mq {
    q.(rqs := q.rqs[x := Req([bio], bio.sector, BioSize(bio), mergeable, Held, None)],
       submitted := q.submitted[bio.id := bio], owner := q.owner[bio.id := x])
  }

  /** __elv_add_request with ELEVATOR_INSERT_SORT */
  function Inserted(h: nat -> nat, q: Mq, x: nat): Mq
    requires x in q.rqs && |q.buckets| == ELV_HASH_ENTRIES
  {
    var p := q.(rqs := q.rqs[x := q.rqs[x].(place := Sorted)]);
    if q.rqs[x].mergeable then
      Hash(h, p, x).(last := if p.last.None? then Some(x) else p.last)
    else p
  }

  /** elv_rqhash_reposition */
  function Rehashed(h: nat -> nat, q: Mq, x: nat): Mq
    requires Stale(h, q.rqs, q.buckets, x) && x in q.rqs
  {
    UnhashStale(h, q, x);
    Hash(h, Unhash(q, x), x)
  }

  /** The request with a bio at its end: bio_attempt_back_merge */
  function GrownBack(q: Mq, x: nat, bio: Bio): Mq
    requires x in q.rqs
  {
    var r := q.rqs[x];
    q.(rqs := q.rqs[x := r.(bios := r.bios + [bio], dataLen := r.dataLen + BioSize(bio))],
       submitted := q.submitted[bio.id := bio], owner := q.owner[bio.id := x])
  }

  /** The request with a bio at its front: bio_attempt_front_merge */
  function GrownFront(q: Mq, x: nat, bio: Bio): Mq
    requires x in q.rqs
  {
    var r := q.rqs[x];
    q.(rqs := q.rqs[x := r.(bios := [bio] + r.bios, sector := bio.sector, dataLen := r.dataLen + BioSize(bio))],
       submitted := q.submitted[bio.id := bio], owner := q.owner[bio.id := x])
  }

  /** A back merge, with elv_merged_request */
  function BackMerged(h: nat -> nat, q: Mq, x: nat, bio: Bio): Mq
    requires x in q.rqs && HashOk(h, q.rqs, q.buckets)
  {
    var p := GrownBack(q, x, bio);
    OkIsStale(h, q.rqs, q.buckets, x);
    StaleChange(h, q.rqs, q.buckets, x, p.rqs[x]);
    Rehashed(h, p, x).(last := Some(x))
  }

  /** A front merge, with elv_merged_request: the end, and so the chain, stays */
  function FrontMerged(q: Mq, x: nat, bio: Bio): Mq
    requires x in q.rqs
  {
    GrownFront(q, x, bio).(last := Some(x))
  }

  /** Request x takes the bios of request y: attempt_merge */
  function GrownBy(q: Mq, x: nat, y: nat): Mq
    requires x in q.rqs && y in q.rqs
  {
    var r := q.rqs[x];
    q.(rqs := q.rqs[x := r.(bios := r.bios + q.rqs[y].bios, dataLen := r.dataLen + q.rqs[y].dataLen)])
  }

  /** The owner of y's bios is now x. */
  function Reowned(owner: map<nat, nat>, x: nat, y: nat): map<nat, nat> {
    map i | i in owner :: if owner[i] == y then x else owner[i]
  }

  function Freed(q: Mq, x: nat, y: nat): Mq
    requires y in q.rqs
  {
    q.(rqs := q.rqs[y := q.rqs[y].(bios := [], dataLen := 0, place := Gone)],
       owner := Reowned(q.owner, x, y),
       last := Some(x))
  }

  lemma GrownByStale(h: nat -> nat, q: Mq, x: nat, y: nat)
    requires x in q.rqs && y in q.rqs && Stale(h, q.rqs, q.buckets, x)
    ensures Stale(h, GrownBy(q, x, y).rqs, q.buckets, x)
  {
    StaleChange(h, q.rqs, q.buckets, x, GrownBy(q, x, y).rqs[x]);
  }

  /** attempt_merge with elv_merge_requests: x is repositioned, y taken off the hash and freed. A bio may just
      have moved the end of x */
  function Fused(h: nat -> nat, q: Mq, x: nat, y: nat): Mq
    requires x in q.rqs && y in q.rqs && x != y && q.rqs[x].place == Sorted && Stale(h, q.rqs, q.buckets, x)
  {
    GrownByStale(h, q, x, y);
    var p := Rehashed(h, GrownBy(q, x, y), x);
    RehashedOk(h, GrownBy(q, x, y), x);
    OkIsStale(h, p.rqs, p.buckets, y);
    UnhashStale(h, p, y);
    Freed(Unhash(p, y), x, y)
  }

  lemma RehashedOk(h: nat -> nat, q: Mq, x: nat)
    requires Stale(h, q.rqs, q.buckets, x) && x in q.rqs && q.rqs[x].place == Sorted
    ensures var p := Rehashed(h, q, x);
            && HashOk(h, p.rqs, p.buckets)
            && p.rqs == q.rqs[x := q.rqs[x].(bucket := Some(Bucket(h, Key(q.rqs[x]))))]
            && p.last == q.last && p.submitted == q.submitted && p.owner == q.owner
  {
    hide Stale, HashOk, Bucket;
    UnhashStale(h, q, x);
    HashStale(h, Unhash(q, x), x);
  }

  /** A request is marked so that nothing more is merged into it, and leaves the one-hit cache */
  function Closed(q: Mq, x: nat): Mq
    requires x in q.rqs
  {
    q.(rqs := q.rqs[x := q.rqs[x].(mergeable := false)], last := if q.last == Some(x) then None else q.last)
  }

  /** elv_dispatch_add_tail */
  function Sent(h: nat -> nat, q: Mq, x: nat): Mq
    requires x in q.rqs && HashOk(h, q.rqs, q.buckets)
  {
    OkIsStale(h, q.rqs, q.buckets, x);
    UnhashStale(h, q, x);
    var p := Unhash(q, x);
    p.(rqs := p.rqs[x := p.rqs[x].(place := Dispatched)], last := if q.last == Some(x) then None else q.last)
  }

  // ---------------------------------------------------------------------------------------
  // Who owns which bio

  lemma OwnedFrame(rqs: map<nat, Req>, submitted: map<nat, Bio>, owner: map<nat, nat>, x: nat, r: Req)
    requires Owned(rqs, submitted, owner) && x in rqs && r.bios == rqs[x].bios
    ensures Owned(rqs[x := r], submitted, owner)
  {
  }

  lemma OwnedNew(rqs: map<nat, Req>, submitted: map<nat, Bio>, owner: map<nat, nat>, x: nat, r: Req, bio: Bio)
    requires Owned(rqs, submitted, owner) && x !in rqs && bio.id !in submitted && r.bios == [bio]
    ensures Owned(rqs[x := r], submitted[bio.id := bio], owner[bio.id := x])
  {
  }

  lemma OwnedGrow(rqs: map<nat, Req>, submitted: map<nat, Bio>, owner: map<nat, nat>, x: nat, r: Req, bio: Bio)
    requires Owned(rqs, submitted, owner) && x in rqs && bio.id !in submitted
    requires r.bios == rqs[x].bios + [bio] || r.bios == [bio] + rqs[x].bios
    ensures Owned(rqs[x := r], submitted[bio.id := bio], owner[bio.id := x])
  {
    hide Distinct;
    assert forall b :: b in r.bios <==> b in rqs[x].bios || b == bio;
    DistinctGrow(rqs, submitted, owner, x, bio);
  }

  lemma DistinctGrow(rqs: map<nat, Req>, submitted: map<nat, Bio>, owner: map<nat, nat>, x: nat, bio: Bio)
    requires Owned(rqs, submitted, owner) && x in rqs && bio.id !in submitted
    ensures Distinct(rqs[x].bios + [bio]) && Distinct([bio] + rqs[x].bios)
  {
    DistinctAppend(rqs[x].bios, [bio]);
    DistinctAppend([bio], rqs[x].bios);
  }

  lemma DistinctAppend(a: seq<Bio>, b: seq<Bio>)
    requires Distinct(a) && Distinct(b) && forall p, r | p in a && r in b :: p.id != r.id
    ensures Distinct(a + b)
  {
    var c := a + b;
    forall i, j | 0 <= i < j < |c|
      ensures c[i].id != c[j].id
    {
      if i < |a| <= j {
        assert c[i] in a && c[j] in b;
      }
    }
  }

  lemma OwnedJoin(rqs: map<nat, Req>, submitted: map<nat, Bio>, owner: map<nat, nat>, x: nat, y: nat, r: Req, s: Req)
    requires Owned(rqs, submitted, owner) && x in rqs && y in rqs && x != y
    requires r.bios == rqs[x].bios + rqs[y].bios && s.bios == []
    ensures Owned(rqs[x := r][y := s], submitted, Reowned(owner, x, y))
  {
    hide Kept, OwnOnly, Distinct;
    JoinKept(rqs, submitted, owner, x, y, r, s);
    JoinOwn(rqs, submitted, owner, x, y, r, s);
    JoinDistinct(rqs, submitted, owner, x, y);
    assert Distinct([]) by {
      EmptyDistinct();
    }
  }

  lemma EmptyDistinct()
    ensures Distinct([])
  {
  }

  lemma JoinKept(rqs: map<nat, Req>, submitted: map<nat, Bio>, owner: map<nat, nat>, x: nat, y: nat, r: Req, s: Req)
    requires Kept(rqs, submitted, owner) && x in rqs && y in rqs && x != y
    requires r.bios == rqs[x].bios + rqs[y].bios && s.bios == []
    ensures Kept(rqs[x := r][y := s], submitted, Reowned(owner, x, y))
  {
    assert Reowned(owner, x, y).Keys == owner.Keys;
  }

  lemma JoinOwn(rqs: map<nat, Req>, submitted: map<nat, Bio>, owner: map<nat, nat>, x: nat, y: nat, r: Req, s: Req)
    requires OwnOnly(rqs, submitted, owner) && x in rqs && y in rqs && x != y
    requires r.bios == rqs[x].bios + rqs[y].bios && s.bios == []
    ensures OwnOnly(rqs[x := r][y := s], submitted, Reowned(owner, x, y))
  {
  }

  lemma JoinDistinct(rqs: map<nat, Req>, submitted: map<nat, Bio>, owner: map<nat, nat>, x: nat, y: nat)
    requires OwnOnly(rqs, submitted, owner) && x in rqs && y in rqs && x != y
    requires Distinct(rqs[x].bios) && Distinct(rqs[y].bios)
    ensures Distinct(rqs[x].bios + rqs[y].bios)
  {
    var a, b := rqs[x].bios, rqs[y].bios;
    assert forall p, t | p in a && t in b :: owner[p.id] == x && owner[t.id] == y;
    DistinctAppend(a, b);
  }

  // ---------------------------------------------------------------------------------------
  // Chains

  /** One request changes; the others are as they were. */
  lemma ChainsFrame(rqs: map<nat, Req>, x: nat, r: Req)
    requires Chains(rqs) && ChainOk(r)
    ensures Chains(rqs[x := r])
  {
  }

  lemma ChainOf(rqs: map<nat, Req>, x: nat, r: Req)
    requires Chains(rqs) && x in rqs
    ensures ChainOk(rqs[x])
    ensures (r.bios == rqs[x].bios && r.sector == rqs[x].sector && r.dataLen == rqs[x].dataLen
             && (r.place == Gone <==> rqs[x].place == Gone)) ==> ChainOk(r)
  {
  }

  lemma CompleteFrame(rqs: map<nat, Req>, x: nat, r: Req)
    requires Complete(rqs) && (r.place == Sorted && r.mergeable ==> r.bucket.Some?)
    ensures Complete(rqs[x := r])
  {
  }

  lemma CompleteOf(rqs: map<nat, Req>, x: nat)
    requires Complete(rqs) && x in rqs && rqs[x].place == Sorted && rqs[x].mergeable
    ensures rqs[x].bucket.Some?
  {
  }

  lemma GrownChain(r: Req, bio: Bio)
    requires ChainOk(r) && r.place != Gone && DataBio(bio)
    ensures bio.sector == Key(r) ==>
      ChainOk(r.(bios := r.bios + [bio], dataLen := r.dataLen + BioSize(bio)))
    ensures bio.sector + BioSectors(bio) == r.sector ==>
      && ChainOk(r.(bios := [bio] + r.bios, sector := bio.sector, dataLen := r.dataLen + BioSize(bio)))
      && Key(r.(bios := [bio] + r.bios, sector := bio.sector, dataLen := r.dataLen + BioSize(bio))) == Key(r)
  {
    hide Chained, Size, Vecs, DataBio;
    OneChained(bio);
    VecsOne(bio);
    assert TotalSize([bio]) == BioSize(bio);
    if bio.sector == Key(r) {
      ConcatChain(r.bios, [bio]);
    }
    if bio.sector + BioSectors(bio) == r.sector {
      ConcatChain([bio], r.bios);
      WholeSectors(bio);
    }
  }

  lemma WholeSectors(bio: Bio)
    requires DataBio(bio)
    ensures BioSize(bio) == BioSectors(bio) * SECTOR
  {
  }

  lemma JoinedChain(r: Req, s: Req)
    requires ChainOk(r) && ChainOk(s) && r.place != Gone && s.place != Gone && Key(r) == s.sector
    ensures ChainOk(r.(bios := r.bios + s.bios, dataLen := r.dataLen + s.dataLen))
  {
    hide Chained, Size, Vecs;
    ConcatChain(r.bios, s.bios);
  }

  // ---------------------------------------------------------------------------------------
  // Steps

  datatype Action = Make(x: nat, bio: Bio, mergeable: bool) | Insert(x: nat) | Back(x: nat, bio: Bio)
                  | Front(x: nat, bio: Bio) | PlugBack(x: nat, bio: Bio) | PlugFront(x: nat, bio: Bio)
                  | Join(x: nat, y: nat) | Close(x: nat) | Send(x: nat) | Find(offset: nat)

  predicate Fresh(q: Mq, bio: Bio) { bio.id !in q.submitted && DataBio(bio) }

  /** The request is with the scheduler and may still grow. */
  predicate Open(q: Mq, x: nat) { x in q.rqs && q.rqs[x].place == Sorted && q.rqs[x].mergeable }

  /** The request is on a task's plug list, not yet inserted, and may still grow. */
  predicate Plugged(q: Mq, x: nat) { x in q.rqs && q.rqs[x].place == Held && q.rqs[x].mergeable }

  predicate Allowed(q: Mq, a: Action) {
    match a
    case Make(x, bio, mergeable) => x !in q.rqs && Fresh(q, bio)
    case Insert(x) => x in q.rqs && q.rqs[x].place == Held
    case Back(x, bio) => Open(q, x) && Fresh(q, bio) && bio.sector == Key(q.rqs[x])
    case Front(x, bio) => Open(q, x) && Fresh(q, bio) && bio.sector + BioSectors(bio) == q.rqs[x].sector
    case PlugBack(x, bio) => Plugged(q, x) && Fresh(q, bio) && bio.sector == Key(q.rqs[x])
    case PlugFront(x, bio) => Plugged(q, x) && Fresh(q, bio) && bio.sector + BioSectors(bio) == q.rqs[x].sector
    case Join(x, y) => Open(q, x) && y in q.rqs && x != y && (q.rqs[y].place == Sorted || q.rqs[y].place == Held)
                       && q.rqs[y].mergeable && Key(q.rqs[x]) == q.rqs[y].sector
    case Close(x) => x in q.rqs
    case Send(x) => x in q.rqs && q.rqs[x].place == Sorted
    case Find(offset) => true
  }

  lemma ChainReady(h: nat -> nat, q: Mq, b: nat)
    requires HashOk(h, q.rqs, q.buckets) && b < ELV_HASH_ENTRIES
    ensures |q.buckets| == ELV_HASH_ENTRIES && SweepReady(q, q.buckets[b])
  {
    OkIsStale(h, q.rqs, q.buckets, 0);
  }

  ghost function Step(h: nat -> nat, q: Mq, a: Action): Mq
    requires HashOk(h, q.rqs, q.buckets) && Allowed(q, a)
  {
    OkIsStale(h, q.rqs, q.buckets, 0);
    match a
    case Make(x, bio, mergeable) => MadeFor(q, x, bio, mergeable)
    case Insert(x) => Inserted(h, q, x)
    case Back(x, bio) => BackMerged(h, q, x, bio)
    case Front(x, bio) => FrontMerged(q, x, bio)
    case PlugBack(x, bio) => GrownBack(q, x, bio)
    case PlugFront(x, bio) => GrownFront(q, x, bio)
    case Join(x, y) =>
      OkIsStale(h, q.rqs, q.buckets, x);
      Fused(h, q, x, y)
    case Close(x) => Closed(q, x)
    case Send(x) => Sent(h, q, x)
    case Find(offset) =>
      ChainReady(h, q, Bucket(h, offset));
      Sweep(q, q.buckets[Bucket(h, offset)], offset).0
  }

  lemma MakeInv(h: nat -> nat, q: Mq, x: nat, bio: Bio, m: bool)
    requires Inv(h, q) && Allowed(q, Make(x, bio, m))
    ensures Inv(h, MadeFor(q, x, bio, m))
  {
    hide HashOk, Stale, Owned, Chained, Bucket, Chains, Complete;
    var r := Req([bio], bio.sector, BioSize(bio), m, Held, None);
    OkIsStale(h, q.rqs, q.buckets, x);
    StaleChange(h, q.rqs, q.buckets, x, r);
    StaleIsOk(h, q.rqs[x := r], q.buckets, x);
    OneChained(bio);
    VecsOne(bio);
    OwnedNew(q.rqs, q.submitted, q.owner, x, r, bio);
    ChainsFrame(q.rqs, x, r);
    CompleteFrame(q.rqs, x, r);
  }

  lemma InsertInv(h: nat -> nat, q: Mq, x: nat)
    requires Inv(h, q) && Allowed(q, Insert(x))
    ensures |q.buckets| == ELV_HASH_ENTRIES && Inv(h, Inserted(h, q, x))
  {
    hide HashOk, Stale, Owned, Bucket, Key, Chains, ChainOk, Complete;
    NotFiled(h, q, x);
    var r := q.rqs[x].(place := Sorted);
    var p := q.(rqs := q.rqs[x := r]);
    StaleChange(h, q.rqs, q.buckets, x, r);
    if r.mergeable {
      HashStale(h, p, x);
      UpdateKeeps(q, x, r.(bucket := Some(Bucket(h, Key(r)))));
      assert Inserted(h, q, x).rqs == q.rqs[x := r.(bucket := Some(Bucket(h, Key(r))))];
    } else {
      StaleIsOk(h, p.rqs, q.buckets, x);
      UpdateKeeps(q, x, r);
    }
  }

  /** What does not touch a request's bios keeps chains and owners. */
  lemma UpdateKeeps(q: Mq, x: nat, r: Req)
    requires x in q.rqs && Chains(q.rqs) && Owned(q.rqs, q.submitted, q.owner) && Complete(q.rqs)
    requires r.bios == q.rqs[x].bios && r.sector == q.rqs[x].sector && r.dataLen == q.rqs[x].dataLen
    requires (r.place == Gone <==> q.rqs[x].place == Gone) && (r.place == Sorted && r.mergeable ==> r.bucket.Some?)
    ensures Chains(q.rqs[x := r]) && Owned(q.rqs[x := r], q.submitted, q.owner) && Complete(q.rqs[x := r])
  {
    hide Chains, ChainOk, Owned, Complete;
    ChainOf(q.rqs, x, r);
    ChainsFrame(q.rqs, x, r);
    CompleteFrame(q.rqs, x, r);
    OwnedFrame(q.rqs, q.submitted, q.owner, x, r);
  }

  /** A request that is not with the scheduler is on no chain. */
  lemma NotFiled(h: nat -> nat, q: Mq, x: nat)
    requires HashOk(h, q.rqs, q.buckets) && x in q.rqs
    ensures |q.buckets| == ELV_HASH_ENTRIES && Stale(h, q.rqs, q.buckets, x)
    ensures q.rqs[x].place != Sorted ==> q.rqs[x].bucket.None?
  {
    OkIsStale(h, q.rqs, q.buckets, x);
  }

  lemma BackInv(h: nat -> nat, q: Mq, x: nat, bio: Bio)
    requires Inv(h, q) && Allowed(q, Back(x, bio))
    ensures Inv(h, BackMerged(h, q, x, bio))
  {
    hide HashOk, Stale, Owned, ChainOk, Rehashed, DataBio, Chains, Complete;
    var p := GrownBack(q, x, bio);
    OkIsStale(h, q.rqs, q.buckets, x);
    StaleChange(h, q.rqs, q.buckets, x, p.rqs[x]);
    RehashedOk(h, p, x);
    ChainOf(q.rqs, x, q.rqs[x]);
    GrownChain(q.rqs[x], bio);
    CompleteOf(q.rqs, x);
    ChainsFrame(q.rqs, x, p.rqs[x]);
    CompleteFrame(q.rqs, x, p.rqs[x]);
    OwnedGrow(q.rqs, q.submitted, q.owner, x, p.rqs[x], bio);
    UpdateKeeps(p, x, Rehashed(h, p, x).rqs[x]);
  }

  lemma FrontInv(h: nat -> nat, q: Mq, x: nat, bio: Bio)
    requires Inv(h, q) && Allowed(q, Front(x, bio))
    ensures Inv(h, FrontMerged(q, x, bio))
  {
    hide HashOk, Stale, Owned, ChainOk, DataBio, Key, Chains, Complete;
    var p := GrownFront(q, x, bio);
    OkIsStale(h, q.rqs, q.buckets, x);
    StaleChange(h, q.rqs, q.buckets, x, p.rqs[x]);
    ChainOf(q.rqs, x, q.rqs[x]);
    GrownChain(q.rqs[x], bio);
    StaleIsOk(h, p.rqs, q.buckets, x);
    CompleteOf(q.rqs, x);
    ChainsFrame(q.rqs, x, p.rqs[x]);
    CompleteFrame(q.rqs, x, p.rqs[x]);
    OwnedGrow(q.rqs, q.submitted, q.owner, x, p.rqs[x], bio);
  }

  /** A bio joins a plugged request: no hash and no scheduler is involved. */
  lemma PlugInv(h: nat -> nat, q: Mq, x: nat, bio: Bio)
    requires Inv(h, q) && Plugged(q, x) && Fresh(q, bio)
    ensures bio.sector == Key(q.rqs[x]) ==> Inv(h, GrownBack(q, x, bio))
    ensures bio.sector + BioSectors(bio) == q.rqs[x].sector ==> Inv(h, GrownFront(q, x, bio))
  {
    hide HashOk, Stale, Owned, ChainOk, DataBio, Key, Chains, Complete;
    PlugChain(h, q, x, bio);
    if bio.sector == Key(q.rqs[x]) {
      GrownPlugged(h, q, x, bio, GrownBack(q, x, bio).rqs[x]);
    }
    if bio.sector + BioSectors(bio) == q.rqs[x].sector {
      GrownPlugged(h, q, x, bio, GrownFront(q, x, bio).rqs[x]);
    }
  }

  lemma PlugChain(h: nat -> nat, q: Mq, x: nat, bio: Bio)
    requires Inv(h, q) && Plugged(q, x) && Fresh(q, bio)
    ensures bio.sector == Key(q.rqs[x]) ==> ChainOk(GrownBack(q, x, bio).rqs[x])
    ensures bio.sector + BioSectors(bio) == q.rqs[x].sector ==> ChainOk(GrownFront(q, x, bio).rqs[x])
  {
    hide HashOk, Stale, Owned, ChainOk, DataBio, Key, Chains, Complete;
    ChainOf(q.rqs, x, q.rqs[x]);
    GrownChain(q.rqs[x], bio);
  }

  lemma GrownPlugged(h: nat -> nat, q: Mq, x: nat, bio: Bio, r: Req)
    requires Inv(h, q) && Plugged(q, x) && Fresh(q, bio) && ChainOk(r)
    requires r.bios == q.rqs[x].bios + [bio] || r.bios == [bio] + q.rqs[x].bios
    requires r.place == Held && r.bucket == q.rqs[x].bucket
    ensures Inv(h, q.(rqs := q.rqs[x := r], submitted := q.submitted[bio.id := bio], owner := q.owner[bio.id := x]))
  {
    hide HashOk, Stale, Owned, ChainOk, DataBio, Key, Chains, Complete;
    NotFiled(h, q, x);
    StaleChange(h, q.rqs, q.buckets, x, r);
    StaleIsOk(h, q.rqs[x := r], q.buckets, x);
    ChainsFrame(q.rqs, x, r);
    CompleteFrame(q.rqs, x, r);
    OwnedGrow(q.rqs, q.submitted, q.owner, x, r, bio);
  }

  lemma CloseInv(h: nat -> nat, q: Mq, x: nat)
    requires Inv(h, q) && x in q.rqs
    ensures Inv(h, Closed(q, x))
  {
    hide HashOk, Stale, Owned, Bucket, Chains, ChainOk, Complete;
    var r := q.rqs[x].(mergeable := false);
    OkIsStale(h, q.rqs, q.buckets, x);
    StaleChange(h, q.rqs, q.buckets, x, r);
    StaleIsOk(h, q.rqs[x := r], q.buckets, x);
    UpdateKeeps(q, x, r);
  }

  lemma SendInv(h: nat -> nat, q: Mq, x: nat)
    requires Inv(h, q) && x in q.rqs && q.rqs[x].place == Sorted
    ensures Inv(h, Sent(h, q, x))
  {
    hide HashOk, Stale, Owned, Bucket, Unhash, Chains, ChainOk, Complete;
    OkIsStale(h, q.rqs, q.buckets, x);
    UnhashStale(h, q, x);
    var p := Unhash(q, x);
    UnhashFrame(q, x);
    var r := q.rqs[x].(bucket := None, place := Dispatched);
    StaleChange(h, p.rqs, p.buckets, x, r);
    StaleIsOk(h, p.rqs[x := r], p.buckets, x);
    UpdateKeeps(q, x, r);
    assert p.rqs[x := r] == q.rqs[x := r];
  }

  lemma UnhashFrame(q: Mq, x: nat)
    requires x in q.rqs
    requires q.rqs[x].bucket.Some? ==> q.rqs[x].bucket.value < |q.buckets| && x in q.buckets[q.rqs[x].bucket.value]
    ensures var p := Unhash(q, x); p.last == q.last && p.submitted == q.submitted && p.owner == q.owner
  {
  }

  /** What joining leaves in the two requests. */
  ghost function Absorber(q: Mq, x: nat, y: nat, bucket: Option<nat>): Req
    requires x in q.rqs && y in q.rqs
  {
    q.rqs[x].(bios := q.rqs[x].bios + q.rqs[y].bios, dataLen := q.rqs[x].dataLen + q.rqs[y].dataLen, bucket := bucket)
  }

  ghost function Absorbed(q: Mq, y: nat): Req
    requires y in q.rqs
  {
    q.rqs[y].(bios := [], dataLen := 0, place := Gone, bucket := None)
  }

  lemma JoinHash(h: nat -> nat, q: Mq, x: nat, y: nat)
    requires Stale(h, q.rqs, q.buckets, x) && x in q.rqs && y in q.rqs && x != y && q.rqs[x].place == Sorted
    ensures var p := Fused(h, q, x, y);
            && HashOk(h, p.rqs, p.buckets) && p.last == Some(x) && p.submitted == q.submitted
            && p.owner == Reowned(q.owner, x, y)
            && x in p.rqs && p.rqs[x].bucket.Some?
            && p.rqs == q.rqs[x := Absorber(q, x, y, p.rqs[x].bucket)][y := Absorbed(q, y)]
  {
    hide HashOk, Stale, Bucket, Unhash, Rehashed;
    var g := GrownBy(q, x, y);
    GrownByStale(h, q, x, y);
    RehashedOk(h, g, x);
    var p := Rehashed(h, g, x);
    OkIsStale(h, p.rqs, p.buckets, y);
    UnhashStale(h, p, y);
    UnhashFrame(p, y);
    var u := Unhash(p, y);
    StaleChange(h, u.rqs, u.buckets, y, Absorbed(q, y));
    StaleIsOk(h, u.rqs[y := Absorbed(q, y)], u.buckets, y);
  }

  lemma JoinInv(h: nat -> nat, q: Mq, x: nat, y: nat)
    requires Inv(h, q) && Allowed(q, Join(x, y))
    ensures Stale(h, q.rqs, q.buckets, x) && Inv(h, Fused(h, q, x, y))
  {
    hide HashOk, Owned, Chains, Complete, ChainOk, Fused, Key, Stale;
    OkIsStale(h, q.rqs, q.buckets, x);
    JoinHash(h, q, x, y);
    var p := Fused(h, q, x, y);
    var r, s := Absorber(q, x, y, p.rqs[x].bucket), Absorbed(q, y);
    JoinChains(q, x, y, r, s);
    CompleteFrame(q.rqs, x, r);
    CompleteFrame(q.rqs[x := r], y, s);
    OwnedJoin(q.rqs, q.submitted, q.owner, x, y, r, s);
  }

  /** A request put back on the hash and then moved again is where one move would have put it. */
  lemma RehashedTwice(h: nat -> nat, g: Mq, x: nat, r: Req)
    requires Stale(h, g.rqs, g.buckets, x) && x in g.rqs && g.rqs[x].place == Sorted
    ensures var p := Rehashed(h, g, x);
            var g' := g.(rqs := g.rqs[x := r.(bucket := g.rqs[x].bucket)]);
            var p' := p.(rqs := p.rqs[x := r.(bucket := p.rqs[x].bucket)]);
            && Stale(h, g'.rqs, g'.buckets, x) && Stale(h, p'.rqs, p'.buckets, x)
            && Rehashed(h, p', x) == Rehashed(h, g', x)
  {
    hide Stale, HashOk, Bucket, Key;
    var p := Rehashed(h, g, x);
    RehashedOk(h, g, x);
    OkIsStale(h, p.rqs, p.buckets, x);
    StaleChange(h, g.rqs, g.buckets, x, r.(bucket := g.rqs[x].bucket));
    StaleChange(h, p.rqs, p.buckets, x, r.(bucket := p.rqs[x].bucket));
    UnhashStale(h, g, x);
    var u := Unhash(g, x);
    var b := Bucket(h, Key(u.rqs[x]));
    StaleSize(h, u.rqs, u.buckets, x);
    WithoutHead([x] + u.buckets[b], x);
    assert p.buckets[b := u.buckets[b]] == u.buckets;
    var p' := p.(rqs := p.rqs[x := r.(bucket := p.rqs[x].bucket)]);
    var g' := g.(rqs := g.rqs[x := r.(bucket := g.rqs[x].bucket)]);
    UnhashStale(h, g', x);
    UnhashStale(h, p', x);
    assert Unhash(p', x).buckets == u.buckets;
    assert Unhash(g', x).buckets == u.buckets;
    assert Unhash(p', x) == Unhash(g', x);
  }

  lemma StaleSize(h: nat -> nat, rqs: map<nat, Req>, buckets: seq<seq<nat>>, x: nat)
    requires Stale(h, rqs, buckets, x)
    ensures |buckets| == ELV_HASH_ENTRIES
  {
  }

  /** A back merge followed at once by a join needs only the join's move: what __make_request relies on */
  lemma BackThenJoin(h: nat -> nat, q: Mq, x: nat, bio: Bio, y: nat)
    requires HashOk(h, q.rqs, q.buckets) && x in q.rqs && y in q.rqs && x != y && q.rqs[x].place == Sorted
    ensures var g := GrownBack(q, x, bio);
            var p := BackMerged(h, q, x, bio);
            && Stale(h, g.rqs, g.buckets, x) && Stale(h, p.rqs, p.buckets, x) && y in p.rqs && p.rqs[x].place == Sorted
            && Fused(h, p, x, y) == Fused(h, g, x, y)
  {
    hide Stale, HashOk, Bucket, Key, Unhash, Rehashed, Fused;
    var g := GrownBack(q, x, bio);
    OkIsStale(h, q.rqs, q.buckets, x);
    StaleChange(h, q.rqs, q.buckets, x, g.rqs[x]);
    RehashedOk(h, g, x);
    RehashedThenJoin(h, g, x, y);
  }

  lemma RehashedThenJoin(h: nat -> nat, g: Mq, x: nat, y: nat)
    requires Stale(h, g.rqs, g.buckets, x) && x in g.rqs && y in g.rqs && x != y && g.rqs[x].place == Sorted
    ensures var p := Rehashed(h, g, x).(last := Some(x));
            && Stale(h, p.rqs, p.buckets, x) && x in p.rqs && y in p.rqs && p.rqs[x].place == Sorted
            && Fused(h, p, x, y) == Fused(h, g, x, y)
  {
    hide Stale, HashOk, Bucket, Key, Unhash, Rehashed, Fused;
    RehashedOk(h, g, x);
    var once := Rehashed(h, g, x);
    var p := once.(last := Some(x));
    OkIsStale(h, once.rqs, once.buckets, x);
    GrownByStale(h, g, x, y);
    GrownTwice(h, g, x, y);
    RehashIgnoresLast(h, GrownBy(once, x, y), x, Some(x));
    assert GrownBy(p, x, y) == GrownBy(once, x, y).(last := Some(x));
    SameJoin(h, g, p, x, y);
  }

  lemma GrownTwice(h: nat -> nat, g: Mq, x: nat, y: nat)
    requires Stale(h, g.rqs, g.buckets, x) && x in g.rqs && y in g.rqs && x != y && g.rqs[x].place == Sorted
    ensures var once := Rehashed(h, g, x);
            && y in once.rqs && Stale(h, GrownBy(g, x, y).rqs, g.buckets, x)
            && Stale(h, GrownBy(once, x, y).rqs, once.buckets, x)
            && Rehashed(h, GrownBy(once, x, y), x) == Rehashed(h, GrownBy(g, x, y), x)
  {
    hide Stale, HashOk, Bucket, Key, Unhash, Rehashed;
    var once := Rehashed(h, g, x);
    RehashedOk(h, g, x);
    var r := GrownBy(g, x, y).rqs[x];
    RehashedTwice(h, g, x, r);
    assert GrownBy(g, x, y) == g.(rqs := g.rqs[x := r.(bucket := g.rqs[x].bucket)]);
    assert GrownBy(once, x, y) == once.(rqs := once.rqs[x := r.(bucket := once.rqs[x].bucket)]);
  }

  lemma RehashIgnoresLast(h: nat -> nat, q: Mq, x: nat, last: Option<nat>)
    requires Stale(h, q.rqs, q.buckets, x) && x in q.rqs
    ensures Rehashed(h, q.(last := last), x) == Rehashed(h, q, x).(last := last)
  {
    hide Stale, Bucket, Key, Without;
    UnhashStale(h, q, x);
  }

  lemma UnhashIgnoresLast(q: Mq, x: nat, last: Option<nat>)
    requires x in q.rqs
    requires q.rqs[x].bucket.Some? ==> q.rqs[x].bucket.value < |q.buckets| && x in q.buckets[q.rqs[x].bucket.value]
    ensures Unhash(q.(last := last), x) == Unhash(q, x).(last := last)
  {
  }

  /** Joining depends on nothing but the repositioned state. */
  lemma SameJoin(h: nat -> nat, q: Mq, p: Mq, x: nat, y: nat)
    requires Stale(h, q.rqs, q.buckets, x) && x in q.rqs && y in q.rqs && x != y && q.rqs[x].place == Sorted
    requires Stale(h, p.rqs, p.buckets, x) && x in p.rqs && y in p.rqs && p.rqs[x].place == Sorted
    requires Stale(h, GrownBy(q, x, y).rqs, q.buckets, x) && Stale(h, GrownBy(p, x, y).rqs, p.buckets, x)
    requires Rehashed(h, GrownBy(p, x, y), x) == Rehashed(h, GrownBy(q, x, y), x).(last := p.last)
    ensures Fused(h, p, x, y) == Fused(h, q, x, y)
  {
    hide Stale, HashOk, Bucket, Key, Unhash, Rehashed;
    var r := Rehashed(h, GrownBy(q, x, y), x);
    RehashedPlace(h, q, x, y);
    OkIsStale(h, r.rqs, r.buckets, y);
    UnhashStale(h, r, y);
    UnhashIgnoresLast(r, y, p.last);
  }

  lemma RehashedPlace(h: nat -> nat, q: Mq, x: nat, y: nat)
    requires Stale(h, q.rqs, q.buckets, x) && x in q.rqs && y in q.rqs && x != y && q.rqs[x].place == Sorted
    ensures Stale(h, GrownBy(q, x, y).rqs, q.buckets, x)
    ensures var r := Rehashed(h, GrownBy(q, x, y), x); HashOk(h, r.rqs, r.buckets) && y in r.rqs
  {
    hide Stale, HashOk, Bucket, Key, Unhash, Rehashed;
    GrownByStale(h, q, x, y);
    RehashedOk(h, GrownBy(q, x, y), x);
  }

  lemma JoinChains(q: Mq, x: nat, y: nat, r: Req, s: Req)
    requires Chains(q.rqs) && Allowed(q, Join(x, y))
    requires r == Absorber(q, x, y, r.bucket) && s == Absorbed(q, y)
    ensures Chains(q.rqs[x := r][y := s])
  {
    hide Chains, Chained, Key;
    var grown := q.rqs[x].(bios := r.bios, dataLen := r.dataLen);
    ChainOf(q.rqs, x, q.rqs[x]);
    ChainOf(q.rqs, y, q.rqs[y]);
    JoinedChain(q.rqs[x], q.rqs[y]);
    ChainsFrame(q.rqs, x, r);
    ChainsFrame(q.rqs[x := r], y, s);
  }

  lemma FindInv(h: nat -> nat, q: Mq, offset: nat)
    requires Inv(h, q)
    ensures Inv(h, Step(h, q, Find(offset)))
  {
    hide HashOk, Sweep, Chains, Owned, Complete;
    ChainReady(h, q, Bucket(h, offset));
    var s := q.buckets[Bucket(h, offset)];
    SweepFinds(h, q, s, offset);
    SweptKeeps(q, Sweep(q, s, offset).0);
  }

  lemma SweptKeeps(q: Mq, p: Mq)
    requires Swept(q, p) && Chains(q.rqs) && Complete(q.rqs) && Owned(q.rqs, q.submitted, q.owner)
    ensures Chains(p.rqs) && Complete(p.rqs) && Owned(p.rqs, p.submitted, p.owner)
  {
    hide Chained, Owned, TotalSize;
    assert forall x | x in q.rqs :: p.rqs[x].bios == q.rqs[x].bios && p.rqs[x].dataLen == q.rqs[x].dataLen
                                    && p.rqs[x].sector == q.rqs[x].sector && p.rqs[x].place == q.rqs[x].place;
    OwnedSame(q.rqs, p.rqs, q.submitted, q.owner);
  }

  lemma OwnedSame(rqs: map<nat, Req>, rqs': map<nat, Req>, submitted: map<nat, Bio>, owner: map<nat, nat>)
    requires Owned(rqs, submitted, owner) && rqs'.Keys == rqs.Keys && forall x | x in rqs :: rqs'[x].bios == rqs[x].bios
    ensures Owned(rqs', submitted, owner)
  {
  }

  lemma StepInv(h: nat -> nat, q: Mq, a: Action)
    requires Inv(h, q) && Allowed(q, a)
    ensures Inv(h, Step(h, q, a))
  {
    hide Fused, BackMerged, FrontMerged, GrownBack, GrownFront, Sent, Closed, Inserted, MadeFor, Sweep;
    hide HashOk, Owned, Complete, LastOk, Chains;
    match a
    case Make(x, bio, m) => MakeInv(h, q, x, bio, m);
    case Insert(x) => InsertInv(h, q, x);
    case Back(x, bio) => BackInv(h, q, x, bio);
    case Front(x, bio) => FrontInv(h, q, x, bio);
    case PlugBack(x, bio) => PlugInv(h, q, x, bio);
    case PlugFront(x, bio) => PlugInv(h, q, x, bio);
    case Join(x, y) => JoinInv(h, q, x, y);
    case Close(x) => CloseInv(h, q, x);
    case Send(x) => SendInv(h, q, x);
    case Find(offset) => FindInv(h, q, offset);
  }

  // ---------------------------------------------------------------------------------------
  // Runs

  ghost predicate Legal(h: nat -> nat, q: Mq, acts: seq<Action>)
    requires Inv(h, q)
    decreases |acts|
  {
    acts == [] || (Allowed(q, acts[0]) && (StepInv(h, q, acts[0]); Legal(h, Step(h, q, acts[0]), acts[1..])))
  }

  ghost function After(h: nat -> nat, q: Mq, acts: seq<Action>): (p: Mq)
    requires Inv(h, q) && Legal(h, q, acts)
    ensures Inv(h, p)
    decreases |acts|
  {
    if acts == [] then q
    else
      StepInv(h, q, acts[0]);
      After(h, Step(h, q, acts[0]), acts[1..])
  }

  /** Some request that is with the scheduler, can be merged and ends at the sector. */
  ghost predicate SomeEndsAt(q: Mq, offset: nat) {
    exists x :: x in q.rqs && Open(q, x) && Key(q.rqs[x]) == offset
  }

  /** The search finds a request exactly when a scan of all requests would, and what it finds is one of those. */
  lemma FindExact(h: nat -> nat, q: Mq, offset: nat)
    requires Inv(h, q)
    ensures (ChainReady(h, q, Bucket(h, offset));
             var found := Sweep(q, q.buckets[Bucket(h, offset)], offset).1;
             && (found.Some? <==> SomeEndsAt(q, offset))
             && (found.Some? ==> Open(q, found.value) && Key(q.rqs[found.value]) == offset))
  {
    hide Sweep, Bucket, Chains, Owned;
    ChainReady(h, q, Bucket(h, offset));
    OkIsStale(h, q.rqs, q.buckets, 0);
    var s := q.buckets[Bucket(h, offset)];
    SweepFinds(h, q, s, offset);
    if SomeEndsAt(q, offset) {
      var x :| x in q.rqs && Open(q, x) && Key(q.rqs[x]) == offset;
      assert Filed(h, q.rqs[x]);
      assert x in s;
    }
  }

  /** Over every run, under any hash: each request still in use moves exactly the bytes of its bios, one
      gap-free run from its sector on; each bio ever submitted is in exactly one request, once and unchanged;
      and for every sector the search succeeds exactly when a scan of the mergeable requests would. */
  lemma MergingLosesNothing(h: nat -> nat, acts: seq<Action>)
    requires (InitInv(h); Legal(h, Init(), acts))
    ensures (InitInv(h);
             var q := After(h, Init(), acts);
             && (forall x | x in q.rqs && q.rqs[x].place != Gone ::
                   && Asked(q.rqs[x].bios) == Moves(q.rqs[x].sector, Bytes(Vecs(q.rqs[x].bios)))
                   && q.rqs[x].dataLen == |Asked(q.rqs[x].bios)|)
             && Owned(q.rqs, q.submitted, q.owner)
             && (forall offset :: ExactAt(h, q, offset)))
  {
    InitInv(h);
    var q := After(h, Init(), acts);
    hide Legal, After, Chained, Asked, Moves, Owned, HashOk;
    forall x | x in q.rqs && q.rqs[x].place != Gone
      ensures Asked(q.rqs[x].bios) == Moves(q.rqs[x].sector, Bytes(Vecs(q.rqs[x].bios)))
    {
      ChainIsRun(q.rqs[x].bios);
    }
    forall offset
      ensures ExactAt(h, q, offset)
    {
      FindExact(h, q, offset);
    }
  }

  ghost predicate ExactAt(h: nat -> nat, q: Mq, offset: nat)
    requires Inv(h, q)
  {
    ChainReady(h, q, Bucket(h, offset));
    var found := Sweep(q, q.buckets[Bucket(h, offset)], offset).1;
    && (found.Some? <==> SomeEndsAt(q, offset))
    && (found.Some? ==> Open(q, found.value) && Key(q.rqs[found.value]) == offset)
  }

  // ---------------------------------------------------------------------------------------
  // What each operation does, apart from the hash

  /** The request without its hash node. */
  function Bare(r: Req): Req { r.(bucket := None) }

  /** Only request x has changed, hash nodes apart, and it has become r. */
  ghost predicate Only(q: Mq, p: Mq, x: nat, r: Req) {
    && p.rqs.Keys == q.rqs.Keys + {x} && Bare(p.rqs[x]) == Bare(r)
    && forall y | y in q.rqs && y != x :: Bare(p.rqs[y]) == Bare(q.rqs[y])
  }

  /** A request that was made for a bio is not yet with the scheduler; inserting it puts it there, and into the one-hit
      cache if that is empty and it may be merged. */
  lemma InsertIs(h: nat -> nat, q: Mq, x: nat, bio: Bio, mergeable: bool)
    requires Inv(h, q)
    ensures Allowed(q, Make(x, bio, mergeable)) ==>
              var p := Step(h, q, Make(x, bio, mergeable));
              && Only(q, p, x, Req([bio], bio.sector, Size(bio.vecs), mergeable, Held, None)) && p.last == q.last
              && p.submitted == q.submitted[bio.id := bio] && p.owner == q.owner[bio.id := x]
    ensures Allowed(q, Insert(x)) ==>
              var p, r := Step(h, q, Insert(x)), q.rqs[x];
              && Only(q, p, x, r.(place := Sorted)) && p.submitted == q.submitted && p.owner == q.owner
              && p.last == if r.mergeable && q.last.None? then Some(x) else q.last
  {
    hide HashOk, Owned, Chains, Complete, Bucket, Size;
    if Allowed(q, Insert(x)) {
      OkIsStale(h, q.rqs, q.buckets, x);
    }
  }

  /** A bio added at the end: the length grows by its bytes, and a request of the scheduler goes into the one-hit
      cache. */
  lemma BackIs(h: nat -> nat, q: Mq, x: nat, bio: Bio)
    requires Inv(h, q) && x in q.rqs
    ensures var r := q.rqs[x].(bios := q.rqs[x].bios + [bio], dataLen := q.rqs[x].dataLen + Size(bio.vecs));
            && (Allowed(q, Back(x, bio)) ==>
                  var p := Step(h, q, Back(x, bio)); Only(q, p, x, r) && Given(q, p, x, bio) && p.last == Some(x))
            && (Allowed(q, PlugBack(x, bio)) ==>
                  var p := Step(h, q, PlugBack(x, bio)); Only(q, p, x, r) && Given(q, p, x, bio) && p.last == q.last)
  {
    hide HashOk, Owned, Chains, Complete, Bucket, Size, Stale, Rehashed;
    OkIsStale(h, q.rqs, q.buckets, x);
    if Allowed(q, Back(x, bio)) {
      var g := GrownBack(q, x, bio);
      StaleChange(h, q.rqs, q.buckets, x, g.rqs[x]);
      RehashedOk(h, g, x);
    }
  }

  /** A bio added at the front: the request also starts where the bio does. */
  lemma FrontIs(h: nat -> nat, q: Mq, x: nat, bio: Bio)
    requires Inv(h, q) && x in q.rqs
    ensures var r := q.rqs[x].(bios := [bio] + q.rqs[x].bios, sector := bio.sector,
                               dataLen := q.rqs[x].dataLen + Size(bio.vecs));
            && (Allowed(q, Front(x, bio)) ==>
                  var p := Step(h, q, Front(x, bio)); Only(q, p, x, r) && Given(q, p, x, bio) && p.last == Some(x))
            && (Allowed(q, PlugFront(x, bio)) ==>
                  var p := Step(h, q, PlugFront(x, bio)); Only(q, p, x, r) && Given(q, p, x, bio) && p.last == q.last)
  {
    hide HashOk, Owned, Chains, Complete, Size;
  }

  /** The bio is the request's now. */
  predicate Given(q: Mq, p: Mq, x: nat, bio: Bio) {
    p.submitted == q.submitted[bio.id := bio] && p.owner == q.owner[bio.id := x]
  }

  /** A closed request takes nothing more and is not in the one-hit cache. */
  lemma CloseIs(h: nat -> nat, q: Mq, x: nat)
    requires HashOk(h, q.rqs, q.buckets) && x in q.rqs
    ensures var p := Step(h, q, Close(x));
            && Only(q, p, x, q.rqs[x].(mergeable := false)) && p.submitted == q.submitted && p.owner == q.owner
            && p.last == if q.last == Some(x) then None else q.last
  {
    hide HashOk, Closed, Only;
    ClosedIs(q, x);
  }

  lemma ClosedIs(q: Mq, x: nat)
    requires x in q.rqs
    ensures var p := Closed(q, x);
            && Only(q, p, x, q.rqs[x].(mergeable := false)) && p.submitted == q.submitted && p.owner == q.owner
            && p.last == if q.last == Some(x) then None else q.last
  {
  }

  /** A sent request is with the driver, off the hash and not in the one-hit cache. */
  lemma SendIs(h: nat -> nat, q: Mq, x: nat)
    requires Inv(h, q) && Allowed(q, Send(x))
    ensures var p := Step(h, q, Send(x));
            && Only(q, p, x, q.rqs[x].(place := Dispatched)) && p.submitted == q.submitted && p.owner == q.owner
            && p.last == (if q.last == Some(x) then None else q.last) && p.rqs[x].bucket.None?
  {
    hide HashOk, Owned, Chains, Complete, Bucket, Stale, Without;
    OkIsStale(h, q.rqs, q.buckets, x);
    UnhashStale(h, q, x);
  }

  /** A request that takes over another has its bios after its own and is in the one-hit cache; the other is empty and
      gone, and what it owned is owned by the first. */
  lemma JoinIs(h: nat -> nat, q: Mq, x: nat, y: nat)
    requires Inv(h, q) && Allowed(q, Join(x, y))
    ensures var p, r, s := Step(h, q, Join(x, y)), q.rqs[x], q.rqs[y];
            && p.rqs.Keys == q.rqs.Keys && p.last == Some(x) && p.submitted == q.submitted
            && Bare(p.rqs[x]) == Bare(r.(bios := r.bios + s.bios, dataLen := r.dataLen + s.dataLen))
            && p.rqs[y] == s.(bios := [], dataLen := 0, place := Gone, bucket := None)
            && (forall z | z in q.rqs && z != x && z != y :: Bare(p.rqs[z]) == Bare(q.rqs[z]))
            && p.owner == map i | i in q.owner :: if q.owner[i] == y then x else q.owner[i]
  {
    hide HashOk, Owned, Chains, Complete, Bucket, Stale, Rehashed, Key, Unhash, Freed;
    OkIsStale(h, q.rqs, q.buckets, x);
    GrownByStale(h, q, x, y);
    var p := Rehashed(h, GrownBy(q, x, y), x);
    RehashedOk(h, GrownBy(q, x, y), x);
    OkIsStale(h, p.rqs, p.buckets, y);
    UnhashStale(h, p, y);
    UnhashIs(p, y);
    FreedIs(Unhash(p, y), x, y);
  }

  lemma UnhashIs(q: Mq, x: nat)
    requires x in q.rqs
    requires q.rqs[x].bucket.Some? ==> q.rqs[x].bucket.value < |q.buckets| && x in q.buckets[q.rqs[x].bucket.value]
    ensures var p := Unhash(q, x);
            p.rqs == q.rqs[x := q.rqs[x].(bucket := None)] && p.last == q.last && p.submitted == q.submitted
            && p.owner == q.owner
  {
    hide Without;
  }

  lemma FreedIs(q: Mq, x: nat, y: nat)
    requires y in q.rqs
    ensures var p := Freed(q, x, y);
            && p.rqs == q.rqs[y := q.rqs[y].(bios := [], dataLen := 0, place := Gone)]
            && p.last == Some(x) && p.submitted == q.submitted
            && p.owner == map i | i in q.owner :: if q.owner[i] == y then x else q.owner[i]
  {
  }

  /** A search changes nothing but hash nodes. */
  lemma FindIs(h: nat -> nat, q: Mq, offset: nat)
    requires Inv(h, q)
    ensures var p := Step(h, q, Find(offset));
            && p.rqs.Keys == q.rqs.Keys && (forall y | y in q.rqs :: Bare(p.rqs[y]) == Bare(q.rqs[y]))
            && p.last == q.last && p.submitted == q.submitted && p.owner == q.owner
  {
    hide HashOk, Owned, Chains, Complete, Bucket, Sweep;
    OkIsStale(h, q.rqs, q.buckets, 0);
    ChainReady(h, q, Bucket(h, offset));
    SweepBare(q, q.buckets[Bucket(h, offset)], offset);
  }

  lemma {:induction false} SweepBare(q: Mq, s: seq<nat>, offset: nat)
    requires SweepReady(q, s)
    ensures var p := Sweep(q, s, offset).0;
            && p.rqs.Keys == q.rqs.Keys && (forall y | y in q.rqs :: Bare(p.rqs[y]) == Bare(q.rqs[y]))
            && p.last == q.last && p.submitted == q.submitted && p.owner == q.owner
    decreases |s|
  {
    hide Without;
    if s != [] {
      if !q.rqs[s[0]].mergeable {
        SweepDrop(q, s);
        SweepBare(Unhash(q, s[0]), s[1..], offset);
      } else if Key(q.rqs[s[0]]) != offset {
        SweepBare(q, s[1..], offset);
      }
    }
  }
}
