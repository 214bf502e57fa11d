/** Merging at the queue: requests with their bios, and the merge hash of block/elevator.c that finds a
    request by the sector at which it ends. */
module MergeModel {
  import opened Common
  import opened ListOps
  import opened Bios
  import opened Merging

  const ELV_HASH_ENTRIES := 64

  /** Where a request is: allocated but not inserted, with the scheduler, dispatched, or freed after another
      request took its bios */
  datatype Place = Held | Sorted | Dispatched | Gone

  /** What merging uses of struct request; bucket is the chain its hash node is on */
  datatype Req = Req(bios: seq<Bio>, sector: nat, dataLen: nat, mergeable: bool, place: Place, bucket: Option<nat>)

  /** The queue; submitted and owner record every bio ever given to it and the request that has it now */
  datatype Mq = Mq(rqs: map<nat, Req>, buckets: seq<seq<nat>>, last: Option<nat>,
                   submitted: map<nat, Bio>, owner: map<nat, nat>)

  /** rq_hash_key: the sector after the request */
  function Key(r: Req): nat { r.sector + r.dataLen / SECTOR }

  /** ELV_HASH_FN, over any hash of the eight-sector block number */
  function Bucket(h: nat -> nat, sector: nat): (b: nat)
    ensures b < ELV_HASH_ENTRIES
  {
    h(sector / 8) % ELV_HASH_ENTRIES
  }

  // ---------------------------------------------------------------------------------------
  // The hash

  /** elv_rqhash_del and __elv_rqhash_del: take the request off its chain, if it is on one */
  function Unhash(q: Mq, x: nat): Mq
    requires x in q.rqs
    requires q.rqs[x].bucket.Some? ==> q.rqs[x].bucket.value < |q.buckets| && x in q.buckets[q.rqs[x].bucket.value]
  {
    var r := q.rqs[x];
    if r.bucket.None? then q
    else
      var b := r.bucket.value;
      q.(rqs := q.rqs[x := r.(bucket := None)], buckets := q.buckets[b := Without(q.buckets[b], x)])
  }

  /** elv_rqhash_add */
  function Hash(h: nat -> nat, q: Mq, x: nat): Mq
    requires x in q.rqs && |q.buckets| == ELV_HASH_ENTRIES
  {
    var r := q.rqs[x];
    var b := Bucket(h, Key(r));
    q.(rqs := q.rqs[x := r.(bucket := Some(b))], buckets := q.buckets[b := [x] + q.buckets[b]])
  }

  /** Chain nodes and chains agree: a request is on the chain its node says, once, and on no other. */
  ghost predicate Linked(rqs: map<nat, Req>, buckets: seq<seq<nat>>) {
    && |buckets| == ELV_HASH_ENTRIES
    && (forall b | 0 <= b < ELV_HASH_ENTRIES :: NoDup(buckets[b]))
    && (forall b, y | 0 <= b < ELV_HASH_ENTRIES && y in buckets[b] :: y in rqs && rqs[y].bucket == Some(b))
    && (forall y | y in rqs && rqs[y].bucket.Some? ::
          rqs[y].bucket.value < ELV_HASH_ENTRIES && y in buckets[rqs[y].bucket.value])
  }

  /** The hash is in order, but for x the key is not looked at: its end may just have moved. */
  ghost predicate Stale(h: nat -> nat, rqs: map<nat, Req>, buckets: seq<seq<nat>>, x: nat) {
    Linked(rqs, buckets) && forall y | y in rqs && y != x :: Filed(h, rqs[y])
  }

  /** A request that is on the hash is with the scheduler, and on the chain of the sector at which it ends. */
  ghost predicate Filed(h: nat -> nat, r: Req) {
    r.bucket.Some? ==> r.place == Sorted && r.bucket.value == Bucket(h, Key(r))
  }

  ghost predicate HashOk(h: nat -> nat, rqs: map<nat, Req>, buckets: seq<seq<nat>>) {
    Linked(rqs, buckets) && forall x | x in rqs :: Filed(h, rqs[x])
  }

  lemma StaleIsOk(h: nat -> nat, rqs: map<nat, Req>, buckets: seq<seq<nat>>, x: nat)
    requires Stale(h, rqs, buckets, x) && (x in rqs ==> Filed(h, rqs[x]))
    ensures HashOk(h, rqs, buckets)
  {
  }

  lemma OkIsStale(h: nat -> nat, rqs: map<nat, Req>, buckets: seq<seq<nat>>, x: nat)
    requires HashOk(h, rqs, buckets)
    ensures Stale(h, rqs, buckets, x) && (x in rqs ==> Filed(h, rqs[x]))
  {
  }

  /** A request may change in everything but its chain. */
  lemma StaleChange(h: nat -> nat, rqs: map<nat, Req>, buckets: seq<seq<nat>>, x: nat, r: Req)
    requires Stale(h, rqs, buckets, x)
    requires r.bucket == if x in rqs then rqs[x].bucket else None
    ensures Stale(h, rqs[x := r], buckets, x)
  {
  }

  /** Off the chain it is on nothing. */
  lemma UnhashStale(h: nat -> nat, q: Mq, x: nat)
    requires Stale(h, q.rqs, q.buckets, x) && x in q.rqs
    ensures q.rqs[x].bucket.Some? ==> q.rqs[x].bucket.value < |q.buckets| && x in q.buckets[q.rqs[x].bucket.value]
    ensures var p := Unhash(q, x);
            Stale(h, p.rqs, p.buckets, x) && p.rqs == q.rqs[x := q.rqs[x].(bucket := None)]
  {
    hide Bucket, Without, NoDup, Linked;
    UnlinkedOk(q.rqs, q.buckets, x);
    if q.rqs[x].bucket.None? {
      assert q.rqs[x := q.rqs[x].(bucket := None)] == q.rqs;
    }
  }

  lemma UnlinkedOk(rqs: map<nat, Req>, buckets: seq<seq<nat>>, x: nat)
    requires Linked(rqs, buckets) && x in rqs
    ensures rqs[x].bucket.Some? ==>
              && rqs[x].bucket.value < |buckets| && x in buckets[rqs[x].bucket.value]
              && var b := rqs[x].bucket.value;
                 Linked(rqs[x := rqs[x].(bucket := None)], buckets[b := Without(buckets[b], x)])
  {
    hide Without, NoDup;
    if rqs[x].bucket.Some? {
      WithoutMembers(buckets[rqs[x].bucket.value], x);
    }
  }

  /** Added to the chain of its end, it is where a search will look. */
  lemma HashStale(h: nat -> nat, q: Mq, x: nat)
    requires Stale(h, q.rqs, q.buckets, x) && x in q.rqs && q.rqs[x].bucket.None? && q.rqs[x].place == Sorted
    ensures |q.buckets| == ELV_HASH_ENTRIES
    ensures var p := Hash(h, q, x); HashOk(h, p.rqs, p.buckets)
  {
    hide Bucket, Linked;
    LinkedOk(q.rqs, q.buckets, x, Bucket(h, Key(q.rqs[x])));
  }

  lemma LinkedOk(rqs: map<nat, Req>, buckets: seq<seq<nat>>, x: nat, b: nat)
    requires Linked(rqs, buckets) && x in rqs && rqs[x].bucket.None? && b < ELV_HASH_ENTRIES
    ensures |buckets| == ELV_HASH_ENTRIES
    ensures Linked(rqs[x := rqs[x].(bucket := Some(b))], buckets[b := [x] + buckets[b]])
  {
    hide NoDup;
    PushedFront(buckets[b], x);
  }

  lemma PushedFront(s: seq<nat>, x: nat)
    requires NoDup(s) && x !in s
    ensures NoDup([x] + s) && forall y :: y in [x] + s <==> y in s || y == x
  {
  }

  // ---------------------------------------------------------------------------------------
  // The search

  /** elv_rqhash_find from one entry of a chain on: requests that cannot be merged any more are dropped */
  function Sweep(q: Mq, s: seq<nat>, offset: nat): (Mq, Option<nat>)
    requires SweepReady(q, s)
    decreases |s|
  {
    if s == [] then (q, None)
    else
      var r := q.rqs[s[0]];
      if !r.mergeable then
        SweepDrop(q, s);
        Sweep(Unhash(q, s[0]), s[1..], offset)
      else if Key(r) == offset then (q, Some(s[0]))
      else Sweep(q, s[1..], offset)
  }

  /** What is left of the chain is on the chain. */
  ghost predicate SweepReady(q: Mq, s: seq<nat>) {
    && NoDup(s)
    && forall x | x in s :: x in q.rqs && q.rqs[x].bucket.Some? && q.rqs[x].bucket.value < |q.buckets|
                            && x in q.buckets[q.rqs[x].bucket.value]
  }

  lemma SweepDrop(q: Mq, s: seq<nat>)
    requires SweepReady(q, s) && s != []
    ensures SweepReady(Unhash(q, s[0]), s[1..])
  {
    var x, b := s[0], q.rqs[s[0]].bucket.value;
    var p := Unhash(q, x);
    forall y | y in s[1..]
      ensures y in p.rqs && p.rqs[y].bucket.Some? && p.rqs[y].bucket.value < |p.buckets|
      ensures y in p.buckets[p.rqs[y].bucket.value]
    {
      assert y in s && y != x;
      WithoutOther(q.buckets[b], x, y);
    }
  }

  lemma WithoutOther(s: seq<nat>, x: nat, y: nat)
    requires x in s && x != y
    ensures y in s ==> y in Without(s, x)
  {
    if y in s {
      var j :| 0 <= j < |s| && s[j] == y;
      var i := IndexOf(s, x);
      assert Without(s, x)[if j < i then j else j - 1] == y;
    }
  }

  /** What is found ends at the sector, can be merged and is on the hash; and if nothing is found, nothing on
      the rest of the chain does. Nothing but chain nodes changes, and only of requests that cannot be merged. */
  ghost predicate Swept(q: Mq, p: Mq) {
    && p.last == q.last && p.submitted == q.submitted && p.owner == q.owner && |p.buckets| == |q.buckets|
    && p.rqs.Keys == q.rqs.Keys
    && forall x | x in q.rqs ::
         p.rqs[x] == q.rqs[x] || (!q.rqs[x].mergeable && p.rqs[x] == q.rqs[x].(bucket := None))
  }

  lemma {:induction false} SweepFinds(h: nat -> nat, q: Mq, s: seq<nat>, offset: nat)
    requires SweepReady(q, s) && HashOk(h, q.rqs, q.buckets)
    ensures var (p, found) := Sweep(q, s, offset);
            && HashOk(h, p.rqs, p.buckets) && Swept(q, p)
            && (found.Some? ==> found.value in s && q.rqs[found.value].mergeable && Key(q.rqs[found.value]) == offset)
            && (found.None? ==> forall x | x in s :: !(q.rqs[x].mergeable && Key(q.rqs[x]) == offset))
    decreases |s|
  {
    hide HashOk, Stale, Key, NoDup, Bucket, Filed;
    if s != [] {
      var x := s[0];
      var r := q.rqs[x];
      if !r.mergeable {
        SweepDrop(q, s);
        var p := Unhash(q, x);
        OkIsStale(h, q.rqs, q.buckets, x);
        UnhashStale(h, q, x);
        StaleIsOk(h, p.rqs, p.buckets, x);
        SweepFinds(h, p, s[1..], offset);
      } else if Key(r) != offset {
        SweepRest(q, s);
        SweepFinds(h, q, s[1..], offset);
      }
    }
  }

  lemma SweepRest(q: Mq, s: seq<nat>)
    requires SweepReady(q, s) && s != []
    ensures SweepReady(q, s[1..])
  {
  }
}
