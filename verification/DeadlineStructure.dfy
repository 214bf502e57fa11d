/** The deadline scheduler keeps two views of the same requests: what every operation preserves. */
module DeadlineStructure {
  import opened Common
  import opened ListOps
  import opened DeadlineModel

  // ---------------------------------------------------------------------------------------
  // One direction

  /** Both views hold the same requests, one by position and one by expiry, and next_rq is one of them. */
  ghost predicate SideOk(rqs: map<nat, Rq>, s: Side, dir: Dir, limit: int) {
    && NoDup(s.sort) && NoDup(s.fifo)
    && (forall x :: x in s.sort <==> x in s.fifo)
    && (forall x | x in s.sort :: x in rqs && rqs[x].dir == dir && rqs[x].time <= limit)
    && ByPos(rqs, s.sort) && ByTime(rqs, s.fifo)
    && (s.next.Some? ==> s.next.value in s.sort)
  }

  /** Nothing changes for a direction when a request elsewhere changes, or time passes. */
  lemma SideFrame(rqs: map<nat, Rq>, s: Side, dir: Dir, limit: int, x: nat, rq: Rq, later: int)
    requires SideOk(rqs, s, dir, limit) && x !in s.sort && limit <= later
    ensures SideOk(rqs[x := rq], s, dir, later)
  {
    assert forall y | y in s.fifo :: y in s.sort;
    assert forall i | 0 <= i < |s.sort| :: s.sort[i] != x;
    assert forall i | 0 <= i < |s.fifo| :: s.fifo[i] in s.fifo;
  }

  lemma SideLater(rqs: map<nat, Rq>, s: Side, dir: Dir, limit: int, later: int)
    requires SideOk(rqs, s, dir, limit) && limit <= later
    ensures SideOk(rqs, s, dir, later)
  {
  }

  lemma SideNext(rqs: map<nat, Rq>, s: Side, dir: Dir, limit: int)
    requires SideOk(rqs, s, dir, limit)
    ensures SideOk(rqs, s.(next := None), dir, limit)
  {
  }

  lemma PlacedByPos(rqs: map<nat, Rq>, s: seq<nat>, x: nat)
    requires ByPos(rqs, s) && x in rqs
    ensures ByPos(rqs, RbAdd(rqs, s, x))
  {
    var i := Place(rqs, s, rqs[x].pos);
    var t := RbAdd(rqs, s, x);
    hide InsertAt;
    forall j | 0 <= j < |t|
      ensures t[j] in rqs
    {
      Entry(s, i, x, j);
    }
    forall j, k | 0 <= j < k < |t|
      ensures rqs[t[j]].pos <= rqs[t[k]].pos
    {
      Entry(s, i, x, j);
      Entry(s, i, x, k);
      InOrder(rqs, s, x, i, j, k);
    }
  }

  lemma Entry(s: seq<nat>, i: nat, x: nat, j: nat)
    requires i <= |s| && j < |InsertAt(s, i, x)|
    ensures |InsertAt(s, i, x)| == |s| + 1
    ensures InsertAt(s, i, x)[j] == if j < i then s[j] else if j == i then x else s[j - 1]
  {
  }

  lemma InOrder(rqs: map<nat, Rq>, s: seq<nat>, x: nat, i: nat, j: nat, k: nat)
    requires ByPos(rqs, s) && x in rqs && i == Place(rqs, s, rqs[x].pos) && j < k <= |s|
    ensures var a := if j < i then s[j] else if j == i then x else s[j - 1];
            var b := if k < i then s[k] else if k == i then x else s[k - 1];
            a in rqs && b in rqs && rqs[a].pos <= rqs[b].pos
  {
  }

  lemma RestByPos(rqs: map<nat, Rq>, s: seq<nat>, x: nat)
    requires ByPos(rqs, s) && x in s && NoDup(s)
    ensures ByPos(rqs, Without(s, x))
  {
    WithoutMembers(s, x);
  }

  lemma RestByTime(rqs: map<nat, Rq>, s: seq<nat>, x: nat)
    requires ByTime(rqs, s) && x in s && NoDup(s)
    ensures ByTime(rqs, Without(s, x))
  {
    WithoutMembers(s, x);
  }

  lemma SideAdded(rqs: map<nat, Rq>, s: Side, dir: Dir, limit: int, x: nat)
    requires SideOk(rqs, s, dir, limit) && x !in s.sort
    requires x in rqs && rqs[x].dir == dir && rqs[x].time == limit
    ensures SideOk(rqs, s.(sort := RbAdd(rqs, s.sort, x), fifo := s.fifo + [x]), dir, limit)
  {
    hide ByPos, ByTime, RbAdd, NoDup;
    AddedViews(rqs, s.sort, s.fifo, x, limit);
  }

  lemma AddedViews(rqs: map<nat, Rq>, sort: seq<nat>, fifo: seq<nat>, x: nat, limit: int)
    requires NoDup(sort) && NoDup(fifo) && ByPos(rqs, sort) && ByTime(rqs, fifo)
    requires x !in sort && x !in fifo && x in rqs && rqs[x].time == limit
    requires forall y | y in fifo :: y in rqs && rqs[y].time <= limit
    ensures NoDup(RbAdd(rqs, sort, x)) && ByPos(rqs, RbAdd(rqs, sort, x))
    ensures |RbAdd(rqs, sort, x)| == |sort| + 1
    ensures forall y :: y in RbAdd(rqs, sort, x) <==> y in sort || y == x
    ensures NoDup(fifo + [x]) && ByTime(rqs, fifo + [x])
  {
    PlacedByPos(rqs, sort, x);
    InsertMembers(sort, Place(rqs, sort, rqs[x].pos), x);
    assert forall i | 0 <= i < |fifo| :: fifo[i] in fifo;
  }

  lemma SideRemoved(rqs: map<nat, Rq>, s: Side, dir: Dir, limit: int, x: nat)
    requires SideOk(rqs, s, dir, limit) && x in s.sort
    ensures SideOk(rqs, Removed(s, x), dir, limit)
    ensures Latter(s.sort, x).Some? ==> Latter(s.sort, x).value in Without(s.sort, x)
    ensures |Without(s.sort, x)| == |s.sort| - 1
    ensures forall y :: y in Without(s.sort, x) <==> y in s.sort && y != x
  {
    hide ByPos, ByTime;
    WithoutMembers(s.sort, x);
    WithoutMembers(s.fifo, x);
    RestByPos(rqs, s.sort, x);
    RestByTime(rqs, s.fifo, x);
    LatterStays(s.sort, x);
  }

  lemma LatterStays(s: seq<nat>, x: nat)
    requires x in s && NoDup(s)
    ensures Latter(s, x).Some? ==> Latter(s, x).value in s && Latter(s, x).value != x
  {
  }

  /** deadline_merged_request takes the request out of the tree and puts it back where it now belongs */
  lemma SideFront(rqs: map<nat, Rq>, s: Side, dir: Dir, limit: int, x: nat, rq: Rq)
    requires SideOk(rqs, s, dir, limit) && x in s.sort && rq.dir == dir && rq.time == rqs[x].time
    ensures Known(rqs[x := rq], Without(s.sort, x))
    ensures SideOk(rqs[x := rq], s.(sort := RbAdd(rqs[x := rq], Without(s.sort, x), x)), dir, limit)
    ensures |RbAdd(rqs[x := rq], Without(s.sort, x), x)| == |s.sort|
    ensures forall y :: y in RbAdd(rqs[x := rq], Without(s.sort, x), x) <==> y in s.sort
  {
    hide ByPos, ByTime, NoDup, Without, RbAdd;
    Replaced(rqs, s.sort, x, rq);
    SameTimes(rqs, s.fifo, x, rq);
  }

  lemma SameTimes(rqs: map<nat, Rq>, s: seq<nat>, x: nat, rq: Rq)
    requires ByTime(rqs, s) && x in s && rq.time == rqs[x].time
    ensures ByTime(rqs[x := rq], s)
  {
    assert forall i | 0 <= i < |s| :: s[i] in s;
  }

  lemma SamePos(rqs: map<nat, Rq>, s: seq<nat>, x: nat, rq: Rq)
    requires ByPos(rqs, s) && x in rqs && rq.pos == rqs[x].pos
    ensures ByPos(rqs[x := rq], s)
  {
    assert forall i | 0 <= i < |s| :: s[i] in s;
  }

  /** Taking x out of the tree and putting it back. */
  lemma Replaced(rqs: map<nat, Rq>, s: seq<nat>, x: nat, rq: Rq)
    requires ByPos(rqs, s) && NoDup(s) && x in s
    ensures Known(rqs[x := rq], Without(s, x))
    ensures var t := RbAdd(rqs[x := rq], Without(s, x), x);
            ByPos(rqs[x := rq], t) && NoDup(t) && |t| == |s| && forall y :: y in t <==> y in s
  {
    var after, rest := rqs[x := rq], Without(s, x);
    WithoutMembers(s, x);
    RestByPos(rqs, s, x);
    hide Without;
    assert forall i | 0 <= i < |rest| :: rest[i] in rest;
    assert ByPos(after, rest);
    PlacedByPos(after, rest, x);
    InsertMembers(rest, Place(after, rest, rq.pos), x);
  }

  lemma SideBack(rqs: map<nat, Rq>, s: Side, dir: Dir, limit: int, x: nat, rq: Rq)
    requires SideOk(rqs, s, dir, limit) && x in s.sort
    requires rq.dir == dir && rq.time == rqs[x].time && rq.pos == rqs[x].pos
    ensures SideOk(rqs[x := rq], s, dir, limit)
  {
    SameTimes(rqs, s.fifo, x, rq);
    assert forall i | 0 <= i < |s.sort| :: s.sort[i] in s.sort;
  }

  // ---------------------------------------------------------------------------------------
  // Merging two requests keeps the fifo in order

  lemma IndexIs(s: seq<nat>, x: nat, i: nat)
    requires NoDup(s) && i < |s| && s[i] == x
    ensures IndexOf(s, x) == i
  {
  }

  lemma MovedMembers(s: seq<nat>, x: nat, y: nat)
    requires NoDup(s) && x in s && y in s && x != y
    ensures y in Without(s, x)
    ensures NoDup(MovedBehind(s, x, y)) && y in MovedBehind(s, x, y) && x in MovedBehind(s, x, y)
    ensures forall z :: z in MovedBehind(s, x, y) <==> z in s
  {
    hide NoDup, Without;
    WithoutMembers(s, x);
    InsertMembers(Without(s, x), IndexOf(Without(s, x), y) + 1, x);
  }

  /** Behind y, and then in its place, x can carry y's expiry. */
  lemma MovedThenRemoved(s: seq<nat>, x: nat, y: nat)
    requires NoDup(s) && x in s && y in s && x != y
    ensures y in Without(s, x) && y in MovedBehind(s, x, y)
    ensures var t, i := Without(s, x), IndexOf(Without(s, x), y);
            Without(MovedBehind(s, x, y), y) == t[..i] + [x] + t[i + 1..]
  {
    hide NoDup, Without;
    MovedMembers(s, x, y);
    InsertedThenRemoved(Without(s, x), IndexOf(Without(s, x), y), x);
  }

  lemma InsertedThenRemoved(t: seq<nat>, i: nat, x: nat)
    requires i < |t| && NoDup(InsertAt(t, i + 1, x))
    ensures t[i] in InsertAt(t, i + 1, x)
    ensures Without(InsertAt(t, i + 1, x), t[i]) == t[..i] + [x] + t[i + 1..]
  {
    var m := InsertAt(t, i + 1, x);
    assert m[i] == t[i];
    IndexIs(m, t[i], i);
    assert m[..i] == t[..i];
    assert m[i + 1..] == [x] + t[i + 1..];
  }

  lemma SwapByTime(rqs: map<nat, Rq>, t: seq<nat>, i: nat, x: nat, rq: Rq)
    requires ByTime(rqs, t) && i < |t| && x !in t && rq.time == rqs[t[i]].time
    ensures ByTime(rqs[x := rq], t[..i] + [x] + t[i + 1..])
  {
    var u, after := t[..i] + [x] + t[i + 1..], rqs[x := rq];
    assert forall k | 0 <= k < |t| :: t[k] in t;
    assert forall k | 0 <= k < |u| :: k != i ==> u[k] == t[k];
    assert forall k | 0 <= k < |u| :: u[k] in after && after[u[k]].time == rqs[t[k]].time;
  }

  lemma MergedByTime(rqs: map<nat, Rq>, s: seq<nat>, x: nat, y: nat, rq: Rq)
    requires ByTime(rqs, s) && NoDup(s) && x in s && y in s && x != y
    requires rq.time == Earlier(rqs[x].time, rqs[y].time)
    ensures var m := FifoMerged(rqs, s, x, y);
            NoDup(m) && x in m && y in m && (forall z :: z in m <==> z in s) && ByTime(rqs[x := rq], Without(m, y))
  {
    hide MovedBehind;
    if rqs[y].time < rqs[x].time {
      var t := Without(s, x);
      MovedMembers(s, x, y);
      WithoutMembers(s, x);
      RestByTime(rqs, s, x);
      MovedThenRemoved(s, x, y);
      SwapByTime(rqs, t, IndexOf(t, y), x, rq);
    } else {
      RestByTime(rqs, s, y);
      WithoutMembers(s, y);
      SameTimes(rqs, Without(s, y), x, rq);
    }
  }

  lemma SideMerged(rqs: map<nat, Rq>, s: Side, dir: Dir, limit: int, x: nat, y: nat, rq: Rq)
    requires SideOk(rqs, s, dir, limit) && x in s.sort && y in s.sort && x != y
    requires rq.dir == dir && rq.pos == rqs[x].pos && rq.time == Earlier(rqs[x].time, rqs[y].time)
    ensures y in FifoMerged(rqs, s.fifo, x, y)
    ensures SideOk(rqs[x := rq], Removed(s.(fifo := FifoMerged(rqs, s.fifo, x, y)), y), dir, limit)
    ensures |Without(s.sort, y)| == |s.sort| - 1
    ensures forall z :: z in Without(s.sort, y) <==> z in s.sort && z != y
  {
    hide ByTime, ByPos, NoDup, FifoMerged, Without, Latter;
    var m := FifoMerged(rqs, s.fifo, x, y);
    MergedByTime(rqs, s.fifo, x, y, rq);
    WithoutMembers(m, y);
    WithoutMembers(s.sort, y);
    RestByPos(rqs, s.sort, y);
    LatterStays(s.sort, y);
    SamePos(rqs, Without(s.sort, y), x, rq);
  }
}
