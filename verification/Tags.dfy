/** block/blk-tag.c: the tag map of a queue, with its bitmap and index updated in place. */
module Tags {
  import opened Common
  import opened ListOps
  import opened TagModel

  class TagQueue {
    var nrRequests: nat
    var tagMap: array<bool>
    var tagIndex: array<Option<nat>>
    var maxDepth: nat
    var inFlightAsync: nat
    var tag: map<nat, nat>
    var sync: set<nat>
    var busy: seq<nat>
    var queue: seq<nat>

    ghost function View(): Td
      reads this, tagMap, tagIndex
    {
      Td(tagMap[..], tagIndex[..], maxDepth, nrRequests, tag, sync, busy, queue)
    }

    ghost predicate Valid()
      reads this, tagMap, tagIndex
    {
      TagsOk(View())
    }

    /** init_tag_map of a new queue; the depth is limited to twice the number of requests */
    constructor (nr: nat, depth: nat)
      ensures View() == Init(nr, depth) && Valid() && fresh(tagMap) && fresh(tagIndex)
    {
      nrRequests := nr;
      var n := if depth > 2 * nr then 2 * nr else depth;
      tagMap := new bool[n](i => false);
      tagIndex := new Option<nat>[n](i => None);
      maxDepth, inFlightAsync, tag, sync, busy, queue := n, 0, map[], {}, [], [];
      new;
      assert tagMap[..] == Init(nr, depth).bits;
      assert tagIndex[..] == Init(nr, depth).index;
      InitOk(nr, depth);
    }

    /** blk_queue_start_tag: no tag is given to a request that may not have one, and a tag it may have is the first
        free one */
    method StartTag(x: nat, isSync: bool) returns (refused: bool)
      requires Valid() && x !in tag
      modifies this, tagMap, tagIndex
      ensures tagMap == old(tagMap) && tagIndex == old(tagIndex) && inFlightAsync == old(inFlightAsync)
      ensures refused ==> View() == old(View())
      ensures !refused ==> View() == Step(old(View()), Start(x, isSync)) && x in tag
      ensures var limit := Usable(maxDepth, isSync);
              refused <==> FirstZero(old(tagMap[..]), 0, limit) == limit
                           || (!isSync && maxDepth > 1 && inFlightAsync > limit)
      ensures Valid()
    {
      hide TagsOk;
      ghost var d := View();
      Fits(d);
      StepOk(d, Start(x, isSync));
      var depth := maxDepth;
      if !isSync && depth > 1 {
        depth := depth - 2;
        if depth == 0 {
          depth := 1;
        }
        if inFlightAsync > depth {
          return true;
        }
      }
      var t := FindFirstZero(depth);
      if t >= depth {
        return true;
      }
      TakeTag(x, isSync, t);
      return false;
    }

    method TakeTag(x: nat, isSync: bool, t: nat)
      requires t < tagMap.Length && t < tagIndex.Length
      modifies this, tagMap, tagIndex
      ensures tagMap == old(tagMap) && tagIndex == old(tagIndex) && inFlightAsync == old(inFlightAsync)
      ensures View() == Started(old(View()), x, isSync, t)
    {
      tagMap[t] := true;
      tagIndex[t] := Some(x);
      tag := tag[x := t];
      sync := if isSync then sync + {x} else sync - {x};
      busy := [x] + busy;
      assert tagMap[..] == old(tagMap[..])[t := true];
      assert tagIndex[..] == old(tagIndex[..])[t := Some(x)];
    }

    /** find_first_zero_bit */
    method FindFirstZero(limit: nat) returns (t: nat)
      requires limit <= tagMap.Length
      ensures t == FirstZero(tagMap[..], 0, limit)
    {
      t := 0;
      while t < limit && tagMap[t]
        invariant t <= limit && FirstZero(tagMap[..], t, limit) == FirstZero(tagMap[..], 0, limit)
      {
        t := t + 1;
      }
    }

    /** blk_queue_end_tag */
    method EndTag(x: nat)
      requires Valid() && x in tag
      modifies this, tagMap, tagIndex
      ensures tagMap == old(tagMap) && tagIndex == old(tagIndex) && inFlightAsync == old(inFlightAsync)
      ensures View() == Step(old(View()), End(x))
      ensures Valid()
    {
      hide TagsOk, Without;
      ghost var d := View();
      EndOk(d, x);
      var t := tag[x];
      busy := Without(busy, x);
      tag := tag - {x};
      tagIndex[t] := None;
      tagMap[t] := false;
      assert tagMap[..] == d.bits[t := false];
      assert tagIndex[..] == d.index[t := None];
    }

    /** blk_queue_resize_tags: without growth only the limit moves, since higher tags may be in flight; with growth
        everything is copied. No request loses its tag. */
    method ResizeTags(depth: nat, shared: bool) returns (ok: bool)
      requires Valid() && Allowed(View(), Resize(depth, shared))
      modifies this
      ensures ok <==> depth <= old(tagMap.Length) || !shared
      ensures View() == Step(old(View()), Resize(depth, shared))
      ensures ResizeOutcome(old(View()), depth, shared) == Some(View())
      ensures tag == old(tag) && Valid()
      ensures tagMap == old(tagMap) || fresh(tagMap)
      ensures tagIndex == old(tagIndex) || fresh(tagIndex)
    {
      hide TagsOk, ResizeOutcome;
      ghost var d := View();
      Fits(d);
      StepOk(d, Resize(depth, shared));
      ResizeIff(d, depth, shared);
      if depth <= tagMap.Length {
        maxDepth := depth;
        return true;
      }
      if shared {
        return false;
      }
      var n := if depth > 2 * nrRequests then 2 * nrRequests else depth;
      var newIndex := Grow(tagIndex, n, None);
      var newMap := Grow(tagMap, n, false);
      tagMap, tagIndex, maxDepth := newMap, newIndex, n;
      return true;
    }

    /** queue_requests_store: only the limit changes, and with it what a later resize can do */
    method SetRequests(wanted: nat)
      requires Valid()
      modifies this`nrRequests
      ensures View() == old(View()).(nr := if wanted < BLKDEV_MIN_RQ then BLKDEV_MIN_RQ else wanted)
      ensures Valid()
    {
      hide TagsOk;
      var nr := if wanted < BLKDEV_MIN_RQ then BLKDEV_MIN_RQ else wanted;
      LimitIsFree(View(), nr);
      nrRequests := nr;
    }

    /** blk_queue_invalidate_tags: every request gives up its tag and goes back to the front of the queue, those tagged
        first ahead of those tagged later */
    method InvalidateTags()
      requires Valid()
      modifies this, tagMap, tagIndex
      ensures View() == Step(old(View()), Invalidate)
      ensures tag == map[] && busy == [] && queue == Reversed(old(busy)) + old(queue)
      ensures Valid()
    {
      hide TagsOk, Requeued;
      ghost var goal := Requeued(View());
      RequeueOk(View());
      while busy != []
        invariant Valid() && Requeued(View()) == goal && tagMap == old(tagMap) && tagIndex == old(tagIndex)
        decreases |busy|
      {
        var x := busy[0];
        ghost var d := View();
        FirstOfBusy(d);
        EndOk(d, x);
        WithoutHead(busy, x);
        ghost var e := RequeueOne(d);
        EndTag(x);
        QueueIsFree(View(), [x] + queue);
        queue := [x] + queue;
        assert View() == e;
      }
      NoneBusy(View());
    }
  }

  /** A larger table with the old entries copied to its start. */
  method Grow<T>(src: array<T>, n: nat, zero: T) returns (dst: array<T>)
    requires src.Length <= n
    ensures fresh(dst) && dst[..] == Extended(src[..], n, zero)
  {
    dst := new T[n](i => zero);
    for i := 0 to src.Length
      invariant forall j | 0 <= j < n :: dst[j] == if j < i then src[j] else zero
    {
      dst[i] := src[i];
    }
  }
}
