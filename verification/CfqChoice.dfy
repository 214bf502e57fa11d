/** block/cfq-iosched.c, cfq_choose_req and cfq_find_next_rq: which request is served next. The choice between
    two is a total preorder; the choice between the two neighbours is as good as one among the whole list exactly when
    the neighbours' flags and those of a few other requests allow it. */
module CfqChoice {
  import opened Common

  /** What the choice depends on; id stands for the request's address */
  datatype Rq = Rq(id: nat, pos: nat, sync: bool, prio: bool)

  /** cfq_back_max in KiB, and cfq_back_penalty */
  datatype Limits = Limits(backMax: nat, backPenalty: nat)

  function Penalty(c: Limits, behind: nat): nat { behind * c.backPenalty }

  /** Behind the head, and too far for a backward seek. */
  predicate Wraps(c: Limits, r: Rq, last: nat) { r.pos < last && r.pos + c.backMax * 2 < last }

  /** d1 or d2 of the source: the weighted distance from the head, for a request that does not wrap */
  function Distance(c: Limits, r: Rq, last: nat): nat {
    if r.pos >= last then r.pos - last
    else if r.pos + c.backMax * 2 >= last then Penalty(c, last - r.pos)
    else 0
  }

  /** cfq_choose_req */
  function Choose(c: Limits, rq1: Option<Rq>, rq2: Option<Rq>, last: nat): Option<Rq> {
    if rq1.None? || rq1 == rq2 then rq2
    else if rq2.None? then rq1
    else
      var a, b := rq1.value, rq2.value;
      if a.sync != b.sync then (if a.sync then rq1 else rq2)
      else if a.prio != b.prio then (if a.prio then rq1 else rq2)
      else
        var d1, d2 := Distance(c, a, last), Distance(c, b, last);
        if !Wraps(c, a, last) && !Wraps(c, b, last) then
          if d1 < d2 then rq1
          else if d2 < d1 then rq2
          else if a.pos >= b.pos then rq1
          else rq2
        else if !Wraps(c, a, last) then rq1
        else if !Wraps(c, b, last) then rq2
        else if a.pos <= b.pos then rq1
        else rq2
  }

  // ---------------------------------------------------------------------------------------
  // The order behind the choice

  /** What a request costs, compared from the left; less is better. */
  datatype Weight = Weight(background: int, ordinary: int, wraps: int, away: int, low: int)

  function Cost(c: Limits, r: Rq, last: nat): Weight {
    var wraps := Wraps(c, r, last);
    Weight(if r.sync then 0 else 1, if r.prio then 0 else 1, if wraps then 1 else 0,
           if wraps then r.pos else Distance(c, r, last), if wraps then 0 else 0 - r.pos)
  }

  predicate Less(x: Weight, y: Weight) {
    if x.background != y.background then x.background < y.background
    else if x.ordinary != y.ordinary then x.ordinary < y.ordinary
    else if x.wraps != y.wraps then x.wraps < y.wraps
    else if x.away != y.away then x.away < y.away
    else x.low < y.low
  }

  predicate Better(c: Limits, a: Rq, b: Rq, last: nat) { Less(Cost(c, a, last), Cost(c, b, last)) }

  predicate NoWorse(c: Limits, a: Rq, b: Rq, last: nat) { !Better(c, b, a, last) }

  /** The choice follows the order, and prefers the first of two equals. */
  lemma ChooseFollowsCost(c: Limits, a: Rq, b: Rq, last: nat)
    ensures Choose(c, Some(a), Some(b), last) == if Better(c, b, a, last) then Some(b) else Some(a)
  {
    hide Penalty;
  }

  /** The choice between two requests with the same flags, in positions: both ahead of the head, the nearer; both behind
      and within reach, the nearer; one of each, by distance, with the one behind counted cfq_back_penalty times; one
      within reach before one that is not; and of two that are not, the one furthest behind. */
  lemma ChooseByPosition(c: Limits, a: Rq, b: Rq, last: nat)
    requires a != b && Alike(a, b)
    ensures var nearA, nearB := a.pos + 2 * c.backMax >= last, b.pos + 2 * c.backMax >= last;
            Choose(c, Some(a), Some(b), last) == Some(a) <==>
              if a.pos >= last && b.pos >= last then a.pos <= b.pos
              else if a.pos >= last && nearB then a.pos - last <= (last - b.pos) * c.backPenalty
              else if b.pos >= last && nearA then (last - a.pos) * c.backPenalty < b.pos - last
              else if nearA && nearB then a.pos >= b.pos
              else if nearA || nearB then nearA
              else a.pos <= b.pos
  {
    if a.pos < last && b.pos < last {
      if a.pos >= b.pos {
        PenaltyGrows(c, last - a.pos, last - b.pos);
      } else {
        PenaltyGrows(c, last - b.pos, last - a.pos);
      }
    }
  }

  lemma LessTransitive(x: Weight, y: Weight, z: Weight)
    ensures Less(x, y) && Less(y, z) ==> Less(x, z)
    ensures !Less(y, x) && !Less(z, y) ==> !Less(z, x)
    ensures !(Less(x, y) && Less(y, x)) && !Less(x, x)
  {
  }

  /** For a fixed head position the choice is a total preorder: reflexive, total and transitive; and two requests
      that are as good as each other agree on everything it looks at. */
  lemma ChoiceIsPreorder(c: Limits, x: Rq, y: Rq, z: Rq, last: nat)
    ensures NoWorse(c, x, x, last)
    ensures NoWorse(c, x, y, last) || NoWorse(c, y, x, last)
    ensures NoWorse(c, x, y, last) && NoWorse(c, y, z, last) ==> NoWorse(c, x, z, last)
    ensures NoWorse(c, x, y, last) && NoWorse(c, y, x, last) ==> x.pos == y.pos && x.sync == y.sync && x.prio == y.prio
    ensures Choose(c, Some(x), Some(y), last) == Some(x) ==> NoWorse(c, x, y, last)
    ensures Choose(c, Some(x), Some(y), last) == Some(y) ==> NoWorse(c, y, x, last)
  {
    ChooseFollowsCost(c, x, y, last);
    hide Less, Choose, Penalty;
    LessTransitive(Cost(c, x, last), Cost(c, y, last), Cost(c, z, last));
    LessTransitive(Cost(c, y, last), Cost(c, x, last), Cost(c, z, last));
    SameCost(c, x, y, last);
  }

  lemma SameCost(c: Limits, x: Rq, y: Rq, last: nat)
    ensures !Less(Cost(c, x, last), Cost(c, y, last)) && !Less(Cost(c, y, last), Cost(c, x, last)) ==>
      x.pos == y.pos && x.sync == y.sync && x.prio == y.prio
  {
    hide Penalty;
  }

  // ---------------------------------------------------------------------------------------
  // The next request

  /** rb_next of the last served request, or else the first of the list unless that is the request itself */
  function NextOf(s: seq<Rq>, i: nat): Option<Rq>
    requires i < |s|
  {
    if i + 1 < |s| then Some(s[i + 1]) else if i > 0 then Some(s[0]) else None
  }

  function PrevOf(s: seq<Rq>, i: nat): Option<Rq>
    requires i < |s|
  {
    if i > 0 then Some(s[i - 1]) else None
  }

  /** cfq_find_next_rq, for request i of the sorted list */
  function FindNext(c: Limits, s: seq<Rq>, i: nat): Option<Rq>
    requires i < |s|
  {
    Choose(c, NextOf(s, i), PrevOf(s, i), s[i].pos)
  }

  ghost predicate Sorted(s: seq<Rq>) { forall i, j | 0 <= i < j < |s| :: s[i].pos <= s[j].pos }

  predicate Alike(a: Rq, b: Rq) { a.sync == b.sync && a.prio == b.prio }

  lemma PenaltyGrows(c: Limits, n: nat, m: nat)
    requires n <= m
    ensures Penalty(c, n) <= Penalty(c, m)
  {
  }

  /** Ahead of the head, nearer is better. */
  lemma AheadNearer(c: Limits, a: Rq, b: Rq, last: nat)
    requires Alike(a, b) && last <= a.pos <= b.pos
    ensures NoWorse(c, a, b, last)
  {
    hide Penalty;
  }

  /** Behind the head and within reach, nearer is better; anything within reach beats what wraps. */
  lemma BehindNearer(c: Limits, a: Rq, b: Rq, last: nat)
    requires Alike(a, b) && b.pos <= a.pos <= last && !Wraps(c, a, last)
    ensures NoWorse(c, a, b, last)
  {
    hide Penalty;
    PenaltyGrows(c, last - a.pos, last - b.pos);
    assert Penalty(c, 0) == 0 by {
      NoPenalty(c);
    }
  }

  lemma NoPenalty(c: Limits)
    ensures Penalty(c, 0) == 0
  {
  }

  /** Of those that wrap, the one furthest behind is best, and all of them are worse than one within reach. */
  lemma WrappedLast(c: Limits, a: Rq, b: Rq, last: nat)
    requires Alike(a, b) && Wraps(c, b, last) && (!Wraps(c, a, last) || a.pos <= b.pos)
    ensures NoWorse(c, a, b, last)
  {
    hide Penalty;
  }

  // ---------------------------------------------------------------------------------------
  // Flags come before positions

  /** Synchronous before asynchronous, and among equals marked before unmarked. */
  predicate FlagsBetter(a: Rq, b: Rq) {
    (a.sync && !b.sync) || (a.sync == b.sync && a.prio && !b.prio)
  }

  /** Better flags win whatever the positions; without better flags either way the flags are the same. */
  lemma FlagsDecide(c: Limits, a: Rq, b: Rq, last: nat)
    ensures FlagsBetter(a, b) ==> Better(c, a, b, last) && NoWorse(c, a, b, last)
    ensures !FlagsBetter(a, b) && !FlagsBetter(b, a) <==> Alike(a, b)
  {
    hide Penalty, Distance, Wraps;
  }

  /** No other request of the list has better flags than r. */
  ghost predicate BestFlags(s: seq<Rq>, i: nat, r: Rq) {
    forall j | 0 <= j < |s| && j != i :: !FlagsBetter(s[j], r)
  }

  /** r is as good as every other request of the list, seen from request i. */
  ghost predicate Best(c: Limits, s: seq<Rq>, i: nat, r: Rq)
    requires i < |s|
  {
    forall j | 0 <= j < |s| && j != i :: NoWorse(c, r, s[j], s[i].pos)
  }

  /** The one or two requests that are looked at. */
  predicate Neighbour(s: seq<Rq>, i: nat, r: Rq)
    requires i < |s|
  {
    NextOf(s, i) == Some(r) || PrevOf(s, i) == Some(r)
  }

  lemma NeighboursExist(s: seq<Rq>, i: nat)
    requires i < |s| && |s| > 1
    ensures i + 1 < |s| ==> Neighbour(s, i, s[i + 1])
    ensures i > 0 ==> Neighbour(s, i, s[i - 1])
    ensures i + 1 == |s| ==> Neighbour(s, i, s[0])
  {
  }

  /** Among neighbours with the best flags there is one as good as any other request. */
  lemma NeighbourBest(c: Limits, s: seq<Rq>, i: nat, j: nat) returns (n: Rq)
    requires Sorted(s) && i < |s| && j < |s| && j != i
    requires forall r | Neighbour(s, i, r) :: !FlagsBetter(s[j], r)
    ensures Neighbour(s, i, n) && NoWorse(c, n, s[j], s[i].pos)
  {
    hide NoWorse, Neighbour;
    var last := s[i].pos;
    NeighboursExist(s, i);
    if j > i {
      n := s[i + 1];
    } else if !Wraps(c, s[i - 1], last) {
      n := s[i - 1];
    } else if i + 1 < |s| {
      n := s[i + 1];
    } else {
      n := s[0];
    }
    FlagsDecide(c, n, s[j], last);
    if Alike(n, s[j]) {
      if j > i {
        AheadNearer(c, n, s[j], last);
      } else if !Wraps(c, s[i - 1], last) {
        BehindNearer(c, n, s[j], last);
      } else {
        WrappedLast(c, n, s[j], last);
      }
    }
  }

  /** The choice is a neighbour, no worse than either; there is none exactly when the list holds nothing else. */
  lemma FindNextChooses(c: Limits, s: seq<Rq>, i: nat)
    requires i < |s|
    ensures FindNext(c, s, i).None? <==> |s| == 1
    ensures FindNext(c, s, i).Some? ==>
              && Neighbour(s, i, FindNext(c, s, i).value)
              && (exists k :: 0 <= k < |s| && k != i && s[k] == FindNext(c, s, i).value)
              && forall r | Neighbour(s, i, r) :: NoWorse(c, FindNext(c, s, i).value, r, s[i].pos)
  {
    hide NoWorse, Choose;
    ChooseOne(c, NextOf(s, i), PrevOf(s, i), s[i].pos);
  }

  /** Whenever the neighbours carry the best flags of the other requests, the choice among them is as good as every
      request of the list. */
  lemma FindNextIsBest(c: Limits, s: seq<Rq>, i: nat)
    requires Sorted(s) && i < |s| && |s| > 1 && forall r | Neighbour(s, i, r) :: BestFlags(s, i, r)
    ensures FindNext(c, s, i).Some? && Best(c, s, i, FindNext(c, s, i).value)
  {
    hide NoWorse, FindNext, Neighbour, FlagsBetter;
    FindNextChooses(c, s, i);
    var best := FindNext(c, s, i).value;
    forall j | 0 <= j < |s| && j != i
      ensures NoWorse(c, best, s[j], s[i].pos)
    {
      var n := NeighbourBest(c, s, i, j);
      ChoiceIsPreorder(c, best, n, s[j], s[i].pos);
    }
  }

  /** If some other request has better flags than the neighbours, the choice is not the best. */
  lemma BetterFlagsMissed(c: Limits, s: seq<Rq>, i: nat, j: nat)
    requires i < |s| && j < |s| && j != i && forall r | Neighbour(s, i, r) :: FlagsBetter(s[j], r)
    ensures FindNext(c, s, i).Some? && !Best(c, s, i, FindNext(c, s, i).value)
  {
    hide FindNext, Neighbour, FlagsBetter;
    FindNextChooses(c, s, i);
    FlagsDecide(c, s[j], FindNext(c, s, i).value, s[i].pos);
    assert !NoWorse(c, FindNext(c, s, i).value, s[j], s[i].pos);
  }

  lemma WorseFlagsMissed(c: Limits, s: seq<Rq>, i: nat, n: Rq)
    requires Sorted(s) && i < |s| && |s| > 1 && Neighbour(s, i, n) && !BestFlags(s, i, n)
    requires forall r | Neighbour(s, i, r) :: Alike(r, n)
    ensures FindNext(c, s, i).Some? && !Best(c, s, i, FindNext(c, s, i).value)
  {
    hide FindNext, Neighbour, Best;
    FindNextChooses(c, s, i);
    var j :| 0 <= j < |s| && j != i && FlagsBetter(s[j], n);
    BetterFlagsMissed(c, s, i, j);
  }

  /** So, when the neighbours have the same flags, the choice is as good as every request exactly when no other
      request has better flags. */
  lemma FindNextBestIff(c: Limits, s: seq<Rq>, i: nat)
    requires Sorted(s) && i < |s| && |s| > 1
    requires forall r, t | Neighbour(s, i, r) && Neighbour(s, i, t) :: Alike(r, t)
    ensures FindNext(c, s, i).Some?
    ensures Best(c, s, i, FindNext(c, s, i).value) <==> forall n | Neighbour(s, i, n) :: BestFlags(s, i, n)
  {
    hide FindNext, Neighbour, Best;
    FindNextChooses(c, s, i);
    if forall n | Neighbour(s, i, n) :: BestFlags(s, i, n) {
      FindNextIsBest(c, s, i);
    } else {
      var n :| Neighbour(s, i, n) && !BestFlags(s, i, n);
      WorseFlagsMissed(c, s, i, n);
    }
  }

  /** The choice is one of the two, and no worse than either. */
  lemma ChooseOne(c: Limits, x: Option<Rq>, y: Option<Rq>, last: nat)
    ensures var r := Choose(c, x, y, last);
            && (r == x || r == y) && (r.None? <==> x.None? && y.None?)
            && (r.Some? && x.Some? ==> NoWorse(c, r.value, x.value, last))
            && (r.Some? && y.Some? ==> NoWorse(c, r.value, y.value, last))
  {
    if x.Some? && y.Some? {
      ChoiceIsPreorder(c, x.value, y.value, x.value, last);
      ChoiceIsPreorder(c, y.value, x.value, y.value, last);
      ChooseFollowsCost(c, x.value, y.value, last);
    } else if x.Some? {
      ChoiceIsPreorder(c, x.value, x.value, x.value, last);
    } else if y.Some? {
      ChoiceIsPreorder(c, y.value, y.value, y.value, last);
    }
  }

  // ---------------------------------------------------------------------------------------
  // Exactly when the neighbours suffice

  /** None of lo to hi has the flags of r. */
  ghost predicate Clear(s: seq<Rq>, lo: nat, hi: nat, r: Rq) {
    forall m | lo <= m < hi && m < |s| :: !Alike(s[m], r)
  }

  /** Of the requests with the flags of r, k is the next after request i, the last before it, or the first of all. */
  ghost predicate Nearest(s: seq<Rq>, i: nat, r: Rq, k: nat) {
    k < |s| && k != i && Alike(s[k], r)
    && (if k > i then Clear(s, i + 1, k, r) else Clear(s, k + 1, i, r) || Clear(s, 0, k, r))
  }

  lemma {:induction false} FirstAlike(s: seq<Rq>, lo: nat, j: nat, r: Rq) returns (k: nat)
    requires lo <= j < |s| && Alike(s[j], r)
    ensures lo <= k <= j && Alike(s[k], r) && Clear(s, lo, k, r)
    decreases j - lo
  {
    if Alike(s[lo], r) {
      k := lo;
    } else {
      k := FirstAlike(s, lo + 1, j, r);
    }
  }

  lemma {:induction false} LastAlike(s: seq<Rq>, j: nat, hi: nat, r: Rq) returns (k: nat)
    requires j < hi <= |s| && Alike(s[j], r)
    ensures j <= k < hi && Alike(s[k], r) && Clear(s, k + 1, hi, r)
    decreases hi - j
  {
    if Alike(s[hi - 1], r) {
      k := hi - 1;
    } else {
      k := LastAlike(s, j, hi - 1, r);
    }
  }

  /** Among requests with the same flags one of the nearest is as good as any. */
  lemma NearestBest(c: Limits, s: seq<Rq>, i: nat, r: Rq, j: nat) returns (k: nat)
    requires Sorted(s) && i < |s| && j < |s| && j != i && Alike(s[j], r)
    ensures Nearest(s, i, r, k) && NoWorse(c, s[k], s[j], s[i].pos)
  {
    hide NoWorse;
    if j > i {
      k := FirstAlike(s, i + 1, j, r);
      AheadNearer(c, s[k], s[j], s[i].pos);
    } else {
      k := LastAlike(s, j, i, r);
      if !Wraps(c, s[k], s[i].pos) {
        BehindNearer(c, s[k], s[j], s[i].pos);
      } else {
        k := FirstAlike(s, 0, j, r);
        WrappedLast(c, s[k], s[j], s[i].pos);
      }
    }
  }

  /** No other request has better flags than n, and none of the nearest with its flags, at most three, beats it. */
  ghost predicate Unbeaten(c: Limits, s: seq<Rq>, i: nat, n: Rq)
    requires i < |s|
  {
    BestFlags(s, i, n) && forall k: nat | Nearest(s, i, n, k) :: NoWorse(c, n, s[k], s[i].pos)
  }

  /** A look at the flags and at three requests tells whether a request is as good as every other. */
  lemma UnbeatenIsBest(c: Limits, s: seq<Rq>, i: nat, n: Rq)
    requires Sorted(s) && i < |s|
    ensures Unbeaten(c, s, i, n) <==> Best(c, s, i, n)
  {
    hide NoWorse, FlagsBetter, Alike;
    forall j | 0 <= j < |s| && j != i
      ensures FlagsBetter(s[j], n) ==> !NoWorse(c, n, s[j], s[i].pos)
    {
      BetterWins(c, s[j], n, s[i].pos);
    }
    if Unbeaten(c, s, i, n) {
      forall j | 0 <= j < |s| && j != i
        ensures NoWorse(c, n, s[j], s[i].pos)
      {
        FlagsDecide(c, n, s[j], s[i].pos);
        if !FlagsBetter(n, s[j]) {
          AlikeBoth(s[j], n);
          var k := NearestBest(c, s, i, n, j);
          ChoiceIsPreorder(c, n, s[k], s[j], s[i].pos);
        }
      }
    }
  }

  /** Whatever the flags: the choice is as good as every request exactly when one of the neighbours is unbeaten. */
  lemma FindNextBestExactly(c: Limits, s: seq<Rq>, i: nat)
    requires Sorted(s) && i < |s| && |s| > 1
    ensures FindNext(c, s, i).Some?
    ensures Best(c, s, i, FindNext(c, s, i).value) <==> exists n: Rq :: Neighbour(s, i, n) && Unbeaten(c, s, i, n)
  {
    hide NoWorse, FindNext, Neighbour, Unbeaten;
    FindNextChooses(c, s, i);
    var r := FindNext(c, s, i).value;
    UnbeatenIsBest(c, s, i, r);
    if n: Rq :| Neighbour(s, i, n) && Unbeaten(c, s, i, n) {
      UnbeatenIsBest(c, s, i, n);
      forall j | 0 <= j < |s| && j != i
        ensures NoWorse(c, r, s[j], s[i].pos)
      {
        ChoiceIsPreorder(c, r, n, s[j], s[i].pos);
      }
    }
  }

  lemma BetterWins(c: Limits, a: Rq, b: Rq, last: nat)
    ensures FlagsBetter(a, b) ==> !NoWorse(c, b, a, last)
  {
    FlagsDecide(c, a, b, last);
  }

  lemma AlikeBoth(a: Rq, b: Rq)
    ensures Alike(a, b) <==> Alike(b, a)
  {
  }

  /** When the neighbours' flags differ, one of them can have the best flags and a request behind the other still be
      nearer: here the synchronous request at 4 is chosen over the one at 12, from 10. */
  lemma NeighboursMustAgree()
    ensures var c := Limits(16384, 2);
            var s := [Rq(0, 4, true, false), Rq(1, 10, true, false), Rq(2, 11, false, false), Rq(3, 12, true, false)];
            && Sorted(s) && FindNext(c, s, 1) == Some(s[0]) && BestFlags(s, 1, s[0])
            && !Best(c, s, 1, s[0])
  {
    var c := Limits(16384, 2);
    var s := [Rq(0, 4, true, false), Rq(1, 10, true, false), Rq(2, 11, false, false), Rq(3, 12, true, false)];
    assert !NoWorse(c, s[0], s[3], s[1].pos);
  }
}
