/** Lists of request numbers, as the kernel's linked lists hold them: no request twice. */
module ListOps {
  import opened Common

  ghost predicate NoDup<T(!new)>(s: seq<T>) {
    forall i, j | 0 <= i < j < |s| :: s[i] != s[j]
  }

  function IndexOf<T(==)>(s: seq<T>, x: T): (i: nat)
    requires x in s
    ensures i < |s| && s[i] == x
  {
    if s[0] == x then 0 else 1 + IndexOf(s[1..], x)
  }

  /** s without x, if it has it: list_del */
  function Without<T(==)>(s: seq<T>, x: T): seq<T> {
    if x in s then s[..IndexOf(s, x)] + s[IndexOf(s, x) + 1..] else s
  }

  /** The first entry. */
  function First(s: seq<nat>): Option<nat> {
    if s == [] then None else Some(s[0])
  }

  /** The entry after x. */
  function Latter(s: seq<nat>, x: nat): Option<nat>
    requires x in s
  {
    var i := IndexOf(s, x) + 1;
    if i < |s| then Some(s[i]) else None
  }

  function InsertAt(s: seq<nat>, i: nat, x: nat): seq<nat>
    requires i <= |s|
  {
    s[..i] + [x] + s[i..]
  }

  lemma WithoutAt<T>(s: seq<T>, x: T)
    requires x in s
    ensures |Without(s, x)| == |s| - 1
    ensures forall j | 0 <= j < |s| - 1 :: Without(s, x)[j] == s[if j < IndexOf(s, x) then j else j + 1]
  {
  }

  lemma WithoutNoDup<T(!new)>(s: seq<T>, x: T)
    requires x in s && NoDup(s)
    ensures NoDup(Without(s, x))
  {
    hide Without;
    WithoutAt(s, x);
  }

  lemma WithoutHas<T(!new)>(s: seq<T>, x: T, y: T)
    requires x in s && NoDup(s)
    ensures y in Without(s, x) <==> y in s && y != x
  {
    hide Without;
    WithoutAt(s, x);
    var t, i := Without(s, x), IndexOf(s, x);
    if y in t {
      var j :| 0 <= j < |t| && t[j] == y;
      assert s[if j < i then j else j + 1] == y;
    }
    if y in s && y != x {
      var j :| 0 <= j < |s| && s[j] == y;
      assert t[if j < i then j else j - 1] == y;
    }
  }

  lemma WithoutMembers<T(!new)>(s: seq<T>, x: T)
    requires x in s && NoDup(s)
    ensures NoDup(Without(s, x)) && |Without(s, x)| == |s| - 1
    ensures forall y :: y in Without(s, x) <==> y in s && y != x
  {
    hide Without, NoDup;
    WithoutAt(s, x);
    WithoutNoDup(s, x);
    forall y
      ensures y in Without(s, x) <==> y in s && y != x
    {
      WithoutHas(s, x, y);
    }
  }

  lemma InsertMembers(s: seq<nat>, i: nat, x: nat)
    requires i <= |s| && x !in s && NoDup(s)
    ensures NoDup(InsertAt(s, i, x)) && |InsertAt(s, i, x)| == |s| + 1
    ensures forall y :: y in InsertAt(s, i, x) <==> y in s || y == x
  {
    var t := InsertAt(s, i, x);
    forall y ensures y in t <==> y in s || y == x {
      if y in s {
        var j :| 0 <= j < |s| && s[j] == y;
        assert t[if j < i then j else j + 1] == y;
      } else if y == x {
        assert t[i] == x;
      }
    }
  }

  lemma WithoutHead<T(!new)>(s: seq<T>, x: T)
    requires s != [] && s[0] == x
    ensures Without(s, x) == s[1..]
  {
  }

  /** Removal, whether or not x is there; the head stays unless it is x. */
  lemma WithoutFacts<T(!new)>(s: seq<T>, x: T)
    requires NoDup(s)
    ensures NoDup(Without(s, x)) && |Without(s, x)| == (if x in s then |s| - 1 else |s|)
    ensures forall y :: y in Without(s, x) <==> y in s && y != x
    ensures x !in s ==> Without(s, x) == s
    ensures s != [] && s[0] != x ==> Without(s, x) != [] && Without(s, x)[0] == s[0]
  {
    if x in s {
      WithoutMembers(s, x);
    }
  }
}
