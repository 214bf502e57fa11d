/** Names of crypto algorithms: templates applied to arguments, nested to any depth, and how crypto/algboss.c
    reads them. */
module NameGrammar {
  import opened Common

  const CRYPTO_MAX_ATTRS := 32
  const CRYPTO_MAX_ALG_NAME := 64

  // ---------------------------------------------------------------------------------------
  // Characters and numbers

  predicate IsDigit(c: char) { '0' <= c <= '9' }

  /** isalnum of the kernel's table, which has the letters of Latin-1 */
  predicate IsAlnum(c: char) {
    || IsDigit(c) || 'A' <= c <= 'Z' || 'a' <= c <= 'z'
    || (192 as char <= c <= 255 as char && c != 215 as char && c != 247 as char)
  }

  function Run(kind: char, n: nat): string { seq(n, i => kind) }

  /** A row of sixteen of the table in lib/ctype.c: control, space, punctuation, digit, upper, lower, or none */
  function CtypeRow(row: nat): (s: string)
    requires row < 16
    ensures |s| == 16
  {
    match row
    case 0 => Run('C', 16)
    case 1 => Run('C', 16)
    case 2 => Run('S', 1) + Run('P', 15)
    case 3 => Run('D', 10) + Run('P', 6)
    case 4 => Run('P', 1) + Run('U', 15)
    case 5 => Run('U', 11) + Run('P', 5)
    case 6 => Run('P', 1) + Run('L', 15)
    case 7 => Run('L', 11) + Run('P', 4) + Run('C', 1)
    case 8 => Run('0', 16)
    case 9 => Run('0', 16)
    case 10 => Run('S', 1) + Run('P', 15)
    case 11 => Run('P', 16)
    case 12 => Run('U', 16)
    case 13 => Run('U', 7) + Run('P', 1) + Run('U', 7) + Run('L', 1)
    case 14 => Run('L', 16)
    case _ => Run('L', 7) + Run('P', 1) + Run('L', 8)
  }

  /** A character is a digit, or a letter or digit, exactly if the table says so. */
  lemma CharsByTable(row: nat, col: nat)
    requires row < 16 && col < 16
    ensures var c, kind := (16 * row + col) as char, CtypeRow(row)[col];
            (IsDigit(c) <==> kind == 'D') && (IsAlnum(c) <==> kind == 'D' || kind == 'U' || kind == 'L')
  {
  }

  predicate IdChar(c: char) { IsAlnum(c) || c == '-' || c == '_' }

  predicate AllDigits(s: string) { forall i | 0 <= i < |s| :: IsDigit(s[i]) }

  predicate AllId(s: string) { forall i | 0 <= i < |s| :: IdChar(s[i]) }

  function Digit(c: char): nat
    requires IsDigit(c)
  {
    c as nat - '0' as nat
  }

  /** The digits below the base, up to the first that is not. */
  function Value(s: string, base: nat, acc: nat): nat
    requires AllDigits(s)
  {
    if s == [] || Digit(s[0]) >= base then acc else Value(s[1..], base, acc * base + Digit(s[0]))
  }

  /** simple_strtol with a guessed base, into 32 bits */
  function NumberOf(s: string): nat
    requires AllDigits(s) && s != []
  {
    Value(s, if s[0] == '0' then 8 else 10, 0) % 0x1_0000_0000
  }

  /** An argument as the probe gets it: a number if it is all digits, else the name of an algorithm. */
  datatype Attr = Num(num: nat) | Alg(name: string)

  function AttrOf(s: string): Attr
    requires s != []
  {
    if AllDigits(s) then Num(NumberOf(s)) else Alg(s)
  }

  datatype Parsed = Rejected | Accepted(template: string, attrs: seq<Attr>)

  // ---------------------------------------------------------------------------------------
  // The parser, as a function of positions

  /** The character at a position; behind the end there is the terminator. */
  function At(s: string, p: nat): char { if p < |s| then s[p] else '\0' }

  /** The end of the identifier characters from p on. */
  function IdEnd(s: string, p: nat): (e: nat)
    requires p <= |s|
    ensures p <= e <= |s| && AllId(s[p..e]) && (e < |s| ==> !IdChar(s[e]))
    decreases |s| - p
  {
    if p < |s| && IdChar(s[p]) then
      var e := IdEnd(s, p + 1);
      assert s[p..e] == [s[p]] + s[p + 1..e];
      e
    else p
  }

  /** The parenthesis that closes at the given depth, from p on. */
  function Close(s: string, p: nat, depth: nat): (k: Option<nat>)
    requires p <= |s|
    ensures k.Some? ==> p <= k.value < |s|
    decreases |s| - p
  {
    if p == |s| then None
    else if s[p] == '(' then Close(s, p + 1, depth + 1)
    else if s[p] == ')' then (if depth == 0 then Some(p) else Close(s, p + 1, depth - 1))
    else Close(s, p + 1, depth)
  }

  /** The end of an argument: identifier characters, and then perhaps a parenthesised part. */
  function ArgEnd(s: string, p: nat): (e: Option<nat>)
    requires p <= |s|
    ensures e.Some? ==> p <= e.value <= |s|
  {
    var e := IdEnd(s, p);
    if At(s, e) != '(' then Some(e)
    else
      var k := Close(s, e + 1, 0);
      if k.None? then None else Some(k.value + 1)
  }

  /** The arguments from p on, i of them already read. */
  function Args(s: string, p: nat, i: nat): Option<seq<string>>
    requires p <= |s|
    decreases |s| - p
  {
    var e := ArgEnd(s, p);
    if e.None? || e.value == p || i + 1 >= CRYPTO_MAX_ATTRS then None
    else
      var arg := s[p..e.value];
      if At(s, e.value) == ')' then Some([arg])
      else if At(s, e.value) != ',' then None
      else
        var rest := Args(s, e.value + 1, i + 1);
        if rest.None? then None else Some([arg] + rest.value)
  }

  function AttrsOf(args: seq<string>): (r: seq<Attr>)
    requires forall i | 0 <= i < |args| :: args[i] != []
    ensures |r| == |args|
  {
    if args == [] then [] else [AttrOf(args[0])] + AttrsOf(args[1..])
  }

  lemma {:induction false} ArgsNotEmpty(s: string, p: nat, i: nat)
    requires p <= |s|
    ensures var r := Args(s, p, i);
            r.Some? ==> && |r.value| >= 1 && i + |r.value| < CRYPTO_MAX_ATTRS
                        && forall k | 0 <= k < |r.value| :: r.value[k] != []
    decreases |s| - p
  {
    var e := ArgEnd(s, p);
    if e.Some? && e.value < |s| {
      ArgsNotEmpty(s, e.value + 1, i + 1);
    }
  }

  /** The name parser of cryptomgr_schedule_probe */
  function Parse(s: string): Parsed {
    var e := IdEnd(s, 0);
    if e == 0 || At(s, e) != '(' then Rejected
    else
      var r := Args(s, e + 1, 0);
      ArgsNotEmpty(s, e + 1, 0);
      if r.None? then Rejected else Accepted(s[..e], AttrsOf(r.value))
  }

  // ---------------------------------------------------------------------------------------
  // The grammar, without positions

  /** The depth after a text that starts at a depth and never closes more than was opened. */
  function Walk(w: string, depth: nat): Option<nat> {
    if w == [] then Some(depth)
    else if w[0] == '(' then Walk(w[1..], depth + 1)
    else if w[0] == ')' then (if depth == 0 then None else Walk(w[1..], depth - 1))
    else Walk(w[1..], depth)
  }

  predicate Balanced(w: string) { Walk(w, 0) == Some(0) }

  predicate Identifier(s: string) { s != [] && AllId(s) }

  /** Identifier characters, followed or not by a balanced text in parentheses. */
  ghost predicate Argument(a: string) {
    a != [] && (AllId(a) || exists id, w :: AllId(id) && Balanced(w) && a == Applied(id, w))
  }

  function Applied(t: string, w: string): string { t + "(" + w + ")" }

  function Join(args: seq<string>): string {
    if args == [] then "" else if |args| == 1 then args[0] else args[0] + "," + Join(args[1..])
  }

  /** A well-formed list of arguments. */
  ghost predicate Arguments(args: seq<string>) {
    1 <= |args| < CRYPTO_MAX_ATTRS && AllArguments(args)
  }

  // ---------------------------------------------------------------------------------------
  // Positions and texts agree

  lemma {:induction false} CloseIsWalk(s: string, p: nat, depth: nat)
    requires p <= |s|
    ensures var k := Close(s, p, depth);
            k.Some? ==> s[k.value] == ')' && Walk(s[p..k.value], depth) == Some(0)
    decreases |s| - p
  {
    if p < |s| && !(s[p] == ')' && depth == 0) {
      var d := if s[p] == '(' then depth + 1 else if s[p] == ')' then depth - 1 else depth;
      CloseIsWalk(s, p + 1, d);
      var k := Close(s, p, depth);
      assert k == Close(s, p + 1, d);
      if k.Some? {
        assert p + 1 <= k.value < |s|;
        assert s[p..k.value] == [s[p]] + s[p + 1..k.value];
      }
    }
  }

  lemma {:induction false} WalkIsClose(s: string, p: nat, w: string, depth: nat)
    requires p + |w| < |s| && s[p..p + |w|] == w && s[p + |w|] == ')' && Walk(w, depth) == Some(0)
    ensures Close(s, p, depth) == Some(p + |w|)
    decreases |w|
  {
    if w != [] {
      var d := if w[0] == '(' then depth + 1 else if w[0] == ')' then depth - 1 else depth;
      assert s[p] == w[0];
      assert s[p + 1..p + 1 + |w[1..]|] == w[1..];
      WalkIsClose(s, p + 1, w[1..], d);
    }
  }

  lemma {:induction false} IdEndIs(s: string, p: nat, e: nat)
    requires p <= e <= |s| && AllId(s[p..e]) && (e < |s| ==> !IdChar(s[e]))
    ensures IdEnd(s, p) == e
    decreases e - p
  {
    if p < e {
      assert s[p] == s[p..e][0];
      assert s[p + 1..e] == s[p..e][1..];
      IdEndIs(s, p + 1, e);
    }
  }

  lemma ArgEndSound(s: string, p: nat)
    requires p <= |s| && ArgEnd(s, p).Some? && ArgEnd(s, p).value > p
    ensures Argument(s[p..ArgEnd(s, p).value])
  {
    var e := IdEnd(s, p);
    if At(s, e) == '(' {
      CloseIsWalk(s, e + 1, 0);
      var k := Close(s, e + 1, 0).value;
      assert s[p..k + 1] == Applied(s[p..e], s[e + 1..k]);
    }
  }

  /** A text at a position, one character, and the rest. */
  lemma PartsAt(s: string, p: nat, a: string, c: char, more: string)
    requires p <= |s| && s[p..] == a + [c] + more
    ensures p + |a| < |s| && s[p..p + |a|] == a && s[p + |a|] == c && s[p + |a| + 1..] == more
  {
    var tail := s[p..];
    assert tail[..|a|] == a && tail[|a|] == c && tail[|a| + 1..] == more;
  }

  lemma AppliedAt(s: string, p: nat, id: string, w: string)
    requires p + |Applied(id, w)| <= |s| && s[p..p + |Applied(id, w)|] == Applied(id, w)
    ensures var b := p + |id|;
            && |Applied(id, w)| == |id| + |w| + 2
            && s[p..b] == id && s[b] == '(' && s[b + 1..b + 1 + |w|] == w && s[b + 1 + |w|] == ')'
  {
    var a := Applied(id, w);
    AppliedParts(id, w);
    hide Applied;
    SliceAt(s, p, a, 0, |id|);
    SliceAt(s, p, a, |id| + 1, |id| + 1 + |w|);
    assert s[p + |id|] == s[p..p + |a|][|id|];
    assert s[p + |id| + 1 + |w|] == s[p..p + |a|][|id| + 1 + |w|];
  }

  lemma AppliedParts(id: string, w: string)
    ensures var a := Applied(id, w);
            && |a| == |id| + |w| + 2 && a[0..|id|] == id && a[|id|] == '('
            && a[|id| + 1..|id| + 1 + |w|] == w && a[|id| + 1 + |w|] == ')'
  {
  }

  lemma SliceAt(s: string, p: nat, a: string, i: nat, j: nat)
    requires p + |a| <= |s| && s[p..p + |a|] == a && i <= j <= |a|
    ensures s[p + i..p + j] == a[i..j]
  {
    forall k | 0 <= k < j - i
      ensures s[p + i..p + j][k] == a[i..j][k]
    {
      assert s[p + i + k] == s[p..p + |a|][i + k];
    }
  }

  lemma ArgEndApplied(s: string, p: nat, id: string, w: string)
    requires AllId(id) && Balanced(w) && p + |Applied(id, w)| <= |s|
    requires s[p..p + |Applied(id, w)|] == Applied(id, w)
    ensures ArgEnd(s, p) == Some(p + |Applied(id, w)|)
  {
    hide Applied, AllId, Close, Walk, IdEnd;
    AppliedAt(s, p, id, w);
    IdEndIs(s, p, p + |id|);
    WalkIsClose(s, p + |id| + 1, w, 0);
  }

  lemma ArgEndComplete(s: string, p: nat, a: string)
    requires p + |a| < |s| && s[p..p + |a|] == a && Argument(a)
    requires s[p + |a|] == ',' || s[p + |a|] == ')'
    ensures ArgEnd(s, p) == Some(p + |a|)
  {
    if AllId(a) {
      hide AllId, IdEnd;
      IdEndIs(s, p, p + |a|);
    } else {
      hide Applied, AllId, Balanced, ArgEnd;
      var id, w :| AllId(id) && Balanced(w) && a == Applied(id, w);
      ArgEndApplied(s, p, id, w);
    }
  }

  // ---------------------------------------------------------------------------------------
  // What is accepted

  ghost predicate AllArguments(args: seq<string>) { forall k | 0 <= k < |args| :: Argument(args[k]) }

  lemma {:induction false} ArgsSound(s: string, p: nat, i: nat) returns (rest: string)
    requires p <= |s| && Args(s, p, i).Some?
    ensures var args := Args(s, p, i).value;
            s[p..] == Join(args) + ")" + rest && 1 <= |args| && AllArguments(args)
    decreases |s| - p
  {
    hide ArgEnd, Argument;
    var e := ArgEnd(s, p).value;
    var arg := s[p..e];
    ArgEndSound(s, p);
    if At(s, e) == ')' {
      rest := s[e + 1..];
      SplitAt(s, p, e);
    } else {
      rest := ArgsSound(s, e + 1, i + 1);
      var more := Args(s, e + 1, i + 1).value;
      SplitAt(s, p, e);
      JoinCons(arg, more, rest);
    }
  }

  lemma SplitAt(s: string, p: nat, e: nat)
    requires p <= e < |s|
    ensures s[p..] == s[p..e] + [s[e]] + s[e + 1..]
  {
  }

  lemma JoinCons(arg: string, more: seq<string>, rest: string)
    requires |more| >= 1
    ensures Join([arg] + more) + ")" + rest == arg + "," + (Join(more) + ")" + rest)
  {
    assert ([arg] + more)[1..] == more;
    assert Join([arg] + more) == arg + "," + Join(more);
    Regroup(arg + ",", Join(more), ")", rest);
  }

  lemma Regroup(a: string, b: string, c: string, d: string)
    ensures a + (b + c + d) == (a + b) + c + d
  {
  }

  lemma {:induction false} ArgsComplete(s: string, p: nat, i: nat, args: seq<string>, rest: string)
    requires p <= |s| && s[p..] == Join(args) + ")" + rest
    requires 1 <= |args| && i + |args| < CRYPTO_MAX_ATTRS && AllArguments(args)
    ensures Args(s, p, i) == Some(args)
    decreases |args|
  {
    hide ArgEnd, Argument;
    var a := args[0];
    assert Argument(a);
    ArgumentNotEmpty(a);
    if |args| == 1 {
      PartsAt(s, p, a, ')', rest);
      ArgEndComplete(s, p, a);
      assert args == [a];
    } else {
      assert args == [a] + args[1..];
      hide Join;
      JoinCons(a, args[1..], rest);
      PartsAt(s, p, a, ',', Join(args[1..]) + ")" + rest);
      ArgEndComplete(s, p, a);
      ArgsComplete(s, p + |a| + 1, i + 1, args[1..], rest);
    }
  }

  lemma ArgumentNotEmpty(a: string)
    requires Argument(a)
    ensures a != []
  {
  }

  /** Every template applied to fewer than CRYPTO_MAX_ATTRS arguments is read back exactly, whatever follows. */
  lemma ParsePrints(t: string, args: seq<string>, rest: string)
    requires Identifier(t) && Arguments(args)
    ensures (forall i | 0 <= i < |args| :: args[i] != [])
            && Parse(Applied(t, Join(args)) + rest) == Accepted(t, AttrsOf(args))
  {
    hide Join, Args, IdEnd, Argument, AllId, AttrsOf, Applied, AllArguments;
    var s := Applied(t, Join(args)) + rest;
    AppliedRest(t, Join(args), rest);
    IdEndIs(s, 0, |t|);
    ArgsComplete(s, |t| + 1, 0, args, rest);
    ArgsNotEmpty(s, |t| + 1, 0);
  }

  lemma AppliedRest(t: string, w: string, rest: string)
    ensures var s := Applied(t, w) + rest;
            |t| < |s| && s[..|t|] == t && s[0..|t|] == t && s[|t|] == '(' && s[|t| + 1..] == w + ")" + rest
  {
  }

  /** And nothing else is accepted. */
  lemma ParseSound(s: string) returns (args: seq<string>, rest: string)
    requires Parse(s).Accepted?
    ensures Identifier(Parse(s).template) && Arguments(args) && s == Applied(Parse(s).template, Join(args)) + rest
    ensures (forall i | 0 <= i < |args| :: args[i] != []) && Parse(s).attrs == AttrsOf(args)
  {
    hide Join, Args, IdEnd, Argument, AllId, AttrsOf;
    var e := IdEnd(s, 0);
    args := Args(s, e + 1, 0).value;
    rest := ArgsSound(s, e + 1, 0);
    ArgsNotEmpty(s, e + 1, 0);
    assert s[..e] == s[0..e];
    SplitAt(s, 0, e);
    var j := Join(args);
    assert s[..e] + "(" + (j + ")" + rest) == (s[..e] + "(" + j + ")") + rest;
    assert s == s[..e] + "(" + s[e + 1..];
  }

  // ---------------------------------------------------------------------------------------
  // Names built by instances, to any depth

  /** An algorithm, or a template with the names it was applied to. */
  datatype Name = Name(id: string, args: seq<Name>)

  function RenderAll(args: seq<Name>): (r: seq<string>)
    ensures |r| == |args|
    decreases args
  {
    if args == [] then [] else [Render(args[0])] + RenderAll(args[1..])
  }

  function Render(n: Name): string
    decreases n
  {
    if n.args == [] then n.id else Applied(n.id, Join(RenderAll(n.args)))
  }

  predicate WellFormed(n: Name)
    decreases n
  {
    Identifier(n.id) && |n.args| < CRYPTO_MAX_ATTRS && forall i | 0 <= i < |n.args| :: WellFormed(n.args[i])
  }

  lemma {:induction false} WalkAppend(a: string, b: string, depth: nat)
    ensures Walk(a + b, depth) == if Walk(a, depth).None? then None else Walk(b, Walk(a, depth).value)
    decreases |a|
  {
    if a == [] {
      assert a + b == b;
    } else {
      assert (a + b)[1..] == a[1..] + b;
      if !(a[0] == ')' && depth == 0) {
        WalkAppend(a[1..], b, if a[0] == '(' then depth + 1 else if a[0] == ')' then depth - 1 else depth);
      }
    }
  }

  lemma {:induction false} WalkId(w: string, depth: nat)
    requires AllId(w)
    ensures Walk(w, depth) == Some(depth)
    decreases |w|
  {
    if w != [] {
      assert IdChar(w[0]);
      WalkId(w[1..], depth);
    }
  }

  /** A text that is level at one depth is level at every deeper one. */
  lemma {:induction false} WalkDeeper(w: string, depth: nat, more: nat)
    requires Walk(w, depth).Some?
    ensures Walk(w, depth + more) == Some(Walk(w, depth).value + more)
    decreases |w|
  {
    if w != [] {
      WalkDeeper(w[1..], if w[0] == '(' then depth + 1 else if w[0] == ')' then depth - 1 else depth, more);
    }
  }

  lemma AppliedBalanced(t: string, w: string)
    requires AllId(t) && Balanced(w)
    ensures Balanced(Applied(t, w))
  {
    WalkId(t, 0);
    WalkDeeper(w, 0, 1);
    WalkAppend(t + "(" + w, ")", 0);
    WalkAppend(t + "(", w, 0);
    WalkAppend(t, "(", 0);
    assert Walk("(", 0) == Some(1);
    assert Walk(")", 1) == Some(0);
  }

  lemma {:induction false} JoinBalanced(args: seq<string>)
    requires forall i | 0 <= i < |args| :: Balanced(args[i])
    ensures Balanced(Join(args))
    decreases |args|
  {
    if |args| > 1 {
      JoinBalanced(args[1..]);
      WalkAppend(args[0] + ",", Join(args[1..]), 0);
      WalkAppend(args[0], ",", 0);
      assert Walk(",", 0) == Some(0);
    }
  }

  /** What an instance prints can be an argument of the next one. */
  lemma {:induction false} RenderIsArgument(n: Name)
    requires WellFormed(n)
    ensures Argument(Render(n)) && Balanced(Render(n))
    decreases n
  {
    if n.args == [] {
      WalkId(n.id, 0);
    } else {
      RenderAllArguments(n.args);
      JoinBalanced(RenderAll(n.args));
      AppliedBalanced(n.id, Join(RenderAll(n.args)));
    }
  }

  lemma {:induction false} RenderAllArguments(args: seq<Name>)
    requires forall i | 0 <= i < |args| :: WellFormed(args[i])
    ensures forall i | 0 <= i < |args| :: Argument(RenderAll(args)[i]) && Balanced(RenderAll(args)[i])
    decreases args
  {
    if args != [] {
      RenderIsArgument(args[0]);
      RenderAllArguments(args[1..]);
      var r := RenderAll(args);
      forall i | 0 <= i < |args|
        ensures Argument(r[i]) && Balanced(r[i])
      {
        assert i > 0 ==> r[i] == RenderAll(args[1..])[i - 1];
      }
    }
  }

  /** Names nested to any depth by instance creation parse back: the template and, for each argument, the number or
      the name it was built from. */
  lemma NestedNamesParse(n: Name)
    requires WellFormed(n) && n.args != []
    ensures (forall i | 0 <= i < |n.args| :: RenderAll(n.args)[i] != [])
            && Parse(Render(n)) == Accepted(n.id, AttrsOf(RenderAll(n.args)))
  {
    RenderAllArguments(n.args);
    ParsePrints(n.id, RenderAll(n.args), "");
    assert Render(n) == Applied(n.id, Join(RenderAll(n.args))) + "";
  }

  // ---------------------------------------------------------------------------------------
  // Numbers

  /** The bases of an argument */
  predicate Base(base: nat) { base == 8 || base == 10 }

  function Upper(n: nat, base: nat): nat
    requires Base(base)
  {
    n / base
  }

  /** A number without its last digit, and with it. */
  lemma Division(n: nat, base: nat)
    requires Base(base)
    ensures n == Upper(n, base) * base + n % base && n % base < base
    ensures (n < base ==> n % base == n) && (n >= base ==> 0 < Upper(n, base) < n)
  {
    if base == 8 {
      assert n == n / 8 * 8 + n % 8;
    } else {
      assert n == n / 10 * 10 + n % 10;
    }
  }

  /** The digits of a number. */
  function Digits(n: nat, base: nat): string
    requires Base(base)
    decreases n
  {
    Division(n, base);
    (if n < base then [] else Digits(Upper(n, base), base)) + [('0' as nat + n % base) as char]
  }

  lemma DigitIs(d: nat)
    requires d < 10
    ensures IsDigit(('0' as nat + d) as char) && Digit(('0' as nat + d) as char) == d
    ensures ('0' as nat + d) as char == '0' <==> d == 0
  {
  }

  /** One more digit of the base. */
  lemma {:induction false} ValueSnoc(s: string, c: char, base: nat, acc: nat)
    requires AllDigits(s) && IsDigit(c) && Digit(c) < base && forall i | 0 <= i < |s| :: Digit(s[i]) < base
    ensures AllDigits(s + [c]) && Value(s + [c], base, acc) == Value(s, base, acc) * base + Digit(c)
    decreases |s|
  {
    assert AllDigits(s + [c]);
    if s == [] {
      assert s + [c] == [c];
      assert Value([c], base, acc) == Value([], base, acc * base + Digit(c));
    } else {
      assert (s + [c])[1..] == s[1..] + [c];
      ValueSnoc(s[1..], c, base, acc * base + Digit(s[0]));
    }
  }

  /** What `Digits` gives: digits of the base, whose value is the number, the first of them zero only for zero. */
  predicate Spells(s: string, n: nat, base: nat) {
    && s != [] && AllDigits(s) && (forall i | 0 <= i < |s| :: Digit(s[i]) < base)
    && Value(s, base, 0) == n && (s[0] == '0' <==> n == 0)
  }

  lemma OneDigit(d: nat, base: nat)
    requires Base(base) && d < base
    ensures Spells([('0' as nat + d) as char], d, base)
  {
    var c := ('0' as nat + d) as char;
    DigitIs(d);
    ValueSnoc([], c, base, 0);
    assert [] + [c] == [c];
  }

  lemma MoreDigits(s: string, q: nat, d: nat, base: nat)
    requires Base(base) && d < base && 0 < q && Spells(s, q, base)
    ensures Spells(s + [('0' as nat + d) as char], q * base + d, base)
  {
    hide Value;
    DigitIs(d);
    ValueSnoc(s, ('0' as nat + d) as char, base, 0);
    assert q * base >= q by {
      assert base >= 1;
    }
  }

  /** The digits of a number are its value, in either base; the first is zero only for zero. */
  lemma {:induction false} DigitsValue(n: nat, base: nat)
    requires Base(base)
    ensures Spells(Digits(n, base), n, base)
    decreases n
  {
    hide Spells, Upper;
    Division(n, base);
    if n < base {
      assert Digits(n, base) == [('0' as nat + n % base) as char];
      OneDigit(n, base);
    } else {
      var q := Upper(n, base);
      DigitsValue(q, base);
      MoreDigits(Digits(q, base), q, n % base, base);
    }
  }

  /** An argument that is a number in decimal digits reads back as that number, in 32 bits; and so does one in octal
      digits after a zero. */
  lemma NumbersReadBack(n: nat)
    ensures var s := Digits(n, 10); s != [] && AllDigits(s) && NumberOf(s) == n % 0x1_0000_0000
    ensures var s := ['0'] + Digits(n, 8); AllDigits(s) && NumberOf(s) == n % 0x1_0000_0000
  {
    DigitsValue(n, 10);
    DigitsValue(n, 8);
    var s := ['0'] + Digits(n, 8);
    assert s[1..] == Digits(n, 8);
    assert Value(s, 8, 0) == Value(s[1..], 8, 0);
    if n == 0 {
      assert Digits(0, 10) == ['0'];
      assert Value(['0'], 8, 0) == Value([], 8, 0);
    }
  }

  /** A digit that the base does not have ends the number. */
  lemma {:induction false} ValueStops(s: string, t: string, base: nat, acc: nat)
    requires AllDigits(s) && AllDigits(t) && t != [] && Digit(t[0]) >= base
    requires forall i | 0 <= i < |s| :: Digit(s[i]) < base
    ensures AllDigits(s + t) && Value(s + t, base, acc) == Value(s, base, acc)
    decreases |s|
  {
    if s == [] {
      assert s + t == t;
    } else {
      assert (s + t)[1..] == s[1..] + t;
      ValueStops(s[1..], t, base, acc * base + Digit(s[0]));
    }
  }
}
