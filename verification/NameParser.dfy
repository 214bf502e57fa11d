/** crypto/algboss.c, the scan of an algorithm name, and crypto/algapi.c, the name of an instance. */
module NameParser {
  import opened Common
  import opened NameGrammar

  /** simple_strtol of a text of digits, stored in 32 bits */
  method ReadNumber(s: string) returns (n: nat)
    requires s != [] && AllDigits(s)
    ensures n == NumberOf(s)
  {
    var base := if s[0] == '0' then 8 else 10;
    var result: nat, i := 0, 0;
    assert s[0..] == s;
    while i < |s| && Digit(s[i]) < base
      invariant i <= |s| && Value(s[i..], base, result) == Value(s, base, 0)
    {
      assert s[i..][1..] == s[i + 1..];
      result := result * base + Digit(s[i]);
      i := i + 1;
    }
    n := result % 0x1_0000_0000;
  }

  /** The identifier characters from p on, and whether one of them is not a digit. */
  method ScanId(s: string, p: nat) returns (e: nat, notnum: bool)
    requires p <= |s|
    ensures e == IdEnd(s, p) && notnum == !AllDigits(s[p..e])
  {
    e, notnum := p, false;
    while e < |s| && IdChar(s[e])
      invariant p <= e <= |s| && IdEnd(s, e) == IdEnd(s, p) && notnum == !AllDigits(s[p..e])
    {
      notnum := notnum || !IsDigit(s[e]);
      assert s[p..e + 1] == s[p..e] + [s[e]];
      DigitsAppend(s[p..e], s[e]);
      e := e + 1;
    }
  }

  lemma DigitsAppend(s: string, c: char)
    ensures AllDigits(s + [c]) <==> AllDigits(s) && IsDigit(c)
  {
    if AllDigits(s + [c]) {
      assert (s + [c])[|s|] == c;
      assert forall i | 0 <= i < |s| :: s[i] == (s + [c])[i];
    }
  }

  /** The parenthesis that matches the one at p: the counter goes up and down, and the end of the text is an error */
  method ScanParens(s: string, p: nat) returns (k: Option<nat>)
    requires p < |s|
    ensures k == Close(s, p + 1, 0)
  {
    var q, recursion: nat := p, 0;
    while true
      invariant p <= q < |s| && Close(s, q + 1, recursion) == Close(s, p + 1, 0)
      decreases |s| - q
    {
      q := q + 1;
      if q == |s| {
        return None;
      }
      if s[q] == '(' {
        recursion := recursion + 1;
      } else if s[q] == ')' {
        if recursion == 0 {
          return Some(q);
        }
        recursion := recursion - 1;
      }
    }
  }

  /** One argument: where it ends, and what it is. */
  method ScanArg(s: string, p: nat) returns (e: Option<nat>, attr: Attr)
    requires p <= |s|
    ensures e == ArgEnd(s, p)
    ensures e.Some? && e.value > p ==> attr == AttrOf(s[p..e.value])
  {
    attr := Alg("");
    var q, notnum := ScanId(s, p);
    if q < |s| && s[q] == '(' {
      var k := ScanParens(s, q);
      if k.None? {
        return None, attr;
      }
      ghost var text := s[p..k.value + 1];
      assert text[q - p] == '(';
      notnum := true;
      q := k.value + 1;
    }
    e := Some(q);
    if q > p {
      if notnum {
        attr := Alg(s[p..q]);
      } else {
        var n := ReadNumber(s[p..q]);
        attr := Num(n);
      }
    }
  }

  /** The scan in cryptomgr_schedule_probe; a name is a C string shorter than CRYPTO_MAX_ALG_NAME, so that every part
      of it fits where it is copied */
  method ParseName(name: string) returns (r: Parsed)
    requires '\0' !in name && |name| < CRYPTO_MAX_ALG_NAME
    ensures r == Parse(name)
    ensures r.Accepted? ==> |r.template| < CRYPTO_MAX_ALG_NAME && 1 <= |r.attrs| < CRYPTO_MAX_ATTRS
    ensures r.Accepted? ==> forall i | 0 <= i < |r.attrs| && r.attrs[i].Alg? :: |r.attrs[i].name| < CRYPTO_MAX_ALG_NAME
  {
    hide IdEnd, ArgEnd, AttrOf, Args, Continued, AttrsOf;
    var p, _ := ScanId(name, 0);
    var len := p;
    if len == 0 || p == |name| || name[p] != '(' {
      return Rejected;
    }
    ghost var start := p + 1;
    ghost var done: seq<string> := [];
    ArgsNotEmpty(name, start, 0);
    ContinueNone(Args(name, start, 0));
    NoAttrs();
    var attrs: seq<Attr> := [];
    var i := 0;
    var more := true;
    while more
      invariant p < |name| && i == |attrs| == |done| < CRYPTO_MAX_ATTRS
      invariant (forall j | 0 <= j < |done| :: done[j] != []) && attrs == AttrsOf(done)
      invariant forall j | 0 <= j < i && attrs[j].Alg? :: |attrs[j].name| < CRYPTO_MAX_ALG_NAME
      invariant more ==> Args(name, start, 0) == Continued(done, Args(name, p + 1, i))
      invariant !more ==> Args(name, start, 0) == Some(done) && 1 <= i
      decreases more, |name| - p
    {
      var from := p + 1;
      ArgsNext(name, from, i, done);
      var e, attr := ScanArg(name, from);
      if e.None? || e.value == from {
        return Rejected;
      }
      p := e.value;
      AttrFits(name[from..p]);
      AttrsAppend(done, name[from..p]);
      done := done + [name[from..p]];
      attrs := attrs + [attr];
      i := i + 1;
      if i >= CRYPTO_MAX_ATTRS {
        return Rejected;
      }
      if p < |name| && name[p] == ')' {
        more := false;
      } else if p == |name| || name[p] != ',' {
        return Rejected;
      }
    }
    assert name[..len] == name[0..len];
    r := Accepted(name[..len], attrs);
  }

  /** What has been read, followed by what is still to come. */
  function Continued(done: seq<string>, rest: Option<seq<string>>): Option<seq<string>> {
    if rest.None? then None else Some(done + rest.value)
  }

  /** What one argument, and the character behind it, says about the rest. */
  lemma ArgsNext(s: string, p: nat, i: nat, done: seq<string>)
    requires p <= |s|
    ensures var e, all := ArgEnd(s, p), Continued(done, Args(s, p, i));
            if e.None? || e.value == p || i + 1 >= CRYPTO_MAX_ATTRS then all.None?
            else if At(s, e.value) == ')' then all == Some(done + [s[p..e.value]])
            else if At(s, e.value) != ',' then all.None?
            else all == Continued(done + [s[p..e.value]], Args(s, e.value + 1, i + 1))
  {
    hide ArgEnd;
    var e := ArgEnd(s, p);
    if e.Some? && e.value < |s| {
      var rest := Args(s, e.value + 1, i + 1);
      if rest.Some? {
        assert done + ([s[p..e.value]] + rest.value) == (done + [s[p..e.value]]) + rest.value;
      }
    }
  }

  lemma ContinueNone(r: Option<seq<string>>)
    ensures Continued([], r) == r
  {
    if r.Some? {
      assert [] + r.value == r.value;
    }
  }

  lemma {:induction false} AttrsAppend(args: seq<string>, a: string)
    requires a != [] && forall i | 0 <= i < |args| :: args[i] != []
    ensures AttrsOf(args + [a]) == AttrsOf(args) + [AttrOf(a)]
  {
    if args == [] {
      assert args + [a] == [a];
    } else {
      assert (args + [a])[1..] == args[1..] + [a];
      AttrsAppend(args[1..], a);
    }
  }

  lemma NoAttrs()
    ensures AttrsOf([]) == []
  {
  }

  lemma AttrFits(a: string)
    requires a != []
    ensures AttrOf(a).Alg? ==> AttrOf(a).name == a
  {
  }

  /** cra_name and cra_driver_name of an algorithm */
  datatype Names = Names(name: string, driver: string)

  /** The names crypto_alloc_instance2 gives an instance, or none if either would be too long */
  method InstanceName(template: string, child: Names) returns (r: Option<Names>)
    ensures r.Some? <==> && |template| + |child.name| + 2 < CRYPTO_MAX_ALG_NAME
                         && |template| + |child.driver| + 2 < CRYPTO_MAX_ALG_NAME
    ensures r.Some? ==> r.value == Names(Applied(template, child.name), Applied(template, child.driver))
    ensures r.Some? && Identifier(template) && Argument(child.name) ==>
              Parse(r.value.name) == Accepted(template, [AttrOf(child.name)])
    ensures r.Some? && Identifier(template) && Argument(child.driver) ==>
              Parse(r.value.driver) == Accepted(template, [AttrOf(child.driver)])
  {
    var name := template + "(" + child.name + ")";
    if |name| >= CRYPTO_MAX_ALG_NAME {
      return None;
    }
    var driver := template + "(" + child.driver + ")";
    if |driver| >= CRYPTO_MAX_ALG_NAME {
      return None;
    }
    if Identifier(template) {
      InstanceParses(template, child.name);
      InstanceParses(template, child.driver);
    }
    return Some(Names(name, driver));
  }

  lemma InstanceParses(template: string, child: string)
    requires Identifier(template)
    ensures Argument(child) ==> Parse(Applied(template, child)) == Accepted(template, [AttrOf(child)])
  {
    if Argument(child) {
      ParsePrints(template, [child], "");
      assert Applied(template, Join([child])) + "" == Applied(template, child);
      assert AttrsOf([child]) == [AttrOf(child)] + AttrsOf([]);
    }
  }
}
