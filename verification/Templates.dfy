/** Placeholder templates such as "Device.Ethernet.Link.{eth}.Alias".

    The provisioning executor substitutes variables one at a time with ReplaceAll, in
    map-iteration order; the schema mapper substitutes them simultaneously with a
    Replacer. This module defines both and shows when they agree. */
module Templates {
  import opened GoStrings

  type Vars = map<string, string>

  /** One ordering of the entries of a variable table. */
  type Bindings = seq<(string, string)>

  function Placeholder(name: string): string {
    "{" + name + "}"
  }

  predicate Names(order: Bindings, name: string) {
    exists i :: 0 <= i < |order| && order[i].0 == name
  }

  predicate Lists(order: Bindings, vars: Vars) {
    && (forall i | 0 <= i < |order| :: order[i].0 in vars && vars[order[i].0] == order[i].1)
    && (forall n | n in vars :: Names(order, n))
    && (forall i, j | 0 <= i < j < |order| :: order[i].0 != order[j].0)
  }

  /** No value opens a placeholder and no name closes one. Brace-free tables qualify. */
  predicate SafeTable(vars: Vars) {
    forall n | n in vars :: '}' !in n && '{' !in vars[n]
  }

  // ---- the two substitutions ----

  /** ProvisionExecutor.substitute for one iteration order of the table. */
  function ReplaceInOrder(s: string, order: Bindings): string
    decreases |order|
  {
    if order == [] then s
    else ReplaceInOrder(ReplaceAll(s, Placeholder(order[0].0), order[0].1), order[1..])
  }

  /** s starts with a closed placeholder. */
  predicate HoleAt(s: string) {
    s != "" && s[0] == '{' && IndexOf(s[1..], '}') < |s| - 1
  }

  function HoleName(s: string): string
    requires HoleAt(s)
  {
    s[1..][..IndexOf(s[1..], '}')]
  }

  function PastHole(s: string): (rest: string)
    requires HoleAt(s)
    ensures |rest| < |s|
    ensures s == Placeholder(HoleName(s)) + rest
  {
    s[|HoleName(s)| + 2..]
  }

  /** Every placeholder of the original string replaced by its value, values untouched. */
  function Simultaneous(s: string, vars: Vars): string
    decreases |s|
  {
    if s == "" then ""
    else if HoleAt(s) && HoleName(s) in vars then vars[HoleName(s)] + Simultaneous(PastHole(s), vars)
    else [s[0]] + Simultaneous(s[1..], vars)
  }

  /** Argument order decides which key of a strings.Replacer wins at a position. */
  function FirstMatch(s: string, args: Bindings): (m: Option<(string, string)>)
    ensures m.Some? ==> HasPrefix(s, Placeholder(m.value.0))
  {
    if args == [] then None
    else if HasPrefix(s, Placeholder(args[0].0)) then Some(args[0])
    else FirstMatch(s, args[1..])
  }

  /** strings.NewReplacer("{n0}", v0, "{n1}", v1, ...).Replace(s). */
  function Replacer(s: string, args: Bindings): string
    decreases |s|
  {
    if s == "" then ""
    else match FirstMatch(s, args)
      case Some(b) => b.1 + Replacer(s[|Placeholder(b.0)|..], args)
      case None => [s[0]] + Replacer(s[1..], args)
  }

  /** No '{' occurs between a '{' and the '}' that follows it: no nested braces. */
  predicate Flat(s: string) {
    s != "" ==>
      && (s[0] == '{' ==> '{' !in s[1..][..IndexOf(s[1..], '}')])
      && Flat(s[1..])
  }

  /** Names of the closed placeholders of s. */
  function Holes(s: string): set<string>
    decreases |s|
  {
    if s == "" then {}
    else if HoleAt(s) then {HoleName(s)} + Holes(s[1..])
    else Holes(s[1..])
  }

  // ---- stepping over text that opens no placeholder ----

  lemma {:induction false} OverText(p: string, s: string, vars: Vars)
    requires '{' !in p
    ensures Simultaneous(p + s, vars) == p + Simultaneous(s, vars)
    ensures Flat(p + s) == Flat(s)
    ensures Holes(p + s) == Holes(s)
  {
    if p == "" {
      assert p + s == s;
    } else {
      assert (p + s)[1..] == p[1..] + s;
      assert p == [p[0]] + p[1..];
      OverText(p[1..], s, vars);
    }
  }

  lemma {:induction false} ReplaceOverText(p: string, s: string, name: string, value: string)
    requires '{' !in p
    ensures ReplaceAll(p + s, Placeholder(name), value) == p + ReplaceAll(s, Placeholder(name), value)
  {
    if p == "" {
      assert p + s == s;
    } else {
      assert (p + s)[1..] == p[1..] + s;
      assert p == [p[0]] + p[1..];
      assert Placeholder(name)[0] == '{' && (p + s)[0] != '{';
      ReplaceOverText(p[1..], s, name, value);
    }
  }

  /** Reading a placeholder back at the front of a string. */
  lemma HoleInFront(name: string, rest: string)
    requires '}' !in name
    ensures HoleAt(Placeholder(name) + rest)
    ensures HoleName(Placeholder(name) + rest) == name
    ensures PastHole(Placeholder(name) + rest) == rest
  {
    var s := Placeholder(name) + rest;
    assert s[1..] == name + ("}" + rest);
    IndexOfPast(name, "}" + rest, '}');
    assert s[1..][..|name|] == name;
  }

  lemma PrefixIsHole(s: string, name: string)
    requires '}' !in name
    ensures Placeholder(name) <= s <==> HoleAt(s) && HoleName(s) == name
    ensures Placeholder(name) <= s ==> s[|Placeholder(name)|..] == PastHole(s)
  {
    if Placeholder(name) <= s {
      assert s == Placeholder(name) + s[|Placeholder(name)|..];
      HoleInFront(name, s[|Placeholder(name)|..]);
    }
    if HoleAt(s) && HoleName(s) == name {
      assert s == Placeholder(name) + PastHole(s);
    }
  }

  /** A placeholder for an unbound name is copied, whatever follows it. */
  lemma OverHole(name: string, rest: string, vars: Vars)
    requires '}' !in name && '{' !in name
    ensures Flat(Placeholder(name) + rest) == Flat(rest)
    ensures Holes(Placeholder(name) + rest) == {name} + Holes(rest)
    ensures name !in vars ==> Simultaneous(Placeholder(name) + rest, vars) == Placeholder(name) + Simultaneous(rest,
      vars)
    ensures name in vars ==> Simultaneous(Placeholder(name) + rest, vars) == vars[name] + Simultaneous(rest, vars)
  {
    HoleSubstitutes(name, rest, vars);
    HoleIsFlat(name, rest, vars);
  }

  lemma HoleTail(name: string, rest: string, vars: Vars)
    requires '}' !in name && '{' !in name
    ensures var s, tail := Placeholder(name) + rest, (name + "}") + rest;
      && s[1..] == tail && Placeholder(name) == ['{'] + (name + "}")
      && Simultaneous(tail, vars) == (name + "}") + Simultaneous(rest, vars) && Flat(tail) == Flat(rest)
           && Holes(tail) == Holes(rest)
  {
    assert (Placeholder(name) + rest)[1..] == (name + "}") + rest;
    OverText(name + "}", rest, vars);
  }

  lemma HoleSubstitutes(name: string, rest: string, vars: Vars)
    requires '}' !in name && '{' !in name
    ensures name !in vars ==> Simultaneous(Placeholder(name) + rest, vars) == Placeholder(name) + Simultaneous(rest,
      vars)
    ensures name in vars ==> Simultaneous(Placeholder(name) + rest, vars) == vars[name] + Simultaneous(rest, vars)
  {
    HoleInFront(name, rest);
    if name !in vars { HoleIsCopied(Placeholder(name) + rest, name, rest, vars); }
  }

  lemma HoleIsCopied(s: string, name: string, rest: string, vars: Vars)
    requires '}' !in name && '{' !in name && s == Placeholder(name) + rest
    requires HoleAt(s) && HoleName(s) == name && name !in vars
    ensures Simultaneous(s, vars) == Placeholder(name) + Simultaneous(rest, vars)
  {
    HoleTail(name, rest, vars);
    assert Simultaneous(s, vars) == [s[0]] + Simultaneous(s[1..], vars);
    assert ['{'] + ((name + "}") + Simultaneous(rest, vars)) == Placeholder(name) + Simultaneous(rest, vars);
  }

  lemma HoleIsFlat(name: string, rest: string, vars: Vars)
    requires '}' !in name && '{' !in name
    ensures Flat(Placeholder(name) + rest) == Flat(rest)
    ensures Holes(Placeholder(name) + rest) == {name} + Holes(rest)
  {
    HoleInFront(name, rest);
    HoleTail(name, rest, vars);
  }

  lemma ReplaceOverHole(name: string, rest: string, other: string, value: string)
    requires '}' !in name && '{' !in name && '}' !in other && name != other
    ensures ReplaceAll(Placeholder(name) + rest, Placeholder(other), value)
         == Placeholder(name) + ReplaceAll(rest, Placeholder(other), value)
  {
    OtherHole(name, rest, other);
    assert (Placeholder(name) + rest)[1..] == (name + "}") + rest;
    ReplaceOverText(name + "}", rest, other, value);
    assert Placeholder(name) == ['{'] + (name + "}");
  }

  lemma OtherHole(name: string, rest: string, other: string)
    requires '}' !in name && '}' !in other && name != other
    ensures !(Placeholder(other) <= Placeholder(name) + rest)
  {
    HoleInFront(name, rest);
    PrefixIsHole(Placeholder(name) + rest, other);
  }

  lemma FlatHole(s: string)
    requires Flat(s) && HoleAt(s)
    ensures '{' !in HoleName(s) && '}' !in HoleName(s)
    ensures Flat(PastHole(s))
  {
    OverHole(HoleName(s), PastHole(s), map[]);
  }

  // ---- confluence ----

  /** Replacing one variable first leaves the simultaneous substitution of the others to do. */
  lemma {:induction false} Absorb(s: string, name: string, vars: Vars)
    requires Flat(s) && name in vars && '}' !in name && '{' !in vars[name]
    ensures var r := ReplaceAll(s, Placeholder(name), vars[name]);
      Flat(r) && Simultaneous(r, vars - {name}) == Simultaneous(s, vars)
    decreases |s|
  {
    var rest := vars - {name};
    if s == "" {
    } else if HoleAt(s) {
      FlatHole(s);
      var m, tail := HoleName(s), PastHole(s);
      Absorb(tail, name, vars);
      var r := ReplaceAll(tail, Placeholder(name), vars[name]);
      OverHole(m, tail, vars);
      if m == name {
        assert s[|Placeholder(name)|..] == tail;
        OverText(vars[name], r, rest);
      } else {
        ReplaceOverHole(m, tail, name, vars[name]);
        OverHole(m, r, rest);
      }
    } else {
      PrefixIsHole(s, name);
      Absorb(s[1..], name, vars);
      var r := ReplaceAll(s[1..], Placeholder(name), vars[name]);
      if s[0] == '{' {
        // an unclosed brace: nothing after it opens a placeholder
        assert s[1..][..IndexOf(s[1..], '}')] == s[1..];
        ReplaceOverText(s[1..], "", name, vars[name]);
        assert s[1..] + "" == s[1..];
        assert r == s[1..] && [s[0]] + r == s;
        UnclosedStays(s, vars);
        UnclosedStays(s, rest);
      } else {
        OverText([s[0]], r, rest);
      }
    }
  }

  lemma UnclosedStays(s: string, vars: Vars)
    requires s != "" && !HoleAt(s) && '{' !in s[1..]
    ensures Simultaneous(s, vars) == s
  {
    assert s[1..] == s[1..] + "";
    OverText(s[1..], "", vars);
  }

  lemma {:induction false} NothingToReplace(s: string)
    ensures Simultaneous(s, map[]) == s
  {
    if s != "" {
      NothingToReplace(s[1..]);
    }
  }

  /** Every iteration order of a safe table gives the simultaneous substitution. */
  lemma {:induction false} SubstitutionIsConfluent(s: string, order: Bindings, vars: Vars)
    requires Lists(order, vars) && SafeTable(vars) && Flat(s)
    ensures ReplaceInOrder(s, order) == Simultaneous(s, vars)
    decreases |order|
  {
    if order == [] {
      NoEntries(vars);
      NothingToReplace(s);
    } else {
      var (name, value) := order[0];
      Absorb(s, name, vars);
      ListsRest(order, vars);
      SubstitutionIsConfluent(ReplaceAll(s, Placeholder(name), value), order[1..], vars - {name});
    }
  }

  lemma NoEntries(vars: Vars)
    requires Lists([], vars)
    ensures vars == map[]
  {
    assert forall n :: n in vars ==> Names([], n);
  }

  lemma ListsRest(order: Bindings, vars: Vars)
    requires order != [] && Lists(order, vars)
    ensures Lists(order[1..], vars - {order[0].0})
  {
    forall n | n in vars - {order[0].0} ensures Names(order[1..], n) {
      assert Names(order, n);
      var i :| 0 <= i < |order| && order[i].0 == n;
      assert order[1..][i - 1].0 == n;
    }
  }

  // ---- exactly when iteration order does not matter ----

  /** v can neither hold p nor begin it: wherever v is inserted, p occurs afterwards only outside v. */
  predicate Inert(v: string, p: string) {
    !Contains(v, p) && forall i | 0 <= i < |v| :: !Begins(v[i..], p)
  }

  /** u is a non-empty proper prefix of p. */
  predicate Begins(u: string, p: string) {
    u != "" && |u| < |p| && u <= p
  }

  /** No value interferes with the placeholder of another variable, unless that one stands for itself. */
  predicate NonInterfering(vars: Vars) {
    forall a, b | a in vars && b in vars && a != b && vars[b] != Placeholder(b) :: Inert(vars[a], Placeholder(b))
  }

  predicate BraceFreeNames(vars: Vars) {
    forall n | n in vars :: '{' !in n && '}' !in n
  }

  /** All iteration orders of the table agree on every template without nested braces. */
  ghost predicate Confluent(vars: Vars) {
    forall s, o, q | Flat(s) && Lists(o, vars) && Lists(q, vars) :: ReplaceInOrder(s, o) == ReplaceInOrder(s, q)
  }

  lemma {:induction false} InertTail(v: string, p: string)
    requires v != "" && Inert(v, p)
    ensures Inert(v[1..], p)
  {
    forall i | 0 <= i < |v[1..]| ensures !Begins(v[1..][i..], p) {
      assert v[1..][i..] == v[i + 1..];
    }
  }

  lemma PrefixOfConcat(p: string, v: string, s: string)
    ensures p <= v + s ==> p <= v || (|v| < |p| && v <= p)
  {
    if p <= v + s {
      if |p| <= |v| { assert p == (v + s)[..|p|] == v[..|p|]; } else { assert v == (v + s)[..|v|] == p[..|v|]; }
    }
  }

  lemma {:induction false} ReplaceOverInert(v: string, s: string, p: string, value: string)
    requires p != "" && Inert(v, p)
    ensures ReplaceAll(v + s, p, value) == v + ReplaceAll(s, p, value)
  {
    if v == "" {
      assert v + s == s;
    } else {
      assert v[0..] == v && !Begins(v, p);
      PrefixOfConcat(p, v, s);
      assert (v + s)[1..] == v[1..] + s;
      InertTail(v, p);
      ReplaceOverInert(v[1..], s, p, value);
    }
  }

  lemma {:induction false} ReplaceByItself(s: string, p: string)
    requires p != ""
    ensures ReplaceAll(s, p, p) == s
  {
    if s != "" {
      if p <= s {
        assert s == p + s[|p|..];
        ReplaceByItself(s[|p|..], p);
      } else {
        ReplaceByItself(s[1..], p);
      }
    }
  }

  /** A variable that stands for its own placeholder changes nothing. */
  lemma {:induction false} SelfBoundIsUnbound(s: string, vars: Vars, b: string)
    requires b in vars && vars[b] == Placeholder(b) && '{' !in b && '}' !in b && Flat(s)
    ensures Simultaneous(s, vars) == Simultaneous(s, vars - {b})
    decreases |s|
  {
    if s == "" {
    } else if HoleAt(s) {
      FlatHole(s);
      SelfBoundIsUnbound(PastHole(s), vars, b);
      OverHole(HoleName(s), PastHole(s), vars);
      OverHole(HoleName(s), PastHole(s), vars - {b});
    } else {
      SelfBoundIsUnbound(s[1..], vars, b);
    }
  }

  /** Bindings whose values are inert to the placeholder of b. */
  predicate InertTo(vars: Vars, b: string) {
    forall n | n in vars :: Inert(vars[n], Placeholder(b))
  }

  /** Replacing one more variable in a partly substituted template substitutes that variable too. */
  lemma {:induction false} AbsorbInert(s: string, done: Vars, b: string, value: string)
    requires Flat(s) && b !in done && '{' !in b && '}' !in b && InertTo(done, b)
    ensures ReplaceAll(Simultaneous(s, done), Placeholder(b), value) == Simultaneous(s, done[b := value])
    decreases |s|
  {
    var p, more := Placeholder(b), done[b := value];
    if s == "" {
    } else if HoleAt(s) {
      FlatHole(s);
      var m, tail := HoleName(s), PastHole(s);
      AbsorbInert(tail, done, b, value);
      OverHole(m, tail, done);
      OverHole(m, tail, more);
      AbsorbHole(m, Simultaneous(tail, done), done, b, value);
    } else if s[0] == '{' {
      assert s[1..][..IndexOf(s[1..], '}')] == s[1..];
      UnclosedStays(s, done);
      UnclosedStays(s, more);
      UnclosedIsNot(s, b, value);
    } else {
      AbsorbInert(s[1..], done, b, value);
      ReplaceOverText([s[0]], Simultaneous(s[1..], done), b, value);
    }
  }

  lemma PlaceholderCloses(s: string, b: string)
    requires s != ""
    ensures Placeholder(b) <= s ==> '}' in s[1..]
  {
    if Placeholder(b) <= s {
      assert s[1..][|b|] == '}';
    }
  }

  lemma UnclosedIsNot(s: string, b: string, value: string)
    requires s != "" && s[0] == '{' && !HoleAt(s) && '{' !in s[1..]
    ensures ReplaceAll(s, Placeholder(b), value) == s
  {
    PlaceholderCloses(s, b);
    assert s[1..] == s[1..] + "";
    ReplaceOverText(s[1..], "", b, value);
  }

  /** One hole m in front of text t: its value, the new value, or the placeholder itself stays as it is. */
  lemma AbsorbHole(m: string, t: string, done: Vars, b: string, value: string)
    requires '{' !in m && '}' !in m && '{' !in b && '}' !in b && b !in done && InertTo(done, b)
    ensures var front := if m in done then done[m] else Placeholder(m);
      ReplaceAll(front + t, Placeholder(b), value) ==
        (if m == b then value else front) + ReplaceAll(t, Placeholder(b), value)
  {
    if m in done {
      ReplaceOverInert(done[m], t, Placeholder(b), value);
    } else if m == b {
      assert Placeholder(b) <= Placeholder(b) + t && (Placeholder(b) + t)[|Placeholder(b)|..] == t;
    } else {
      ReplaceOverHole(m, t, b, value);
    }
  }

  /** The order continues a substitution that is done for the variables outside todo. */
  lemma {:induction false} InertOrder(s: string, order: Bindings, todo: Vars, done: Vars)
    requires Flat(s) && Lists(order, todo) && todo.Keys !! done.Keys
    requires BraceFreeNames(todo) && BraceFreeNames(done) && NonInterfering(done + todo)
    ensures ReplaceInOrder(Simultaneous(s, done), order) == Simultaneous(s, done + todo)
    decreases |order|
  {
    if order == [] {
      NoEntries(todo);
      assert done + todo == done;
    } else {
      var (b, value) := order[0];
      ListsRest(order, todo);
      var rest, more := todo - {b}, done[b := value];
      assert more + rest == done + todo;
      InertStep(s, done, todo, b);
      InertOrder(s, order[1..], rest, more);
    }
  }

  lemma InertStep(s: string, done: Vars, todo: Vars, b: string)
    requires Flat(s) && b in todo && todo.Keys !! done.Keys
    requires BraceFreeNames(todo) && NonInterfering(done + todo)
    ensures ReplaceAll(Simultaneous(s, done), Placeholder(b), todo[b]) == Simultaneous(s, done[b := todo[b]])
  {
    var all := done + todo;
    assert b in all && all[b] == todo[b];
    if todo[b] == Placeholder(b) {
      ReplaceByItself(Simultaneous(s, done), Placeholder(b));
      SelfBoundIsUnbound(s, done[b := todo[b]], b);
      assert done[b := todo[b]] - {b} == done;
    } else {
      forall n | n in done ensures Inert(done[n], Placeholder(b)) {
        assert n in all && all[n] == done[n] && n != b;
      }
      AbsorbInert(s, done, b, todo[b]);
    }
  }

  lemma InertIsConfluent(vars: Vars)
    requires BraceFreeNames(vars) && NonInterfering(vars)
    ensures Confluent(vars)
  {
    forall s, o, q | Flat(s) && Lists(o, vars) && Lists(q, vars) ensures ReplaceInOrder(s, o) == ReplaceInOrder(s, q) {
      assert map[] + vars == vars;
      NothingToReplace(s);
      InertOrder(s, o, vars, map[]);
      InertOrder(s, q, vars, map[]);
    }
  }

  // the other direction: an interfering pair gives two results

  lemma {:induction false} SomeListing(vars: Vars) returns (order: Bindings)
    ensures Lists(order, vars)
    decreases |vars|
  {
    order := [];
    if vars != map[] {
      var n :| n in vars;
      order := SomeListing(vars - {n});
      order := ListsMore(order, vars, n);
    }
  }

  lemma ListsMore(order: Bindings, vars: Vars, n: string) returns (more: Bindings)
    requires n in vars && Lists(order, vars - {n})
    ensures more == order + [(n, vars[n])] && Lists(more, vars)
  {
    more := order + [(n, vars[n])];
    forall m | m in vars ensures Names(more, m) {
      if m == n {
        assert more[|order|].0 == n;
      } else {
        assert m in vars - {n} && Names(order, m);
        var i :| 0 <= i < |order| && order[i].0 == m;
        assert more[i].0 == m;
      }
    }
    assert forall i | 0 <= i < |order| :: order[i].0 in vars - {n};
  }

  lemma {:induction false} ReplaceInOrderConcat(s: string, a: Bindings, b: Bindings)
    ensures ReplaceInOrder(s, a + b) == ReplaceInOrder(ReplaceInOrder(s, a), b)
    decreases |a|
  {
    if a == [] {
      assert a + b == b;
    } else {
      assert (a + b)[1..] == a[1..] + b;
      ReplaceInOrderConcat(ReplaceAll(s, Placeholder(a[0].0), a[0].1), a[1..], b);
    }
  }

  /** Replacement by a longer text never shortens, by a shorter one never lengthens. */
  lemma {:induction false} ReplaceLength(s: string, p: string, value: string)
    requires p != ""
    ensures |p| <= |value| ==> |s| <= |ReplaceAll(s, p, value)|
    ensures |value| <= |p| ==> |ReplaceAll(s, p, value)| <= |s|
  {
    if s != "" {
      ReplaceLength(if p <= s then s[|p|..] else s[1..], p, value);
    }
  }

  /** Replacing a text that occurs by a different one changes the string. */
  lemma {:induction false} ReplaceChanges(s: string, p: string, value: string)
    requires p != "" && Contains(s, p) && value != p
    ensures ReplaceAll(s, p, value) != s
  {
    if p <= s {
      ReplaceLength(s[|p|..], p, value);
      assert |value| == |p| ==> (value + ReplaceAll(s[|p|..], p, value))[..|p|] == value;
      assert s[..|p|] == p;
    } else {
      ReplaceChanges(s[1..], p, value);
      assert ([s[0]] + ReplaceAll(s[1..], p, value))[1..] == ReplaceAll(s[1..], p, value);
    }
  }

  /** "{a}" followed by text without an opening brace. */
  lemma OneHoleTemplate(a: string, q: string, value: string)
    requires '{' !in a && '}' !in a && '{' !in q
    ensures Flat(Placeholder(a) + q)
    ensures ReplaceAll(Placeholder(a) + q, Placeholder(a), value) == value + q
    ensures forall c, v: string | c != a && '}' !in c ::
      ReplaceAll(Placeholder(a) + q, Placeholder(c), v) == Placeholder(a) + q
  {
    assert q + "" == q;
    OverText(q, "", map[]);
    OverHole(a, q, map[]);
    ReplaceOverText(q, "", a, value);
    assert Placeholder(a) <= Placeholder(a) + q && (Placeholder(a) + q)[|Placeholder(a)|..] == q;
    forall c, v: string | c != a && '}' !in c
      ensures ReplaceAll(Placeholder(a) + q, Placeholder(c), v) == Placeholder(a) + q {
      ReplaceOverHole(a, q, c, v);
      ReplaceOverText(q, "", c, v);
    }
  }

  lemma {:induction false} OthersLeaveTemplate(a: string, q: string, order: Bindings)
    requires '{' !in a && '}' !in a && '{' !in q
    requires forall i | 0 <= i < |order| :: order[i].0 != a && '}' !in order[i].0
    ensures ReplaceInOrder(Placeholder(a) + q, order) == Placeholder(a) + q
    decreases |order|
  {
    if order != [] {
      OneHoleTemplate(a, q, "");
      OthersLeaveTemplate(a, q, order[1..]);
    }
  }

  /** The value of a together with q holds the placeholder of b. */
  lemma InterferenceShows(vars: Vars, a: string, b: string, q: string)
    requires BraceFreeNames(vars) && a in vars && b in vars && a != b && vars[b] != Placeholder(b)
    requires '{' !in q && Contains(vars[a] + q, Placeholder(b))
    ensures !Confluent(vars)
  {
    var s := Placeholder(a) + q;
    var rest := SomeListing(vars - {a} - {b});
    var wa, wb := [(a, vars[a])], [(b, vars[b])];
    assert (vars - {a}) - {b} == (vars - {b}) - {a};
    var ra := ListsMore(rest, vars - {b}, a);
    var rb := ListsMore(rest, vars - {a}, b);
    var ab := ListsMore(ra, vars, b);
    var ba := ListsMore(rb, vars, a);
    OthersLeaveTemplate(a, q, rest);
    OneHoleTemplate(a, q, vars[a]);
    ReplaceInOrderConcat(s, rest, wa);
    ReplaceInOrderConcat(s, ra, wb);
    ReplaceInOrderConcat(s, rest, wb);
    ReplaceInOrderConcat(s, rb, wa);
    OneStep(s, (a, vars[a]));
    OneStep(s, (b, vars[b]));
    OneStep(vars[a] + q, (b, vars[b]));
    ReplaceChanges(vars[a] + q, Placeholder(b), vars[b]);
    assert ReplaceInOrder(s, ab) != ReplaceInOrder(s, ba);
  }

  lemma OneStep(s: string, b: (string, string))
    ensures ReplaceInOrder(s, [b]) == ReplaceAll(s, Placeholder(b.0), b.1)
  {
    assert [b][1..] == [];
  }

  lemma {:induction false} ContainsAfter(p: string, s: string, sub: string)
    requires sub <= s
    ensures Contains(p + s, sub)
  {
    if p == "" {
      assert p + s == s;
    } else {
      assert (p + s)[1..] == p[1..] + s;
      ContainsAfter(p[1..], s, sub);
    }
  }

  /** A value that is not inert completes the placeholder with what follows the hole. */
  lemma Completion(v: string, b: string) returns (q: string)
    requires '{' !in b && '}' !in b && !Inert(v, Placeholder(b))
    ensures '{' !in q && Contains(v + q, Placeholder(b))
  {
    var p := Placeholder(b);
    if Contains(v, p) {
      q := "";
      assert v + q == v;
    } else {
      var i :| 0 <= i < |v| && Begins(v[i..], p);
      q := p[|v| - i..];
      assert v[i..] + q == p && v + q == v[..i] + p;
      assert forall k | |v| - i <= k < |p| :: p[k] != '{';
      ContainsAfter(v[..i], p, p);
    }
  }

  /** The executor's result does not depend on map order, for every template without nested braces, exactly when no
      value contains, or ends in the beginning of, another variable's placeholder. */
  lemma ConfluentIff(vars: Vars)
    requires BraceFreeNames(vars)
    ensures Confluent(vars) <==> NonInterfering(vars)
  {
    if NonInterfering(vars) {
      InertIsConfluent(vars);
    } else {
      var a, b :| a in vars && b in vars && a != b && vars[b] != Placeholder(b) && !Inert(vars[a], Placeholder(b));
      var q := Completion(vars[a], b);
      InterferenceShows(vars, a, b, q);
    }
  }

  /** Under the same condition the common result is the simultaneous substitution. */
  lemma NonInterferingIsSimultaneous(s: string, order: Bindings, vars: Vars)
    requires BraceFreeNames(vars) && NonInterfering(vars) && Lists(order, vars) && Flat(s)
    ensures ReplaceInOrder(s, order) == Simultaneous(s, vars)
  {
    assert map[] + vars == vars;
    NothingToReplace(s);
    InertOrder(s, order, vars, map[]);
  }

  // ---- agreement with the schema mapper ----

  lemma {:induction false} MatchIsHole(s: string, args: Bindings, vars: Vars)
    requires s != "" && Lists(args, vars) && forall n | n in vars :: '}' !in n
    ensures FirstMatch(s, args).Some? <==> HoleAt(s) && HoleName(s) in vars
    ensures FirstMatch(s, args).Some? ==>
      FirstMatch(s, args).value == (HoleName(s), vars[HoleName(s)])
    decreases |args|
  {
    if args == [] {
      NoEntries(vars);
    } else {
      var (name, value) := args[0];
      PrefixIsHole(s, name);
      ListsRest(args, vars);
      MatchIsHole(s, args[1..], vars - {name});
    }
  }

  /** The mapper's Replacer is the simultaneous substitution, on every template. */
  lemma {:induction false} ReplacerIsSimultaneous(s: string, args: Bindings, vars: Vars)
    requires Lists(args, vars) && forall n | n in vars :: '}' !in n
    ensures Replacer(s, args) == Simultaneous(s, vars)
    decreases |s|
  {
    if s != "" {
      MatchIsHole(s, args, vars);
      if HoleAt(s) && HoleName(s) in vars {
        ReplacerIsSimultaneous(PastHole(s), args, vars);
      } else {
        ReplacerIsSimultaneous(s[1..], args, vars);
      }
    }
  }

  /** Executor and mapper agree on a common table, whatever order each uses. */
  lemma ExecutorAgreesWithMapper(s: string, order: Bindings, args: Bindings, vars: Vars)
    requires Lists(order, vars) && Lists(args, vars) && SafeTable(vars) && Flat(s)
    ensures ReplaceInOrder(s, order) == Replacer(s, args)
  {
    SubstitutionIsConfluent(s, order, vars);
    ReplacerIsSimultaneous(s, args, vars);
  }

  /** Executor and mapper agree, for all orders and all templates without nested braces. */
  ghost predicate Agree(vars: Vars) {
    forall s, order, args | Flat(s) && Lists(order, vars) && Lists(args, vars) ::
      ReplaceInOrder(s, order) == Replacer(s, args)
  }

  lemma AgreeingIsConfluent(vars: Vars)
    requires Agree(vars)
    ensures Confluent(vars)
  {
    forall s, o, q | Flat(s) && Lists(o, vars) && Lists(q, vars) ensures ReplaceInOrder(s, o) == ReplaceInOrder(s, q) {
      assert ReplaceInOrder(s, o) == Replacer(s, o) && ReplaceInOrder(s, q) == Replacer(s, o);
    }
  }

  /** They agree exactly on the tables whose values do not interfere. */
  lemma AgreeIff(vars: Vars)
    requires BraceFreeNames(vars)
    ensures Agree(vars) <==> NonInterfering(vars)
  {
    if NonInterfering(vars) {
      forall s, order, args | Flat(s) && Lists(order, vars) && Lists(args, vars)
        ensures ReplaceInOrder(s, order) == Replacer(s, args)
      {
        NonInterferingIsSimultaneous(s, order, vars);
        ReplacerIsSimultaneous(s, args, vars);
      }
    } else if Agree(vars) {
      AgreeingIsConfluent(vars);
      ConfluentIff(vars);
    }
  }

  // ---- what is left after a substitution ----

  /** Exactly the unbound placeholders survive. */
  lemma {:induction false} HolesLeft(s: string, vars: Vars)
    requires Flat(s) && SafeTable(vars)
    ensures Holes(Simultaneous(s, vars)) == Holes(s) - vars.Keys
    decreases |s|
  {
    if s == "" {
    } else if HoleAt(s) {
      FlatHole(s);
      var m, tail := HoleName(s), PastHole(s);
      HolesLeft(tail, vars);
      OverHole(m, tail, vars);
      if m in vars {
        OverText(vars[m], Simultaneous(tail, vars), vars);
      } else {
        OverHole(m, Simultaneous(tail, vars), vars);
      }
    } else if s[0] == '{' {
      assert s[1..][..IndexOf(s[1..], '}')] == s[1..];
      UnclosedStays(s, vars);
      assert s[1..] == s[1..] + "";
      OverText(s[1..], "", vars);
    } else {
      HolesLeft(s[1..], vars);
      OverText([s[0]], Simultaneous(s[1..], vars), vars);
    }
  }

  lemma NoHoleLeftIff(s: string, vars: Vars)
    requires Flat(s) && SafeTable(vars)
    ensures Holes(Simultaneous(s, vars)) == {} <==> Holes(s) <= vars.Keys
  {
    HolesLeft(s, vars);
    EmptyDifference(Holes(s), vars.Keys);
  }

  lemma EmptyDifference(a: set<string>, b: set<string>)
    ensures a - b == {} <==> a <= b
  {
    if a - b == {} {
      forall x | x in a ensures x in b { assert x !in a - b; }
    }
  }

  // ---- when a string passes through unchanged ----

  function Opens(s: string): nat {
    if s == "" then 0 else (if s[0] == '{' then 1 else 0) + Opens(s[1..])
  }

  lemma {:induction false} OpensConcat(s: string, t: string)
    ensures Opens(s + t) == Opens(s) + Opens(t)
  {
    if s == "" {
      assert s + t == t;
    } else {
      assert (s + t)[1..] == s[1..] + t;
      OpensConcat(s[1..], t);
    }
  }

  lemma {:induction false} NoOpens(s: string)
    requires '{' !in s
    ensures Opens(s) == 0
  {
    if s != "" { NoOpens(s[1..]); }
  }

  /** A replacement either finds no occurrence or lowers the number of open braces. */
  lemma {:induction false} ReplaceLowersOpens(s: string, name: string, value: string)
    requires '{' !in value
    ensures var r := ReplaceAll(s, Placeholder(name), value);
      if Contains(s, Placeholder(name)) then Opens(r) < Opens(s) else r == s
    decreases |s|
  {
    var ph := Placeholder(name);
    if s == "" {
    } else if ph <= s {
      var tail := s[|ph|..];
      ReplaceLowersOpens(tail, name, value);
      assert s == ph + tail;
      OpensConcat(ph, tail);
      OpensConcat(value, ReplaceAll(tail, ph, value));
      NoOpens(value);
    } else {
      ReplaceLowersOpens(s[1..], name, value);
      OpensConcat([s[0]], ReplaceAll(s[1..], ph, value));
    }
  }

  lemma {:induction false} OrderLowersOpens(s: string, order: Bindings)
    requires forall b | b in order :: '{' !in b.1
    ensures var r := ReplaceInOrder(s, order);
      if exists b :: b in order && Contains(s, Placeholder(b.0)) then Opens(r) < Opens(s) else r == s
    decreases |order|
  {
    if order != [] {
      var (name, value) := order[0];
      var t := ReplaceAll(s, Placeholder(name), value);
      ReplaceLowersOpens(s, name, value);
      OrderLowersOpens(t, order[1..]);
      assert forall b :: b in order <==> b == order[0] || b in order[1..];
    }
  }

  /** A string is delivered verbatim, in every order, exactly when it contains no
      placeholder of a bound variable. */
  lemma VerbatimIff(s: string, order: Bindings, vars: Vars)
    requires Lists(order, vars) && forall n | n in vars :: '{' !in vars[n]
    ensures ReplaceInOrder(s, order) == s <==> forall n | n in vars :: !Contains(s, Placeholder(n))
  {
    forall b | b in order ensures '{' !in b.1 {
      var i :| 0 <= i < |order| && order[i] == b;
    }
    OrderLowersOpens(s, order);
    if n :| n in vars && Contains(s, Placeholder(n)) {
      assert Names(order, n);
      var i :| 0 <= i < |order| && order[i].0 == n;
      assert order[i] in order;
    }
    if b :| b in order && Contains(s, Placeholder(b.0)) {
      var i :| 0 <= i < |order| && order[i] == b;
      assert b.0 in vars;
    }
  }
}
