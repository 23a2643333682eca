/** Choosing among the PPP connections of a TR-098 device. */
module Tr098PppChoice {
  import opened GoStrings
  import opened Ordering

  /** A WANPPPConnection parameter: its instance numbers and the rest of its name. */
  datatype Key = Key(dev: nat, conn: nat, ppp: nat, leaf: string)

  type Params = map<Key, string>

  datatype Candidate = Candidate(dev: nat, conn: nat, ppp: nat, hasIp: bool, pubIp: bool)

  type Candidates = map<(nat, nat), Candidate>

  predicate IsAddress(k: Key) {
    HasSuffix("." + k.leaf, ".ExternalIPAddress")
  }

  /** Addresses go by the name ExternalIPAddress, at the end of whatever follows the connection. */
  lemma AddressByName(k: Key)
    ensures IsAddress(k) <==> Named(k.leaf, "ExternalIPAddress")
  {
    var dotted, tail := "." + k.leaf, "." + "ExternalIPAddress";
    assert tail == ".ExternalIPAddress";
    if HasSuffix(dotted, tail) {
      assert |k.leaf| >= |"ExternalIPAddress"|;
      if |k.leaf| == |"ExternalIPAddress"| {
        assert dotted == tail && k.leaf == dotted[1..];
      } else {
        assert k.leaf[|k.leaf| - |tail|..] == dotted[|dotted| - |tail|..];
      }
    }
    if k.leaf == "ExternalIPAddress" {
      assert dotted == tail && dotted[0..] == tail;
    } else if HasSuffix(k.leaf, tail) {
      assert dotted[|dotted| - |tail|..] == k.leaf[|k.leaf| - |tail|..];
    }
  }

  /** The body of the collecting loop. The first parameter of a connection fixes its PPP instance,
      the last address visited decides whether it counts as public. */
  function Collect(cs: Candidates, k: Key, v: string, isPublic: string -> bool): Candidates {
    var at := (k.dev, k.conn);
    var c := if at in cs then cs[at] else Candidate(k.dev, k.conn, k.ppp, false, false);
    cs[at := if IsAddress(k) && v != "" then c.(hasIp := true, pubIp := isPublic(v)) else c]
  }

  /** The collecting loop over parameters visited in the given order. */
  function CollectAll(order: seq<Key>, params: Params, isPublic: string -> bool): Candidates
    requires forall k | k in order :: k in params
  {
    if order == [] then map[] else
      var k := order[|order| - 1];
      Collect(CollectAll(order[..|order| - 1], params, isPublic), k, params[k], isPublic)
  }

  /** An address reported for the connection of k. */
  predicate Reports(params: Params, done: set<Key>, dev: nat, conn: nat, k: Key) {
    k in done && k in params && k.dev == dev && k.conn == conn && IsAddress(k) && params[k] != ""
  }

  predicate On(k: Key, dev: nat, conn: nat, ppp: nat) {
    k.dev == dev && k.conn == conn && k.ppp == ppp
  }

  /** c describes its connection as far as the visited parameters go. */
  ghost predicate Describes(c: Candidate, params: Params, done: set<Key>, isPublic: string -> bool) {
    && (exists k | k in done :: On(k, c.dev, c.conn, c.ppp))
    && (c.hasIp <==> exists k :: Reports(params, done, c.dev, c.conn, k))
    && (c.hasIp ==> exists k :: Reports(params, done, c.dev, c.conn, k) && c.pubIp == isPublic(params[k]))
    && (c.pubIp ==> c.hasIp)
  }

  ghost predicate CandidatesOf(cs: Candidates, params: Params, done: set<Key>, isPublic: string -> bool) {
    && (forall k | k in done :: (k.dev, k.conn) in cs)
    && (forall at | at in cs :: (cs[at].dev, cs[at].conn) == at && Describes(cs[at], params, done, isPublic))
  }

  // ---- the preference ----

  /** Public address over any address over none, then the lower connection index. */
  predicate Better(c: Candidate, d: Candidate) {
    if c.pubIp != d.pubIp then c.pubIp
    else if c.hasIp != d.hasIp then c.hasIp
    else c.conn < d.conn
  }

  ghost predicate Best(c: Candidate, cs: Candidates) {
    (exists at | at in cs :: cs[at] == c) && forall at | at in cs :: !Better(cs[at], c)
  }

  /** Only connections with the same index below different WAN devices can tie, so with one WAN device
      the choice does not depend on the visiting order. */
  lemma TiesDifferInDevice(c: Candidate, d: Candidate, cs: Candidates, params: Params, isPublic: string -> bool)
    requires CandidatesOf(cs, params, params.Keys, isPublic) && Best(c, cs) && Best(d, cs)
    ensures c.conn == d.conn && c.pubIp == d.pubIp && c.hasIp == d.hasIp
    ensures c == d <==> c.dev == d.dev
  {
    var at :| at in cs && cs[at] == c;
    var bt :| bt in cs && cs[bt] == d;
  }

  // ---- when the choice is determined ----

  function Keys(order: seq<Key>): set<Key> {
    set k | k in order
  }

  lemma {:induction false} CollectAllDescribes(order: seq<Key>, params: Params, isPublic: string -> bool)
    requires forall k | k in order :: k in params
    ensures CandidatesOf(CollectAll(order, params, isPublic), params, Keys(order), isPublic)
  {
    if order != [] {
      var init, k := order[..|order| - 1], order[|order| - 1];
      assert order == init + [k];
      CollectAllDescribes(init, params, isPublic);
      CollectKeeps(CollectAll(init, params, isPublic), params, Keys(init), k, isPublic);
      assert Keys(order) == Keys(init) + {k};
    }
  }

  /** The parameter visited first fixes the PPP instance of its connection. */
  lemma {:induction false} FirstDecides(k: Key, rest: seq<Key>, params: Params, isPublic: string -> bool)
    requires k in params && forall q | q in rest :: q in params
    ensures var cs := CollectAll([k] + rest, params, isPublic);
      (k.dev, k.conn) in cs && cs[(k.dev, k.conn)].ppp == k.ppp
  {
    var order := [k] + rest;
    if rest == [] {
      assert order[..|order| - 1] == [];
    } else {
      assert order[..|order| - 1] == [k] + rest[..|rest| - 1];
      FirstDecides(k, rest[..|rest| - 1], params, isPublic);
    }
  }

  /** The public flag is that of an address among the late parameters. */
  ghost predicate LatePublic(cs: Candidates, dev: nat, conn: nat, late: seq<Key>, params: Params,
                             isPublic: string -> bool) {
    && (dev, conn) in cs
    && exists r :: Reports(params, Keys(late), dev, conn, r) && cs[(dev, conn)].pubIp == isPublic(params[r])
  }

  lemma LateNow(cs: Candidates, dev: nat, conn: nat, late: seq<Key>, params: Params, isPublic: string -> bool, k: Key)
    requires k in params && Reports(params, {k}, dev, conn, k)
    ensures LatePublic(Collect(cs, k, params[k], isPublic), dev, conn, late + [k], params, isPublic)
  {
    assert Reports(params, Keys(late + [k]), dev, conn, k);
  }

  lemma LateKept(cs: Candidates, dev: nat, conn: nat, late: seq<Key>, params: Params, isPublic: string -> bool, k: Key)
    requires k in params && LatePublic(cs, dev, conn, late, params, isPublic)
    ensures LatePublic(Collect(cs, k, params[k], isPublic), dev, conn, late + [k], params, isPublic)
  {
    if Reports(params, {k}, dev, conn, k) {
      LateNow(cs, dev, conn, late, params, isPublic, k);
    } else {
      var r :| Reports(params, Keys(late), dev, conn, r) && cs[(dev, conn)].pubIp == isPublic(params[r]);
      assert Reports(params, Keys(late + [k]), dev, conn, r);
    }
  }

  /** An address among the late parameters decides whether its connection counts as public. */
  lemma {:induction false} LateDecides(early: seq<Key>, late: seq<Key>, params: Params, isPublic: string -> bool,
                                       q: Key)
    requires forall k | k in early + late :: k in params
    requires Reports(params, Keys(late), q.dev, q.conn, q)
    ensures LatePublic(CollectAll(early + late, params, isPublic), q.dev, q.conn, late, params, isPublic)
  {
    var init, k := late[..|late| - 1], late[|late| - 1];
    assert late == init + [k] && (early + late)[..|early + late| - 1] == early + init;
    var cs := CollectAll(early + init, params, isPublic);
    assert k in early + late;
    if k == q {
      LateNow(cs, q.dev, q.conn, init, params, isPublic, k);
    } else {
      assert q in Keys(init);
      LateDecides(early, init, params, isPublic, q);
      LateKept(cs, q.dev, q.conn, init, params, isPublic, k);
    }
  }

  lemma {:induction false} SomeBest(cs: Candidates, among: set<(nat, nat)>) returns (c: Candidate)
    requires among <= cs.Keys && among != {}
    ensures (exists at | at in among :: cs[at] == c) && forall at | at in among :: !Better(cs[at], c)
  {
    var at :| at in among;
    c := cs[at];
    if among != {at} {
      var d := SomeBest(cs, among - {at});
      if Better(d, c) {
        c := d;
      }
    }
  }

  function Conns(params: Params): set<(nat, nat)> {
    set k | k in params :: (k.dev, k.conn)
  }

  ghost predicate HasAddress(params: Params, at: (nat, nat)) {
    exists k :: Reports(params, params.Keys, at.0, at.1, k)
  }

  ghost predicate SomeAddress(params: Params, at: (nat, nat), isPublic: string -> bool, pub: bool) {
    exists k :: Reports(params, params.Keys, at.0, at.1, k) && isPublic(params[k]) == pub
  }

  /** The least favourable candidate of a connection, and the most favourable one. */
  ghost function AtWorst(params: Params, at: (nat, nat), isPublic: string -> bool): Candidate {
    Candidate(at.0, at.1, 0, HasAddress(params, at), HasAddress(params, at)
      && !SomeAddress(params, at, isPublic, false))
  }

  ghost function AtBest(params: Params, at: (nat, nat), isPublic: string -> bool): Candidate {
    Candidate(at.0, at.1, 0, HasAddress(params, at), SomeAddress(params, at, isPublic, true))
  }

  predicate OnePpp(params: Params, at: (nat, nat)) {
    forall k, q | k in params && q in params && (k.dev, k.conn) == at && (q.dev, q.conn) == at :: k.ppp == q.ppp
  }

  /** One connection has a single PPP instance and is preferred to every other even if its least favourable
      address is visited last and the most favourable one of the other. */
  ghost predicate Decided(params: Params, isPublic: string -> bool, w: (nat, nat)) {
    && w in Conns(params) && OnePpp(params, w)
    && forall at | at in Conns(params) && at != w :: Better(AtWorst(params, w, isPublic), AtBest(params, at, isPublic))
  }

  /** c may be chosen after visiting the parameters in this order. */
  ghost predicate Chosen(c: Candidate, order: seq<Key>, params: Params, isPublic: string -> bool) {
    Visits(order, params.Keys) && Best(c, CollectAll(order, params, isPublic))
  }

  predicate SamePlace(c: Candidate, d: Candidate) {
    c.dev == d.dev && c.conn == d.conn && c.ppp == d.ppp
  }

  /** All orders choose the same instance numbers. */
  ghost predicate OneChoice(params: Params, isPublic: string -> bool) {
    forall a, b, c, d | Chosen(c, a, params, isPublic) && Chosen(d, b, params, isPublic) :: SamePlace(c, d)
  }

  lemma VisitedAll(order: seq<Key>, params: Params, isPublic: string -> bool)
    requires Visits(order, params.Keys)
    ensures CandidatesOf(CollectAll(order, params, isPublic), params, params.Keys, isPublic)
    ensures CollectAll(order, params, isPublic).Keys == Conns(params)
  {
    CollectAllDescribes(order, params, isPublic);
    assert Keys(order) == params.Keys;
    var cs := CollectAll(order, params, isPublic);
    forall at | at in cs ensures at in Conns(params) {
      var k :| k in params && On(k, cs[at].dev, cs[at].conn, cs[at].ppp);
    }
  }

  lemma NoneCollectedIff(order: seq<Key>, params: Params, isPublic: string -> bool)
    requires Visits(order, params.Keys)
    ensures CollectAll(order, params, isPublic) == map[] <==> params == map[]
  {
    VisitedAll(order, params, isPublic);
    assert forall k | k in params :: (k.dev, k.conn) in Conns(params);
  }

  lemma Between(c: Candidate, params: Params, isPublic: string -> bool)
    requires Describes(c, params, params.Keys, isPublic)
    ensures c.hasIp == HasAddress(params, (c.dev, c.conn))
    ensures AtWorst(params, (c.dev, c.conn), isPublic).pubIp ==> c.pubIp
    ensures c.pubIp ==> AtBest(params, (c.dev, c.conn), isPublic).pubIp
  {
    if c.hasIp {
      var k :| Reports(params, params.Keys, c.dev, c.conn, k) && c.pubIp == isPublic(params[k]);
    }
  }

  lemma DecidedIsChosen(params: Params, isPublic: string -> bool, w: (nat, nat), order: seq<Key>, c: Candidate)
    requires Decided(params, isPublic, w) && Chosen(c, order, params, isPublic)
    ensures (c.dev, c.conn) == w && forall k | k in params && (k.dev, k.conn) == w :: c.ppp == k.ppp
  {
    VisitedAll(order, params, isPublic);
    var cs := CollectAll(order, params, isPublic);
    var at :| at in cs && cs[at] == c;
    Between(cs[w], params, isPublic);
    Between(c, params, isPublic);
    if at != w {
      assert Better(AtWorst(params, w, isPublic), AtBest(params, at, isPublic));
      assert Better(cs[w], c);
    }
    var k :| k in params && On(k, c.dev, c.conn, c.ppp);
  }

  /** Some order visits a given parameter first. */
  lemma VisitFirst(params: Params, isPublic: string -> bool, k: Key) returns (order: seq<Key>, c: Candidate)
    requires k in params
    ensures Chosen(c, order, params, isPublic)
    ensures (c.dev, c.conn) == (k.dev, k.conn) ==> c.ppp == k.ppp
  {
    var rest := SomeOrder(params.Keys - {k});
    order := [k] + rest;
    Joined({k}, params.Keys - {k}, [k], rest);
    assert {k} + (params.Keys - {k}) == params.Keys;
    FirstDecides(k, rest, params, isPublic);
    VisitedAll(order, params, isPublic);
    c := SomeChoice(order, params, isPublic);
  }

  lemma SomeChoice(order: seq<Key>, params: Params, isPublic: string -> bool) returns (c: Candidate)
    requires Visits(order, params.Keys) && Conns(params) != {}
    ensures Chosen(c, order, params, isPublic)
  {
    VisitedAll(order, params, isPublic);
    c := SomeBest(CollectAll(order, params, isPublic), Conns(params));
  }

  lemma Joined(a: set<Key>, b: set<Key>, s: seq<Key>, t: seq<Key>)
    requires a !! b && Visits(s, a) && Visits(t, b)
    ensures Visits(s + t, a + b)
  {
    assert forall i | 0 <= i < |s| :: s[i] in a;
    assert forall i | 0 <= i < |t| :: t[i] in b;
  }

  predicate IsLate(k: Key, params: Params, isPublic: string -> bool, w: (nat, nat)) {
    k in params && IsAddress(k) && params[k] != "" && isPublic(params[k]) != ((k.dev, k.conn) == w)
  }

  ghost predicate Against(cs: Candidates, params: Params, isPublic: string -> bool, w: (nat, nat)) {
    forall at | at in cs ::
      cs[at].pubIp == (if at == w then AtWorst(params, at, isPublic) else AtBest(params, at, isPublic)).pubIp
  }

  /** Some order is least favourable to w and most favourable to all others. */
  lemma VisitAgainst(params: Params, isPublic: string -> bool, w: (nat, nat)) returns (order: seq<Key>)
    ensures Visits(order, params.Keys)
    ensures Against(CollectAll(order, params, isPublic), params, isPublic, w)
  {
    var lateKeys := set k | k in params && IsLate(k, params, isPublic, w);
    var early := SomeOrder(params.Keys - lateKeys);
    var late := SomeOrder(lateKeys);
    order := early + late;
    Joined(params.Keys - lateKeys, lateKeys, early, late);
    assert (params.Keys - lateKeys) + lateKeys == params.Keys;
    VisitedAll(order, params, isPublic);
    var cs := CollectAll(order, params, isPublic);
    forall at | at in cs
      ensures cs[at].pubIp == (if at == w then AtWorst(params, at, isPublic) else AtBest(params, at, isPublic)).pubIp
    {
      AgainstAt(params, isPublic, w, early, late, at);
    }
  }

  lemma AgainstAt(params: Params, isPublic: string -> bool, w: (nat, nat), early: seq<Key>, late: seq<Key>,
                  at: (nat, nat))
    requires Visits(early + late, params.Keys) && forall k :: k in late <==> IsLate(k, params, isPublic, w)
    requires at in CollectAll(early + late, params, isPublic)
    ensures CollectAll(early + late, params, isPublic)[at].pubIp ==
            (if at == w then AtWorst(params, at, isPublic) else AtBest(params, at, isPublic)).pubIp
  {
    VisitedAll(early + late, params, isPublic);
    var c := CollectAll(early + late, params, isPublic)[at];
    Between(c, params, isPublic);
    if SomeAddress(params, at, isPublic, at != w) {
      var q :| Reports(params, params.Keys, at.0, at.1, q) && isPublic(params[q]) == (at != w);
      assert q in Keys(late);
      LateDecides(early, late, params, isPublic, q);
      var r :| Reports(params, Keys(late), at.0, at.1, r) && c.pubIp == isPublic(params[r]);
      assert r in late;
    }
  }

  lemma BestOfTie(c: Candidate, d: Candidate, cs: Candidates, at: (nat, nat))
    requires Best(c, cs) && at in cs && cs[at] == d
    ensures Better(c, d) || Best(d, cs)
  {
    assert !Better(d, c);
  }

  /** If all orders choose one place, that connection is decided. */
  lemma ChoiceIsDecided(params: Params, isPublic: string -> bool) returns (w: (nat, nat))
    requires OneChoice(params, isPublic) && params != map[]
    ensures Decided(params, isPublic, w)
  {
    var some :| some in params;
    var first, c := VisitFirst(params, isPublic, some);
    w := (c.dev, c.conn);
    forall k | k in params && (k.dev, k.conn) == w ensures k.ppp == c.ppp {
      var order, d := VisitFirst(params, isPublic, k);
    }
    var order := VisitAgainst(params, isPublic, w);
    BeatsAll(params, isPublic, c, first, order);
  }

  lemma BeatsAll(params: Params, isPublic: string -> bool, c: Candidate, first: seq<Key>, order: seq<Key>)
    requires OneChoice(params, isPublic) && Chosen(c, first, params, isPublic) && Visits(order, params.Keys)
    requires Against(CollectAll(order, params, isPublic), params, isPublic, (c.dev, c.conn))
    ensures (c.dev, c.conn) in Conns(params)
    ensures forall at | at in Conns(params) && at != (c.dev, c.conn) ::
              Better(AtWorst(params, (c.dev, c.conn), isPublic), AtBest(params, at, isPublic))
  {
    ChosenIsThere(c, first, params, isPublic);
    var best := SomeChoice(order, params, isPublic);
    assert SamePlace(best, c);
    forall at | at in Conns(params) && at != (c.dev, c.conn)
      ensures Better(AtWorst(params, (c.dev, c.conn), isPublic), AtBest(params, at, isPublic))
    {
      BeatsOne(params, isPublic, order, best, at);
    }
  }

  lemma ChosenIsThere(c: Candidate, order: seq<Key>, params: Params, isPublic: string -> bool)
    requires Chosen(c, order, params, isPublic)
    ensures (c.dev, c.conn) in Conns(params) && (c.dev, c.conn) in CollectAll(order, params, isPublic)
    ensures CollectAll(order, params, isPublic)[(c.dev, c.conn)] == c
  {
    VisitedAll(order, params, isPublic);
  }

  lemma BeatsOne(params: Params, isPublic: string -> bool, order: seq<Key>, best: Candidate, at: (nat, nat))
    requires OneChoice(params, isPublic) && Chosen(best, order, params, isPublic)
    requires Against(CollectAll(order, params, isPublic), params, isPublic, (best.dev, best.conn))
    requires at in Conns(params) && at != (best.dev, best.conn)
    ensures Better(AtWorst(params, (best.dev, best.conn), isPublic), AtBest(params, at, isPublic))
  {
    ChosenIsThere(best, order, params, isPublic);
    VisitedAll(order, params, isPublic);
    var d := CollectAll(order, params, isPublic)[at];
    Beats(params, isPublic, order, best, d);
    Between(best, params, isPublic);
    Between(d, params, isPublic);
  }

  lemma Beats(params: Params, isPublic: string -> bool, order: seq<Key>, best: Candidate, d: Candidate)
    requires OneChoice(params, isPublic) && Chosen(best, order, params, isPublic)
    requires (d.dev, d.conn) in CollectAll(order, params, isPublic) && (d.dev, d.conn) != (best.dev, best.conn)
    requires CollectAll(order, params, isPublic)[(d.dev, d.conn)] == d
    ensures Better(best, d)
  {
    BestOfTie(best, d, CollectAll(order, params, isPublic), (d.dev, d.conn));
    assert Chosen(d, order, params, isPublic) ==> SamePlace(best, d);
  }

  /** The chosen PPP connection does not depend on the order in which the map is visited if and only if some
      connection with a single PPP instance is preferred to all others whichever addresses come last. */
  lemma OneChoiceIff(params: Params, isPublic: string -> bool)
    ensures OneChoice(params, isPublic) <==> params == map[] || exists w :: Decided(params, isPublic, w)
  {
    if w :| Decided(params, isPublic, w) {
      forall a, b, c, d | Chosen(c, a, params, isPublic) && Chosen(d, b, params, isPublic) ensures SamePlace(c, d) {
        DecidedIsChosen(params, isPublic, w, a, c);
        DecidedIsChosen(params, isPublic, w, b, d);
        var k :| k in params && (k.dev, k.conn) == w;
      }
    } else if params != map[] && OneChoice(params, isPublic) {
      var w := ChoiceIsDecided(params, isPublic);
    } else if params == map[] {
      forall a, c | Chosen(c, a, params, isPublic) ensures false {
        VisitedAll(a, params, isPublic);
      }
    }
  }

  lemma NoneDecided(params: Params, isPublic: string -> bool)
    requires params != map[] && forall w | w in Conns(params) :: !Decided(params, isPublic, w)
    ensures !OneChoice(params, isPublic)
  {
    OneChoiceIff(params, isPublic);
  }

  /** Undecided: two PPP instances on one connection. */
  lemma TwoInstancesAreUndecided(isPublic: string -> bool, x: string, y: string)
    ensures !OneChoice(map[Key(1, 1, 1, "ExternalIPAddress") := x, Key(1, 1, 2, "ExternalIPAddress") := y], isPublic)
  {
    var k, q := Key(1, 1, 1, "ExternalIPAddress"), Key(1, 1, 2, "ExternalIPAddress");
    var params: Params := map[k := x, q := y];
    assert k in params && q in params;
    assert !OnePpp(params, (1, 1));
    assert forall w | w in Conns(params) :: w == (1, 1);
    NoneDecided(params, isPublic);
  }

  /** Undecided: one connection index below two WAN devices. */
  lemma EqualIndicesAreUndecided(isPublic: string -> bool, x: string, y: string)
    ensures !OneChoice(map[Key(1, 1, 1, "Enable") := x, Key(2, 1, 1, "Enable") := y], isPublic)
  {
    var k, q := Key(1, 1, 1, "Enable"), Key(2, 1, 1, "Enable");
    var params: Params := map[k := x, q := y];
    assert k in params && q in params;
    assert (k.dev, k.conn) in Conns(params) && (q.dev, q.conn) in Conns(params);
    assert !IsAddress(k) && !IsAddress(q);
    forall w | w in Conns(params) ensures !Decided(params, isPublic, w) {
      var at := if w == (1, 1) then (2, 1) else (1, 1);
      assert !Better(AtWorst(params, w, isPublic), AtBest(params, at, isPublic));
    }
    NoneDecided(params, isPublic);
  }

  // ---- the code ----

  lemma CollectKeeps(cs: Candidates, params: Params, done: set<Key>, k: Key, isPublic: string -> bool)
    requires CandidatesOf(cs, params, done, isPublic) && k in params
    ensures CandidatesOf(Collect(cs, k, params[k], isPublic), params, done + {k}, isPublic)
  {
    var at, now, next := (k.dev, k.conn), done + {k}, Collect(cs, k, params[k], isPublic);
    forall bt | bt in next ensures (next[bt].dev, next[bt].conn) == bt && Describes(next[bt], params, now, isPublic) {
      if bt != at {
        DescribesElsewhere(cs[bt], params, done, k, isPublic);
      } else if at in cs {
        DescribesNext(cs[at], params, done, k, isPublic);
      } else {
        DescribesFirst(cs, params, done, k, isPublic);
      }
    }
  }

  lemma DescribesElsewhere(c: Candidate, params: Params, done: set<Key>, k: Key, isPublic: string -> bool)
    requires Describes(c, params, done, isPublic) && (c.dev, c.conn) != (k.dev, k.conn)
    ensures Describes(c, params, done + {k}, isPublic)
  {
    assert forall q :: Reports(params, done + {k}, c.dev, c.conn, q) <==> Reports(params, done, c.dev, c.conn, q);
    var q :| q in done && On(q, c.dev, c.conn, c.ppp);
    assert q in done + {k};
  }

  lemma DescribesNext(c: Candidate, params: Params, done: set<Key>, k: Key, isPublic: string -> bool)
    requires Describes(c, params, done, isPublic) && (c.dev, c.conn) == (k.dev, k.conn) && k in params
    ensures Describes(if IsAddress(k) && params[k] != "" then c.(hasIp := true, pubIp := isPublic(params[k])) else c,
                      params, done + {k}, isPublic)
  {
    assert forall q :: Reports(params, done + {k}, c.dev, c.conn, q) <==>
      Reports(params, done, c.dev, c.conn, q) || (q == k && IsAddress(k) && params[k] != "");
    var q :| q in done && On(q, c.dev, c.conn, c.ppp);
    assert q in done + {k};
    if IsAddress(k) && params[k] != "" {
      assert Reports(params, done + {k}, c.dev, c.conn, k);
    } else if c.hasIp {
      var r :| Reports(params, done, c.dev, c.conn, r) && c.pubIp == isPublic(params[r]);
      assert Reports(params, done + {k}, c.dev, c.conn, r);
    }
  }

  lemma DescribesFirst(cs: Candidates, params: Params, done: set<Key>, k: Key, isPublic: string -> bool)
    requires CandidatesOf(cs, params, done, isPublic) && (k.dev, k.conn) !in cs && k in params
    ensures var c := Candidate(k.dev, k.conn, k.ppp, false, false);
      Describes(if IsAddress(k) && params[k] != "" then c.(hasIp := true, pubIp := isPublic(params[k])) else c,
                params, done + {k}, isPublic)
  {
    assert k in done + {k} && On(k, k.dev, k.conn, k.ppp);
    assert forall q | q in done :: (q.dev, q.conn) in cs;
    assert forall q :: Reports(params, done + {k}, k.dev, k.conn, q) <==> q == k && IsAddress(k) && params[k] != "";
    assert IsAddress(k) && params[k] != "" ==> Reports(params, done + {k}, k.dev, k.conn, k);
  }

  method CollectCandidates(params: Params, isPublic: string -> bool) returns (cs: Candidates, ghost order: seq<Key>)
    ensures Visits(order, params.Keys) && cs == CollectAll(order, params, isPublic)
  {
    cs, order := map[], [];
    var todo := params.Keys;
    while todo != {}
      invariant todo <= params.Keys && Visits(order, params.Keys - todo)
      invariant cs == CollectAll(order, params, isPublic)
      decreases |todo|
    {
      var k :| k in todo;
      assert (order + [k])[..|order|] == order;
      cs := Collect(cs, k, params[k], isPublic);
      order, todo := order + [k], todo - {k};
    }
    assert params.Keys - todo == params.Keys;
  }

  /** The second pass: one comparison per candidate, in any order. */
  method PickBest(cs: Candidates) returns (best: Option<Candidate>)
    ensures best.None? <==> cs == map[]
    ensures best.Some? ==> Best(best.value, cs)
  {
    best := None;
    var todo := cs.Keys;
    while todo != {}
      invariant todo <= cs.Keys
      invariant best.None? ==> todo == cs.Keys
      invariant best.Some? ==> exists at | at in cs :: cs[at] == best.value
      invariant best.Some? ==> forall at | at in cs && at !in todo :: !Better(cs[at], best.value)
      decreases |todo|
    {
      var at :| at in todo;
      todo := todo - {at};
      var c := cs[at];
      if best.None? {
        best := Some(c);
        continue;
      }
      if c.pubIp && !best.value.pubIp {
        best := Some(c);
        continue;
      }
      if !c.pubIp && best.value.pubIp {
        continue;
      }
      if c.hasIp && !best.value.hasIp {
        best := Some(c);
        continue;
      }
      if !c.hasIp && best.value.hasIp {
        continue;
      }
      if c.conn < best.value.conn {
        best := Some(c);
      }
    }
  }

  /** The VLAN the chosen connection carries under the driver's parameter name, when it is a number other than "0". */
  function DeclaredVlan(params: Params, best: Candidate, vlanLeaf: Option<string>): Option<int> {
    if vlanLeaf.None? then None else
      var k := Key(best.dev, best.conn, best.ppp, vlanLeaf.value);
      if k in params && params[k] != "0" then Atoi(params[k]) else None
  }

  /** A declared "0" is no VLAN, and neither is a text that is no number. */
  lemma DeclaredVlanMeans(params: Params, best: Candidate, leaf: string, v: int)
    ensures var k := Key(best.dev, best.conn, best.ppp, leaf);
      DeclaredVlan(params, best, Some(leaf)) == Some(v) <==>
        k in params && params[k] != "0" && Atoi(params[k]) == Some(v)
    ensures DeclaredVlan(params, best, None) == None
  {
  }
}
