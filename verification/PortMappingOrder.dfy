/** When the port forwarding rules read from a device depend on the order in which Go visits its parameters. */
module PortMappingOrder {
  import opened GoStrings
  import opened Ordering
  import opened PortMapping

  /** The rules that the parameters name. */
  function Numbers(params: Params, base: string): set<int> {
    set k | k in params && Tag(base, k).Some? :: Tag(base, k).value.0
  }

  /** The numbers that the final loop reaches. */
  predicate Reached(params: Params, base: string, i: int) {
    i in Numbers(params, base) && 1 <= i <= |Numbers(params, base)|
  }

  /** Two values that set a field to the same: "1" and "true" do, and so do "01" and "1" for a port. */
  predicate SameEffect(f: Field, v: string, u: string) {
    Put(BlankRule(0), f, v) == Put(BlankRule(0), f, u)
  }

  /** A parameter that sets field f of rule i. */
  predicate Sets(params: Params, base: string, i: int, f: Field, k: string) {
    k in params && Tag(base, k) == Some((i, f))
  }

  /** All parameters for one field of one listed rule have the same effect. */
  ghost predicate Unambiguous(params: Params, base: string) {
    forall i, f, k, q | Reached(params, base, i) && Sets(params, base, i, f, k) && Sets(params, base, i, f, q) ::
      SameEffect(f, params[k], params[q])
  }

  ghost predicate OneListing(params: Params, base: string) {
    forall o, q | Visits(o, params.Keys) && Visits(q, params.Keys) :: Parse(o, params, base) == Parse(q, params, base)
  }

  // ---- the rules of one order ----

  lemma ScanNumbers(order: seq<string>, params: Params, base: string)
    requires Visits(order, params.Keys)
    ensures Scan(order, params, base).Keys == Numbers(params, base)
    ensures |Scan(order, params, base)| == |Numbers(params, base)|
  {
    var rules := Scan(order, params, base);
    forall i ensures i in rules <==> i in Numbers(params, base) {
      ScanBuildsRules(order, params, base, i);
    }
    assert |rules| == |rules.Keys|;
  }

  lemma {:induction false} LatestIsSet(done: seq<string>, params: Params, base: string, i: int, f: Field)
    returns (k: string)
    requires (forall q | q in done :: q in params) && exists q | q in done :: Tag(base, q) == Some((i, f))
    ensures k in done && Sets(params, base, i, f, k) && Latest(done, params, base, i, f) == params[k]
  {
    var n := |done| - 1;
    assert done[n] in done;
    if Tag(base, done[n]) == Some((i, f)) {
      k := done[n];
    } else {
      k := LatestIsSet(done[..n], params, base, i, f);
    }
  }

  lemma {:induction false} UnsetIsEmpty(done: seq<string>, params: Params, base: string, i: int, f: Field)
    requires (forall q | q in done :: q in params) && !exists q | q in done :: Tag(base, q) == Some((i, f))
    ensures Latest(done, params, base, i, f) == ""
  {
    if done != [] {
      assert done[|done| - 1] in done;
      UnsetIsEmpty(done[..|done| - 1], params, base, i, f);
    }
  }

  lemma LatestAgrees(o: seq<string>, q: seq<string>, params: Params, base: string, i: int, f: Field)
    requires Visits(o, params.Keys) && Visits(q, params.Keys) && Unambiguous(params, base) && Reached(params, base, i)
    ensures SameEffect(f, Latest(o, params, base, i, f), Latest(q, params, base, i, f))
  {
    if exists k | k in o :: Tag(base, k) == Some((i, f)) {
      var k := LatestIsSet(o, params, base, i, f);
      assert k in q;
      var l := LatestIsSet(q, params, base, i, f);
    } else {
      UnsetIsEmpty(o, params, base, i, f);
      UnsetIsEmpty(q, params, base, i, f);
    }
  }

  function TextAt(t: Texts, f: Field): string {
    match f
    case Enabled => t.enabled
    case Protocol => t.protocol
    case ExternalPort => t.externalPort
    case InternalClient => t.internalClient
    case InternalPort => t.internalPort
    case Description => t.description
    case Ignored => ""
  }

  /** A rule shows exactly the effects of its texts. */
  lemma AssembleShows(i: int, t: Texts, u: Texts)
    ensures Assemble(i, t) == Assemble(i, u) <==> forall f: Field :: SameEffect(f, TextAt(t, f), TextAt(u, f))
  {
    if forall f: Field :: SameEffect(f, TextAt(t, f), TextAt(u, f)) {
      assert SameEffect(Enabled, TextAt(t, Enabled), TextAt(u, Enabled));
      assert SameEffect(Protocol, TextAt(t, Protocol), TextAt(u, Protocol));
      assert SameEffect(ExternalPort, TextAt(t, ExternalPort), TextAt(u, ExternalPort));
      assert SameEffect(InternalClient, TextAt(t, InternalClient), TextAt(u, InternalClient));
      assert SameEffect(InternalPort, TextAt(t, InternalPort), TextAt(u, InternalPort));
      assert SameEffect(Description, TextAt(t, Description), TextAt(u, Description));
    }
  }

  lemma TextAtLatest(done: seq<string>, params: Params, base: string, i: int, f: Field)
    requires forall q | q in done :: q in params
    ensures f != Ignored ==> TextAt(TextsOf(done, params, base, i), f) == Latest(done, params, base, i, f)
  {
  }

  lemma TextsAgree(o: seq<string>, q: seq<string>, params: Params, base: string, i: int)
    requires Visits(o, params.Keys) && Visits(q, params.Keys) && Unambiguous(params, base) && Reached(params, base, i)
    ensures Assemble(i, TextsOf(o, params, base, i)) == Assemble(i, TextsOf(q, params, base, i))
  {
    var t, u := TextsOf(o, params, base, i), TextsOf(q, params, base, i);
    forall f: Field ensures SameEffect(f, TextAt(t, f), TextAt(u, f)) {
      TextAtLatest(o, params, base, i, f);
      TextAtLatest(q, params, base, i, f);
      LatestAgrees(o, q, params, base, i, f);
    }
    AssembleShows(i, t, u);
  }

  lemma RuleAgrees(o: seq<string>, q: seq<string>, params: Params, base: string, i: int)
    requires Visits(o, params.Keys) && Visits(q, params.Keys) && Unambiguous(params, base) && Reached(params, base, i)
    ensures i in Scan(o, params, base) && i in Scan(q, params, base)
    ensures Scan(o, params, base)[i] == Scan(q, params, base)[i]
  {
    RuleOfNumber(o, params, base, i);
    RuleOfNumber(q, params, base, i);
    TextsAgree(o, q, params, base, i);
  }

  lemma {:induction false} SameListed(a: Rules, b: Rules, count: nat)
    requires forall i | 1 <= i <= count :: (i in a <==> i in b) && (i in a ==> a[i] == b[i])
    ensures Listed(a, count) == Listed(b, count)
  {
    if count > 0 { SameListed(a, b, count - 1); }
  }

  // ---- an ambiguity shows ----

  lemma {:induction false} ListedMembers(rules: Rules, count: nat, r: Rule)
    ensures r in Listed(rules, count) <==> exists i :: 1 <= i <= count && i in rules && rules[i] == r
  {
    if count > 0 { ListedMembers(rules, count - 1, r); }
  }

  lemma OrderEndingWith(params: Params, base: string, i: int, f: Field, k: string) returns (order: seq<string>)
    requires Sets(params, base, i, f, k)
    ensures Visits(order, params.Keys) && Latest(order, params, base, i, f) == params[k]
  {
    var init := SomeOrder(params.Keys - {k});
    order := init + [k];
  }

  lemma RuleOfNumber(order: seq<string>, params: Params, base: string, i: int)
    requires Visits(order, params.Keys) && i in Numbers(params, base)
    ensures i in Scan(order, params, base)
    ensures Scan(order, params, base)[i] == Assemble(i, TextsOf(order, params, base, i))
  {
    ScanNumbers(order, params, base);
    ScanBuildsRules(order, params, base, i);
  }

  lemma RulesNameThemselves(order: seq<string>, params: Params, base: string, j: int)
    requires Visits(order, params.Keys)
    ensures j in Scan(order, params, base) ==> Scan(order, params, base)[j].instance == j
  {
    ScanBuildsRules(order, params, base, j);
  }

  lemma DifferentRuleShows(o: seq<string>, q: seq<string>, params: Params, base: string, i: int)
    requires Visits(o, params.Keys) && Visits(q, params.Keys) && Reached(params, base, i)
    requires Assemble(i, TextsOf(o, params, base, i)) != Assemble(i, TextsOf(q, params, base, i))
    ensures Parse(o, params, base) != Parse(q, params, base)
  {
    var r, count := Assemble(i, TextsOf(o, params, base, i)), |Numbers(params, base)|;
    ScanNumbers(o, params, base);
    ScanNumbers(q, params, base);
    RuleOfNumber(o, params, base, i);
    RuleOfNumber(q, params, base, i);
    ListedMembers(Scan(o, params, base), count, r);
    ListedMembers(Scan(q, params, base), count, r);
    if j :| 1 <= j <= count && j in Scan(q, params, base) && Scan(q, params, base)[j] == r {
      RulesNameThemselves(q, params, base, j);
    }
  }

  lemma AmbiguityShows(params: Params, base: string, i: int, f: Field, k: string, l: string)
    requires Reached(params, base, i) && Sets(params, base, i, f, k) && Sets(params, base, i, f, l)
    requires !SameEffect(f, params[k], params[l])
    ensures !OneListing(params, base)
  {
    var o := OrderEndingWith(params, base, i, f, k);
    var q := OrderEndingWith(params, base, i, f, l);
    TextAtLatest(o, params, base, i, f);
    TextAtLatest(q, params, base, i, f);
    AssembleShows(i, TextsOf(o, params, base, i), TextsOf(q, params, base, i));
    DifferentRuleShows(o, q, params, base, i);
  }

  /** The rules read are the same for all visiting orders if and only if all parameters for one field of one listed rule
      have the same effect. */
  lemma OneListingIff(params: Params, base: string)
    ensures OneListing(params, base) <==> Unambiguous(params, base)
  {
    if Unambiguous(params, base) {
      forall o, q | Visits(o, params.Keys) && Visits(q, params.Keys)
        ensures Parse(o, params, base) == Parse(q, params, base) {
        ListingAgrees(o, q, params, base);
      }
    } else {
      var i, f, k, l :| Reached(params, base, i) && Sets(params, base, i, f, k) && Sets(params, base, i, f, l)
        && !SameEffect(f, params[k], params[l]);
      AmbiguityShows(params, base, i, f, k, l);
    }
  }

  lemma ListingAgrees(o: seq<string>, q: seq<string>, params: Params, base: string)
    requires Visits(o, params.Keys) && Visits(q, params.Keys) && Unambiguous(params, base)
    ensures Parse(o, params, base) == Parse(q, params, base)
  {
    var a, b := Scan(o, params, base), Scan(q, params, base);
    ScanNumbers(o, params, base);
    ScanNumbers(q, params, base);
    forall i | 1 <= i <= |a| ensures (i in a <==> i in b) && (i in a ==> a[i] == b[i]) {
      if i in a { RuleAgrees(o, q, params, base, i); }
    }
    SameListed(a, b, |a|);
  }
}
