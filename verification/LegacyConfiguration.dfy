/** What the built-in PPPoE flow leaves on a device: the objects it creates, and every parameter it sends, with the
    numbers that the device gave to those objects. */
module LegacyConfiguration {
  import opened GoStrings
  import opened Templates
  import opened Provisioning
  import opened LegacyWanFlow

  // ---- runs ----

  /** The answers of a device to all steps; those to AddObject are instance numbers. */
  predicate Answers(flow: Flow, texts: seq<string>) {
    |texts| == |flow| && forall i | 0 <= i < |texts| :: Plain(texts[i])
  }

  predicate Creates(flow: Flow, i: nat, path: string) {
    i < |flow| && flow[i].kind == AddObject && flow[i].path == path
  }

  /** Whatever the visiting order, the request of step i gives the parameter key the value. */
  ghost predicate Sends(e0: Exec, texts: seq<string>, i: nat, key: string, value: string) {
    i < |texts| && StepSends(After(e0, texts[..i]), key, value)
  }

  ghost predicate StepSends(e: Exec, key: string, value: string) {
    && !e.Done() && e.Current().kind == SetParams
    && forall r | Resolves(e.Current(), e.vars, r) :: key in r.params && r.params[key] == value
  }

  lemma {:induction false} AfterSnoc(e: Exec, a: seq<string>, text: string)
    ensures After(e, a + [text]) == After(e, a).OnReply(text)
    decreases |a|
  {
    if a == [] {
      assert a + [text] == [text] && [text][1..] == [];
    } else {
      assert (a + [text])[1..] == a[1..] + [text];
      AfterSnoc(e.OnReply(a[0]), a[1..], text);
    }
  }

  /** A run of scoped parts, from the beginning. */
  predicate Runs(e0: Exec, parts: seq<Part>, scopes: seq<Scope>, allowed: set<Target>, texts: seq<string>) {
    && Fresh(e0, parts) && Scoped(parts, scopes, allowed) && scopes[0] == {}
    && Answers(e0.flow, texts) && SafeTable(e0.vars) && Assigned(e0.flow, e0.on, e0.vars.Keys, 0)
  }

  lemma AtStep(e0: Exec, parts: seq<Part>, scopes: seq<Scope>, allowed: set<Target>, texts: seq<string>, i: nat)
    requires Runs(e0, parts, scopes, allowed, texts) && i < |parts|
    ensures var e := After(e0, texts[..i]);
      && !e.Done() && e.Current() == RenderPart(parts[i]) && e.flow == e0.flow && e.cur == i
      && Covered(e) && StepBound(e.Current(), e.vars.Keys)
  {
    CursorWhenAllOn(e0, texts[..i]);
    forall r | r in texts[..i] ensures '{' !in r {
      var k :| 0 <= k < i && texts[..i][k] == r;
      assert Plain(texts[k]);
    }
    CoveredRun(e0, texts[..i]);
  }

  lemma {:induction false} InScopeSince(parts: seq<Part>, scopes: seq<Scope>, allowed: set<Target>, s: Slot, c: nat,
                                        i: nat)
    requires Scoped(parts, scopes, allowed) && c < i <= |parts| && parts[c] == Create(s)
    ensures s in scopes[i]
    decreases i
  {
    assert scopes[i - 1 + 1] == Extend(scopes[i - 1], parts[i - 1]);
    if i - 1 > c { InScopeSince(parts, scopes, allowed, s, c, i - 1); }
  }

  predicate Carries(e0: Exec, texts: seq<string>, s: Slot, number: string, j: nat) {
    j < |texts| && (BoundTo(After(e0, texts[..j]), s, number) ==> BoundTo(After(e0, texts[..j + 1]), s, number))
  }

  lemma {:induction false} Carried(e0: Exec, texts: seq<string>, s: Slot, number: string, c: nat, i: nat)
    requires c < i <= |texts| && BoundTo(After(e0, texts[..c + 1]), s, number)
    requires forall j | c < j < i :: Carries(e0, texts, s, number, j)
    ensures BoundTo(After(e0, texts[..i]), s, number)
    decreases i
  {
    if c < i - 1 {
      Carried(e0, texts, s, number, c, i - 1);
      assert Carries(e0, texts, s, number, i - 1);
    }
  }

  /** The number of an object is bound from its creation on. */
  lemma BoundSince(e0: Exec, parts: seq<Part>, scopes: seq<Scope>, allowed: set<Target>, texts: seq<string>, s: Slot,
                   c: nat, i: nat)
    requires Runs(e0, parts, scopes, allowed, texts) && c < i <= |parts| && parts[c] == Create(s)
    ensures BoundTo(After(e0, texts[..i]), s, texts[c])
  {
    FirstBound(e0, parts, scopes, allowed, texts, s, c);
    forall j | c < j < i ensures Carries(e0, texts, s, texts[c], j) {
      if BoundTo(After(e0, texts[..j]), s, texts[c]) { StillBound(e0, parts, scopes, allowed, texts, s, c, j); }
    }
    Carried(e0, texts, s, texts[c], c, i);
  }

  lemma FirstBound(e0: Exec, parts: seq<Part>, scopes: seq<Scope>, allowed: set<Target>, texts: seq<string>, s: Slot,
                   c: nat)
    requires Runs(e0, parts, scopes, allowed, texts) && c < |parts| && parts[c] == Create(s)
    ensures BoundTo(After(e0, texts[..c + 1]), s, texts[c])
  {
    ReachNext(e0, parts, scopes, allowed, texts, c);
    CreationBinds(After(e0, texts[..c]), s, texts[c]);
  }

  lemma StillBound(e0: Exec, parts: seq<Part>, scopes: seq<Scope>, allowed: set<Target>, texts: seq<string>, s: Slot,
                   c: nat, j: nat)
    requires Runs(e0, parts, scopes, allowed, texts) && c < j < |parts| && parts[c] == Create(s)
    requires BoundTo(After(e0, texts[..j]), s, texts[c])
    ensures BoundTo(After(e0, texts[..j + 1]), s, texts[c])
  {
    ReachNext(e0, parts, scopes, allowed, texts, j);
    InScopeSince(parts, scopes, allowed, s, c, j);
    OtherPartKeeps(After(e0, texts[..j]), parts[j], texts[j], s, scopes[j], allowed, texts[c]);
  }

  predicate BoundTo(e: Exec, s: Slot, number: string) {
    s.Name() in e.vars && e.vars[s.Name()] == number
  }

  lemma ReachNext(e0: Exec, parts: seq<Part>, scopes: seq<Scope>, allowed: set<Target>, texts: seq<string>, j: nat)
    requires Runs(e0, parts, scopes, allowed, texts) && j < |parts|
    ensures var e := After(e0, texts[..j]);
      !e.Done() && e.Current() == RenderPart(parts[j]) && After(e0, texts[..j + 1]) == e.OnReply(texts[j])
    ensures PartScoped(parts[j], scopes[j], allowed) && scopes[j + 1] == Extend(scopes[j], parts[j])
  {
    assert texts[..j + 1] == texts[..j] + [texts[j]];
    AfterSnoc(e0, texts[..j], texts[j]);
    AtStep(e0, parts, scopes, allowed, texts, j);
  }

  lemma CreationBinds(e: Exec, s: Slot, text: string)
    requires !e.Done() && e.Current() == RenderPart(Create(s))
    ensures BoundTo(e.OnReply(text), s, text)
  {
    SlotsArePlain(s);
  }

  lemma OtherPartKeeps(e: Exec, part: Part, text: string, s: Slot, scope: Scope, allowed: set<Target>,
                       number: string)
    requires !e.Done() && e.Current() == RenderPart(part) && PartScoped(part, scope, allowed) && s in scope
    requires BoundTo(e, s, number)
    ensures BoundTo(e.OnReply(text), s, number)
  {
    if part.Create? { SlotNamesDiffer(s, part.slot); }
  }

  // ---- the texts of an entry, with numbers for names ----

  function OwnerText(t: Target, vars: Vars): string {
    if t.Instance? && t.slot.Name() in vars then t.slot.Path() + vars[t.slot.Name()] else t.Text()
  }

  function KeyText(e: Entry, vars: Vars): string {
    OwnerText(e.owner, vars) + "." + e.leaf.Text()
  }

  function ValueText(e: Entry, vars: Vars): string {
    match e.value
    case Const(s) => s
    case Pointer(t) => OwnerText(t, vars) + "."
  }

  lemma TargetResolves(t: Target, tail: string, scope: Scope, vars: Vars)
    requires OwnerScoped(t, scope) && Plain(tail) && LegacyWanFlow.Names(scope) <= vars.Keys
    ensures Simultaneous(t.Text() + tail, vars) == OwnerText(t, vars) + tail
  {
    if t.Instance? {
      assert t.slot.Name() in LegacyWanFlow.Names(scope);
      InstanceText(t.slot, tail, vars);
    } else {
      SlotsArePlain(GponLink);
      PlainBound(t.Text() + tail, {});
    }
  }

  lemma EntryResolves(e: Entry, scope: Scope, allowed: set<Target>, vars: Vars)
    requires EntryScoped(e, scope, allowed) && LegacyWanFlow.Names(scope) <= vars.Keys
    ensures Simultaneous(e.Key(), vars) == KeyText(e, vars) && Simultaneous(e.value.Text(), vars) == ValueText(e, vars)
    ensures Leaf(e.Key()) == e.leaf.Text() == Leaf(KeyText(e, vars))
  {
    LeafsAreWords(e.leaf);
    var tail := "." + e.leaf.Text();
    assert e.Key() == e.owner.Text() + tail && KeyText(e, vars) == OwnerText(e.owner, vars) + tail;
    TargetResolves(e.owner, tail, scope, vars);
    LeafOfPath(e.owner.Text(), e.leaf.Text());
    LeafOfPath(OwnerText(e.owner, vars), e.leaf.Text());
    match e.value {
      case Const(s) => PlainBound(s, {});
      case Pointer(t) => TargetResolves(t, ".", scope, vars);
    }
  }

  // ---- what one step sends ----

  // leaf names differ in length, fourth or tenth character

  function Mark(s: string): (nat, char, char) {
    (|s|, if |s| > 3 then s[3] else ' ', if |s| > 9 then s[9] else ' ')
  }

  function LeafMark(l: Leafs): (nat, char, char) {
    match l
    case Alias => (5, 'a', ' ')
    case Enable => (6, 'b', ' ')
    case LowerLayers => (11, 'e', 'r')
    case Interface => (9, 'e', ' ')
    case VLANID => (6, 'N', ' ')
    case MulticastStatus => (20, 'P', 'i')
    case VLANEnable => (15, 'P', 'E')
    case VLANMode => (13, 'P', 'M')
    case AuthenticationProtocol => (22, 'h', 'a')
    case Password => (8, 's', ' ')
    case Username => (8, 'r', ' ')
    case UsernameDomainEnable => (25, 'P', 'n')
    case IPv4Enable => (10, '4', 'e')
    case IPv6Enable => (10, '6', 'e')
    case MaxMTUSize => (10, 'M', 'e')
    case ConnName => (13, 'P', 'N')
    case ConnType => (13, 'P', 'T')
    case IPv6AddrType => (17, 'P', 'A')
    case ServiceType => (16, 'P', 'i')
    case RequestAddresses => (16, 'u', 'd')
    case RequestPrefixes => (15, 'u', 'e')
    case RequestedOptions => (16, 'u', 'O')
    case EnableRaRouter => (19, 'P', 'l')
    case EnableSLAAC => (16, 'P', 'l')
    case IPv4GatewayType => (22, '4', 'l')
    case IPv4Gateway => (24, 't', '4')
    case IPv6GatewayType => (22, '6', 'l')
    case IPv6Gateway => (24, 't', '6')
    case ProvisioningCode => (16, 'v', 'i')
  }

  lemma LinkMarks(l: Leafs)
    requires l.Alias? || l.Enable? || l.LowerLayers? || l.Interface? || l.VLANID?
    ensures Mark(l.Text()) == LeafMark(l)
  {
  }

  lemma VlanMarks(l: Leafs)
    requires l.MulticastStatus? || l.VLANEnable? || l.VLANMode? || l.AuthenticationProtocol? || l.Password?
    ensures Mark(l.Text()) == LeafMark(l)
  {
  }

  lemma AddressMarks(l: Leafs)
    requires l.Username? || l.UsernameDomainEnable? || l.IPv4Enable? || l.IPv6Enable? || l.MaxMTUSize?
    ensures Mark(l.Text()) == LeafMark(l)
  {
  }

  lemma ServiceMarks(l: Leafs)
    requires l.ConnName? || l.ConnType? || l.IPv6AddrType? || l.ServiceType? || l.RequestAddresses?
    ensures Mark(l.Text()) == LeafMark(l)
  {
  }

  lemma RouterMarks(l: Leafs)
    requires l.RequestPrefixes? || l.RequestedOptions? || l.EnableRaRouter? || l.EnableSLAAC? || l.IPv4GatewayType?
    ensures Mark(l.Text()) == LeafMark(l)
  {
  }

  lemma GatewayMarks(l: Leafs)
    requires l.IPv4Gateway? || l.IPv6GatewayType? || l.IPv6Gateway? || l.ProvisioningCode?
    ensures Mark(l.Text()) == LeafMark(l)
  {
  }

  lemma LeafHasMark(l: Leafs)
    ensures Mark(l.Text()) == LeafMark(l)
  {
    if l.Alias? || l.Enable? || l.LowerLayers? || l.Interface? || l.VLANID? {
      LinkMarks(l);
    } else if l.MulticastStatus? || l.VLANEnable? || l.VLANMode? || l.AuthenticationProtocol? || l.Password? {
      VlanMarks(l);
    } else if l.Username? || l.UsernameDomainEnable? || l.IPv4Enable? || l.IPv6Enable? || l.MaxMTUSize? {
      AddressMarks(l);
    } else if l.ConnName? || l.ConnType? || l.IPv6AddrType? || l.ServiceType? || l.RequestAddresses? {
      ServiceMarks(l);
    } else if l.RequestPrefixes? || l.RequestedOptions? || l.EnableRaRouter? || l.EnableSLAAC? || l.IPv4GatewayType? {
      RouterMarks(l);
    } else {
      GatewayMarks(l);
    }
  }

  lemma ShortMarksDiffer(l: Leafs, m: Leafs)
    requires LeafMark(l) == LeafMark(m) && LeafMark(l).0 < 14
    ensures l == m
  {
    match l {
      case Alias => case Enable => case LowerLayers => case Interface => case VLANID => case MulticastStatus =>
      case VLANEnable => case VLANMode => case AuthenticationProtocol => case Password => case Username =>
      case UsernameDomainEnable => case IPv4Enable => case IPv6Enable => case MaxMTUSize => case ConnName =>
      case ConnType => case IPv6AddrType => case ServiceType => case RequestAddresses => case RequestPrefixes =>
      case RequestedOptions => case EnableRaRouter => case EnableSLAAC => case IPv4GatewayType => case IPv4Gateway =>
      case IPv6GatewayType => case IPv6Gateway => case ProvisioningCode =>
    }
  }

  lemma LongMarksDiffer(l: Leafs, m: Leafs)
    requires LeafMark(l) == LeafMark(m) && LeafMark(l).0 >= 14
    ensures l == m
  {
    match l {
      case Alias => case Enable => case LowerLayers => case Interface => case VLANID => case MulticastStatus =>
      case VLANEnable => case VLANMode => case AuthenticationProtocol => case Password => case Username =>
      case UsernameDomainEnable => case IPv4Enable => case IPv6Enable => case MaxMTUSize => case ConnName =>
      case ConnType => case IPv6AddrType => case ServiceType => case RequestAddresses => case RequestPrefixes =>
      case RequestedOptions => case EnableRaRouter => case EnableSLAAC => case IPv4GatewayType => case IPv4Gateway =>
      case IPv6GatewayType => case IPv6Gateway => case ProvisioningCode =>
    }
  }

  lemma LeafTextsDiffer(l: Leafs, m: Leafs)
    requires l.Text() == m.Text()
    ensures l == m
  {
    LeafHasMark(l);
    LeafHasMark(m);
    if LeafMark(l).0 < 14 { ShortMarksDiffer(l, m); } else { LongMarksDiffer(l, m); }
  }

  /** In one step a leaf has one value. */
  predicate LeafDetermines(entries: seq<Entry>) {
    forall a, b | 0 <= a < |entries| && 0 <= b < |entries| && entries[a].leaf == entries[b].leaf ::
      entries[a].value == entries[b].value
  }

  lemma ParamsHold(entries: seq<Entry>, k: nat)
    requires LeafDetermines(entries) && k < |entries|
    ensures entries[k].Key() in Params(entries) && Params(entries)[entries[k].Key()] == entries[k].value.Text()
  {
    KeyIsThere(entries, k);
    var i := ParamsComeFromEntries(entries, entries[k].Key());
    LeafsAreWords(entries[i].leaf);
    LeafsAreWords(entries[k].leaf);
    LeafOfPath(entries[i].owner.Text(), entries[i].leaf.Text());
    LeafOfPath(entries[k].owner.Text(), entries[k].leaf.Text());
    LeafTextsDiffer(entries[i].leaf, entries[k].leaf);
  }

  lemma {:induction false} KeyIsThere(entries: seq<Entry>, k: nat)
    requires k < |entries|
    ensures entries[k].Key() in Params(entries)
  {
    var n := |entries| - 1;
    if k < n { KeyIsThere(entries[..n], k); }
    KeyStays(entries, k);
  }

  lemma KeyStays(entries: seq<Entry>, k: nat)
    requires k < |entries| && (k < |entries| - 1 ==> entries[k].Key() in Params(entries[..|entries| - 1]))
    ensures entries[k].Key() in Params(entries)
  {
  }

  lemma ParamOfEntry(entries: seq<Entry>, scope: Scope, allowed: set<Target>, vars: Vars, t: string) returns (i: nat)
    requires PartScoped(Assign(entries), scope, allowed) && LegacyWanFlow.Names(scope) <= vars.Keys
      && t in Params(entries)
    ensures i < |entries| && Simultaneous(t, vars) == KeyText(entries[i], vars)
      && Simultaneous(Params(entries)[t], vars) == ValueText(entries[i], vars)
      && Leaf(KeyText(entries[i], vars)) == entries[i].leaf.Text()
  {
    i := ParamsComeFromEntries(entries, t);
    EntryResolves(entries[i], scope, allowed, vars);
  }

  lemma SentParam(entries: seq<Entry>, scope: Scope, allowed: set<Target>, vars: Vars, k: nat,
                  out: map<string, string>)
    requires PartScoped(Assign(entries), scope, allowed) && LegacyWanFlow.Names(scope) <= vars.Keys
      && LeafDetermines(entries)
    requires k < |entries| && ValueText(entries[k], vars) != "" && ResolvedExactly(Params(entries), vars, out)
    ensures KeyText(entries[k], vars) in out && out[KeyText(entries[k], vars)] == ValueText(entries[k], vars)
  {
    var key := KeyText(entries[k], vars);
    ParamsHold(entries, k);
    EntryResolves(entries[k], scope, allowed, vars);
    assert key in out;
    var t :| t in Params(entries) && key == Simultaneous(t, vars) && out[key] == Simultaneous(Params(entries)[t], vars);
    var i := ParamOfEntry(entries, scope, allowed, vars, t);
    LeafTextsDiffer(entries[i].leaf, entries[k].leaf);
    assert entries[i].value == entries[k].value;
  }

  lemma ScopeIsBound(e0: Exec, parts: seq<Part>, scopes: seq<Scope>, allowed: set<Target>, texts: seq<string>, i: nat)
    requires Runs(e0, parts, scopes, allowed, texts) && i <= |parts|
    ensures LegacyWanFlow.Names(scopes[i]) <= After(e0, texts[..i]).vars.Keys
    decreases i
  {
    if i > 0 {
      var j := i - 1;
      assert texts[..i] == texts[..j] + [texts[j]];
      AfterSnoc(e0, texts[..j], texts[j]);
      AtStep(e0, parts, scopes, allowed, texts, j);
      ScopeIsBound(e0, parts, scopes, allowed, texts, j);
      assert scopes[j + 1] == Extend(scopes[j], parts[j]);
      if parts[j].Create? { SlotsArePlain(parts[j].slot); }
    }
  }

  /** The k-th entry of step i is sent. */
  lemma EntryIsSent(e0: Exec, parts: seq<Part>, scopes: seq<Scope>, allowed: set<Target>, texts: seq<string>, i: nat,
                    k: nat)
    requires Runs(e0, parts, scopes, allowed, texts) && i < |parts| && parts[i].Assign? && k < |parts[i].entries|
    requires LeafDetermines(parts[i].entries)
    ensures var vars, e := After(e0, texts[..i]).vars, parts[i].entries[k];
      ValueText(e, vars) != "" ==> Sends(e0, texts, i, KeyText(e, vars), ValueText(e, vars))
  {
    var e := After(e0, texts[..i]);
    var entries := parts[i].entries;
    AtStep(e0, parts, scopes, allowed, texts, i);
    ScopeIsBound(e0, parts, scopes, allowed, texts, i);
    assert PartScoped(parts[i], scopes[i], allowed);
    if ValueText(entries[k], e.vars) != "" {
      forall r | Resolves(e.Current(), e.vars, r)
        ensures KeyText(entries[k], e.vars) in r.params
          && r.params[KeyText(entries[k], e.vars)] == ValueText(entries[k], e.vars)
      {
        ParamsBound(e.Current().params, e.vars, r.params);
        SentParam(entries, scopes[i], allowed, e.vars, k, r.params);
      }
    }
  }

  /** Step i sends all its entries. */
  ghost predicate AllSent(e0: Exec, texts: seq<string>, i: nat, entries: seq<Entry>, vars: Vars) {
    forall k | 0 <= k < |entries| :: EntrySent(e0, texts, i, entries[k], vars)
  }

  ghost predicate EntrySent(e0: Exec, texts: seq<string>, i: nat, e: Entry, vars: Vars) {
    ValueText(e, vars) != "" ==> Sends(e0, texts, i, KeyText(e, vars), ValueText(e, vars))
  }

  lemma StepIsSent(e0: Exec, parts: seq<Part>, scopes: seq<Scope>, allowed: set<Target>, texts: seq<string>, i: nat,
                   entries: seq<Entry>) returns (vars: Vars)
    requires Runs(e0, parts, scopes, allowed, texts) && i < |parts|
    requires parts[i] == Assign(entries) && LeafDetermines(entries)
    ensures vars == After(e0, texts[..i]).vars && AllSent(e0, texts, i, entries, vars)
  {
    vars := After(e0, texts[..i]).vars;
    forall k | 0 <= k < |entries| ensures EntrySent(e0, texts, i, entries[k], vars) {
      EntryIsSent(e0, parts, scopes, allowed, texts, i, k);
    }
  }

  /** The owner of an entry, once its object has been created. */
  lemma Numbered(e0: Exec, parts: seq<Part>, scopes: seq<Scope>, allowed: set<Target>, texts: seq<string>, s: Slot,
                 c: nat, i: nat)
    requires Runs(e0, parts, scopes, allowed, texts) && c < i < |parts| && parts[c] == Create(s)
    ensures |texts| == |parts| && OwnerText(Instance(s), After(e0, texts[..i]).vars) == s.Path() + texts[c]
    ensures Creates(e0.flow, c, s.Path())
  {
    BoundSince(e0, parts, scopes, allowed, texts, s, c, i);
    assert Render(parts)[c] == RenderPart(parts[c]);
  }

  // one entry, with the numbers of the device

  /** A value for an object that step c has created. */
  lemma NewConst(e0: Exec, parts: seq<Part>, scopes: seq<Scope>, allowed: set<Target>, texts: seq<string>, i: nat,
                 es: seq<Entry>, k: nat, s: Slot, c: nat, leaf: Leafs, v: string)
    requires Runs(e0, parts, scopes, allowed, texts) && c < i < |parts| && parts[c] == Create(s)
    requires parts[i] == Assign(es) && LeafDetermines(es) && k < |es| && es[k] == Entry(Instance(s), leaf, Const(v))
    ensures |texts| == |parts| && Creates(e0.flow, c, s.Path())
    ensures v != "" ==> Sends(e0, texts, i, s.Path() + texts[c] + "." + leaf.Text(), v)
  {
    var vars := StepIsSent(e0, parts, scopes, allowed, texts, i, es);
    Numbered(e0, parts, scopes, allowed, texts, s, c, i);
    assert EntrySent(e0, texts, i, es[k], vars);
  }

  /** The path of another new object. */
  lemma NewLink(e0: Exec, parts: seq<Part>, scopes: seq<Scope>, allowed: set<Target>, texts: seq<string>, i: nat,
                es: seq<Entry>, k: nat, s: Slot, c: nat, leaf: Leafs, t: Slot, d: nat)
    requires Runs(e0, parts, scopes, allowed, texts) && c < i < |parts| && parts[c] == Create(s)
    requires d < i && parts[d] == Create(t)
    requires parts[i] == Assign(es) && LeafDetermines(es) && k < |es|
      && es[k] == Entry(Instance(s), leaf, Pointer(Instance(t)))
    ensures |texts| == |parts| && Creates(e0.flow, c, s.Path()) && Creates(e0.flow, d, t.Path())
    ensures Sends(e0, texts, i, s.Path() + texts[c] + "." + leaf.Text(), t.Path() + texts[d] + ".")
  {
    var vars := StepIsSent(e0, parts, scopes, allowed, texts, i, es);
    Numbered(e0, parts, scopes, allowed, texts, s, c, i);
    Numbered(e0, parts, scopes, allowed, texts, t, d, i);
    assert EntrySent(e0, texts, i, es[k], vars);
  }

  /** The path of an object that was there before. */
  lemma NewPointer(e0: Exec, parts: seq<Part>, scopes: seq<Scope>, allowed: set<Target>, texts: seq<string>, i: nat,
                   es: seq<Entry>, k: nat, s: Slot, c: nat, leaf: Leafs, t: Target)
    requires Runs(e0, parts, scopes, allowed, texts) && c < i < |parts| && parts[c] == Create(s)
    requires !t.Instance?
    requires parts[i] == Assign(es) && LeafDetermines(es) && k < |es| && es[k] == Entry(Instance(s), leaf, Pointer(t))
    ensures |texts| == |parts| && Creates(e0.flow, c, s.Path())
    ensures Sends(e0, texts, i, s.Path() + texts[c] + "." + leaf.Text(), t.Text() + ".")
  {
    var vars := StepIsSent(e0, parts, scopes, allowed, texts, i, es);
    Numbered(e0, parts, scopes, allowed, texts, s, c, i);
    assert EntrySent(e0, texts, i, es[k], vars);
  }

  /** A value for an object that was there before. */
  lemma OldConst(e0: Exec, parts: seq<Part>, scopes: seq<Scope>, allowed: set<Target>, texts: seq<string>, i: nat,
                 es: seq<Entry>, k: nat, owner: Target, leaf: Leafs, v: string)
    requires Runs(e0, parts, scopes, allowed, texts) && i < |parts| && !owner.Instance?
    requires parts[i] == Assign(es) && LeafDetermines(es) && k < |es| && es[k] == Entry(owner, leaf, Const(v))
    ensures |texts| == |parts| && (v != "" ==> Sends(e0, texts, i, owner.Text() + "." + leaf.Text(), v))
  {
    var vars := StepIsSent(e0, parts, scopes, allowed, texts, i, es);
    assert EntrySent(e0, texts, i, es[k], vars);
  }

  lemma OldPointer(e0: Exec, parts: seq<Part>, scopes: seq<Scope>, allowed: set<Target>, texts: seq<string>, i: nat,
                   es: seq<Entry>, k: nat, owner: Target, leaf: Leafs, t: Target)
    requires Runs(e0, parts, scopes, allowed, texts) && i < |parts| && !owner.Instance? && !t.Instance?
    requires parts[i] == Assign(es) && LeafDetermines(es) && k < |es| && es[k] == Entry(owner, leaf, Pointer(t))
    ensures |texts| == |parts| && Sends(e0, texts, i, owner.Text() + "." + leaf.Text(), t.Text() + ".")
  {
    var vars := StepIsSent(e0, parts, scopes, allowed, texts, i, es);
    assert EntrySent(e0, texts, i, es[k], vars);
  }

  // the steps of the flow, one by one

  /** The Ethernet link, on the GPON link that is given. */
  ghost predicate LinkConfigured(e0: Exec, texts: seq<string>, o: nat, gi: string, v: string)
    requires |texts| == o + 18
  {
    && Creates(e0.flow, o + 0, EthLink.Path())
    && Sends(e0, texts, o + 1, EthLink.Path() + texts[o + 0] + "." + Alias.Text(), "ethlink_" + v)
    && Sends(e0, texts, o + 1, EthLink.Path() + texts[o + 0] + "." + Enable.Text(), "1")
    && Sends(e0, texts, o + 1, EthLink.Path() + texts[o + 0] + "." + LowerLayers.Text(), ExistingGpon(gi).Text() + ".")
  }

  lemma LinkEntries(gi: string, v: string)
    ensures LinkParts(gi, v)[1].Assign? && LeafDetermines(LinkParts(gi, v)[1].entries)
      && |LinkParts(gi, v)[1].entries| == 3
    ensures LinkParts(gi, v)[1].entries[0] == Entry(Instance(EthLink), Alias, Const("ethlink_" + v))
    ensures LinkParts(gi, v)[1].entries[1] == Entry(Instance(EthLink), Enable, Const("1"))
    ensures LinkParts(gi, v)[1].entries[2] == Entry(Instance(EthLink), LowerLayers, Pointer(ExistingGpon(gi)))
  {
  }

  lemma LinkIsConfigured(e0: Exec, parts: seq<Part>, scopes: seq<Scope>, allowed: set<Target>, texts: seq<string>,
                         o: nat, gi: string, v: string)
    requires Runs(e0, parts, scopes, allowed, texts) && |parts| == o + 18
    requires parts[o + 0] == Create(EthLink)
    requires parts[o + 1] == LinkParts(gi, v)[1]
    ensures |texts| == o + 18 && LinkConfigured(e0, texts, o, gi, v)
  {
    LinkEntries(gi, v);
    var es := LinkParts(gi, v)[1].entries;
    NewConst(e0, parts, scopes, allowed, texts, o + 1, es, 0, EthLink, o + 0, Alias, "ethlink_" + v);
    NewConst(e0, parts, scopes, allowed, texts, o + 1, es, 1, EthLink, o + 0, Enable, "1");
    NewPointer(e0, parts, scopes, allowed, texts, o + 1, es, 2, EthLink, o + 0, LowerLayers, ExistingGpon(gi));
  }

  /** The VLAN termination on the Ethernet link, with the VLAN of the task. */
  ghost predicate VlanConfigured(e0: Exec, texts: seq<string>, o: nat, v: string)
    requires |texts| == o + 18
  {
    && Creates(e0.flow, o + 2, VlanTerm.Path())
    && Creates(e0.flow, o + 0, EthLink.Path())
    && Sends(e0, texts, o + 3, VlanTerm.Path() + texts[o + 2] + "." + Alias.Text(), "VLAN_" + v)
    && Sends(e0, texts, o + 3, VlanTerm.Path() + texts[o + 2] + "." + Enable.Text(), "1")
    && Sends(e0, texts, o + 3, VlanTerm.Path() + texts[o + 2] + "." + LowerLayers.Text(), EthLink.Path() + texts[o + 0]
         + ".")
    && Sends(e0, texts, o + 3, VlanTerm.Path() + texts[o + 2] + "." + VLANID.Text(), v)
  }

  lemma VlanEntries(gi: string, v: string)
    ensures LinkParts(gi, v)[3].Assign? && LeafDetermines(LinkParts(gi, v)[3].entries)
      && |LinkParts(gi, v)[3].entries| == 4
    ensures LinkParts(gi, v)[3].entries[0] == Entry(Instance(VlanTerm), Alias, Const("VLAN_" + v))
    ensures LinkParts(gi, v)[3].entries[1] == Entry(Instance(VlanTerm), Enable, Const("1"))
    ensures LinkParts(gi, v)[3].entries[2] == Entry(Instance(VlanTerm), LowerLayers, Pointer(Instance(EthLink)))
    ensures LinkParts(gi, v)[3].entries[3] == Entry(Instance(VlanTerm), VLANID, Const(v))
  {
  }

  lemma VlanIsConfigured(e0: Exec, parts: seq<Part>, scopes: seq<Scope>, allowed: set<Target>, texts: seq<string>,
                         o: nat, gi: string, v: string)
    requires Runs(e0, parts, scopes, allowed, texts) && |parts| == o + 18
    requires parts[o + 2] == Create(VlanTerm)
    requires parts[o + 0] == Create(EthLink)
    requires parts[o + 3] == LinkParts(gi, v)[3]
    requires v != ""
    ensures |texts| == o + 18 && VlanConfigured(e0, texts, o, v)
  {
    VlanEntries(gi, v);
    var es := LinkParts(gi, v)[3].entries;
    NewConst(e0, parts, scopes, allowed, texts, o + 3, es, 0, VlanTerm, o + 2, Alias, "VLAN_" + v);
    NewConst(e0, parts, scopes, allowed, texts, o + 3, es, 1, VlanTerm, o + 2, Enable, "1");
    NewLink(e0, parts, scopes, allowed, texts, o + 3, es, 2, VlanTerm, o + 2, LowerLayers, EthLink, o + 0);
    NewConst(e0, parts, scopes, allowed, texts, o + 3, es, 3, VlanTerm, o + 2, VLANID, v);
  }

  /** Tagging is switched on. */
  ghost predicate TaggingConfigured(e0: Exec, texts: seq<string>, o: nat)
    requires |texts| == o + 18
  {
    && Creates(e0.flow, o + 2, VlanTerm.Path())
    && Sends(e0, texts, o + 4, VlanTerm.Path() + texts[o + 2] + "." + MulticastStatus.Text(), "1")
    && Sends(e0, texts, o + 4, VlanTerm.Path() + texts[o + 2] + "." + VLANEnable.Text(), "1")
    && Sends(e0, texts, o + 4, VlanTerm.Path() + texts[o + 2] + "." + VLANMode.Text(), "2")
  }

  lemma TaggingEntries(gi: string, v: string)
    ensures LinkParts(gi, v)[4].Assign? && LeafDetermines(LinkParts(gi, v)[4].entries)
      && |LinkParts(gi, v)[4].entries| == 3
    ensures LinkParts(gi, v)[4].entries[0] == Entry(Instance(VlanTerm), MulticastStatus, Const("1"))
    ensures LinkParts(gi, v)[4].entries[1] == Entry(Instance(VlanTerm), VLANEnable, Const("1"))
    ensures LinkParts(gi, v)[4].entries[2] == Entry(Instance(VlanTerm), VLANMode, Const("2"))
  {
  }

  lemma TaggingIsConfigured(e0: Exec, parts: seq<Part>, scopes: seq<Scope>, allowed: set<Target>, texts: seq<string>,
                            o: nat, gi: string, v: string)
    requires Runs(e0, parts, scopes, allowed, texts) && |parts| == o + 18
    requires parts[o + 2] == Create(VlanTerm)
    requires parts[o + 4] == LinkParts(gi, v)[4]
    ensures |texts| == o + 18 && TaggingConfigured(e0, texts, o)
  {
    TaggingEntries(gi, v);
    var es := LinkParts(gi, v)[4].entries;
    NewConst(e0, parts, scopes, allowed, texts, o + 4, es, 0, VlanTerm, o + 2, MulticastStatus, "1");
    NewConst(e0, parts, scopes, allowed, texts, o + 4, es, 1, VlanTerm, o + 2, VLANEnable, "1");
    NewConst(e0, parts, scopes, allowed, texts, o + 4, es, 2, VlanTerm, o + 2, VLANMode, "2");
  }

  /** The IP interface is on the PPP interface. */
  ghost predicate StackConfigured(e0: Exec, texts: seq<string>, o: nat)
    requires |texts| == o + 18
  {
    && Creates(e0.flow, o + 6, IpIface.Path())
    && Creates(e0.flow, o + 5, PppIface.Path())
    && Sends(e0, texts, o + 7, IpIface.Path() + texts[o + 6] + "." + LowerLayers.Text(), PppIface.Path() + texts[o + 5]
         + ".")
  }

  lemma StackEntries(username: string, password: string)
    ensures InterfaceParts(username, password)[2].Assign?
      && LeafDetermines(InterfaceParts(username, password)[2].entries)
           && |InterfaceParts(username, password)[2].entries| == 1
    ensures InterfaceParts(username, password)[2].entries[0] == Entry(Instance(IpIface), LowerLayers,
      Pointer(Instance(PppIface)))
  {
  }

  lemma StackIsConfigured(e0: Exec, parts: seq<Part>, scopes: seq<Scope>, allowed: set<Target>, texts: seq<string>,
                          o: nat, username: string, password: string)
    requires Runs(e0, parts, scopes, allowed, texts) && |parts| == o + 18
    requires parts[o + 6] == Create(IpIface)
    requires parts[o + 5] == Create(PppIface)
    requires parts[o + 7] == InterfaceParts(username, password)[2]
    ensures |texts| == o + 18 && StackConfigured(e0, texts, o)
  {
    StackEntries(username, password);
    var es := InterfaceParts(username, password)[2].entries;
    NewLink(e0, parts, scopes, allowed, texts, o + 7, es, 0, IpIface, o + 6, LowerLayers, PppIface, o + 5);
  }

  /** The PPP interface is on the VLAN termination, with the credentials of the task. */
  ghost predicate PppConfigured(e0: Exec, texts: seq<string>, o: nat, username: string, password: string)
    requires |texts| == o + 18
  {
    && Creates(e0.flow, o + 5, PppIface.Path())
    && Creates(e0.flow, o + 2, VlanTerm.Path())
    && Sends(e0, texts, o + 8, PppIface.Path() + texts[o + 5] + "." + Alias.Text(), "Internet_PPPoE")
    && Sends(e0, texts, o + 8, PppIface.Path() + texts[o + 5] + "." + AuthenticationProtocol.Text(), "AUTO_AUTH")
    && Sends(e0, texts, o + 8, PppIface.Path() + texts[o + 5] + "." + LowerLayers.Text(), VlanTerm.Path() + texts[o + 2]
         + ".")
    && (password != "" ==> Sends(e0, texts, o + 8, PppIface.Path() + texts[o + 5] + "." + Password.Text(), password))
    && (username != "" ==> Sends(e0, texts, o + 8, PppIface.Path() + texts[o + 5] + "." + Username.Text(), username))
    && Sends(e0, texts, o + 8, PppIface.Path() + texts[o + 5] + "." + UsernameDomainEnable.Text(), "1")
  }

  lemma PppEntries(username: string, password: string)
    ensures InterfaceParts(username, password)[3].Assign?
      && LeafDetermines(InterfaceParts(username, password)[3].entries)
           && |InterfaceParts(username, password)[3].entries| == 6
    ensures InterfaceParts(username, password)[3].entries[0] == Entry(Instance(PppIface), Alias,
      Const("Internet_PPPoE"))
    ensures InterfaceParts(username, password)[3].entries[1] == Entry(Instance(PppIface), AuthenticationProtocol,
      Const("AUTO_AUTH"))
    ensures InterfaceParts(username, password)[3].entries[2] == Entry(Instance(PppIface), LowerLayers,
      Pointer(Instance(VlanTerm)))
    ensures InterfaceParts(username, password)[3].entries[3] == Entry(Instance(PppIface), Password, Const(password))
    ensures InterfaceParts(username, password)[3].entries[4] == Entry(Instance(PppIface), Username, Const(username))
    ensures InterfaceParts(username, password)[3].entries[5] == Entry(Instance(PppIface), UsernameDomainEnable,
      Const("1"))
  {
  }

  lemma PppIsConfigured(e0: Exec, parts: seq<Part>, scopes: seq<Scope>, allowed: set<Target>, texts: seq<string>,
                        o: nat, username: string, password: string)
    requires Runs(e0, parts, scopes, allowed, texts) && |parts| == o + 18
    requires parts[o + 5] == Create(PppIface)
    requires parts[o + 2] == Create(VlanTerm)
    requires parts[o + 8] == InterfaceParts(username, password)[3]
    ensures |texts| == o + 18 && PppConfigured(e0, texts, o, username, password)
  {
    PppEntries(username, password);
    var es := InterfaceParts(username, password)[3].entries;
    NewConst(e0, parts, scopes, allowed, texts, o + 8, es, 0, PppIface, o + 5, Alias, "Internet_PPPoE");
    NewConst(e0, parts, scopes, allowed, texts, o + 8, es, 1, PppIface, o + 5, AuthenticationProtocol, "AUTO_AUTH");
    NewLink(e0, parts, scopes, allowed, texts, o + 8, es, 2, PppIface, o + 5, LowerLayers, VlanTerm, o + 2);
    NewConst(e0, parts, scopes, allowed, texts, o + 8, es, 3, PppIface, o + 5, Password, password);
    NewConst(e0, parts, scopes, allowed, texts, o + 8, es, 4, PppIface, o + 5, Username, username);
    NewConst(e0, parts, scopes, allowed, texts, o + 8, es, 5, PppIface, o + 5, UsernameDomainEnable, "1");
  }

  /** The IP interface. */
  ghost predicate IpConfigured(e0: Exec, texts: seq<string>, o: nat)
    requires |texts| == o + 18
  {
    && Creates(e0.flow, o + 6, IpIface.Path())
    && Sends(e0, texts, o + 9, IpIface.Path() + texts[o + 6] + "." + Alias.Text(), "Internet_PPPoE")
    && Sends(e0, texts, o + 9, IpIface.Path() + texts[o + 6] + "." + IPv4Enable.Text(), "1")
    && Sends(e0, texts, o + 9, IpIface.Path() + texts[o + 6] + "." + MaxMTUSize.Text(), "1492")
    && Sends(e0, texts, o + 9, IpIface.Path() + texts[o + 6] + "." + ConnName.Text(), "Internet_PPPoE")
    && Sends(e0, texts, o + 9, IpIface.Path() + texts[o + 6] + "." + ConnType.Text(), "PPPoE")
    && Sends(e0, texts, o + 9, IpIface.Path() + texts[o + 6] + "." + IPv6AddrType.Text(), "SLAAC")
    && Sends(e0, texts, o + 9, IpIface.Path() + texts[o + 6] + "." + ServiceType.Text(), "Internet")
  }

  lemma IpEntries(username: string, password: string)
    ensures InterfaceParts(username, password)[4].Assign?
      && LeafDetermines(InterfaceParts(username, password)[4].entries)
           && |InterfaceParts(username, password)[4].entries| == 7
    ensures InterfaceParts(username, password)[4].entries[0] == Entry(Instance(IpIface), Alias, Const("Internet_PPPoE"))
    ensures InterfaceParts(username, password)[4].entries[1] == Entry(Instance(IpIface), IPv4Enable, Const("1"))
    ensures InterfaceParts(username, password)[4].entries[2] == Entry(Instance(IpIface), MaxMTUSize, Const("1492"))
    ensures InterfaceParts(username, password)[4].entries[3] == Entry(Instance(IpIface), ConnName,
      Const("Internet_PPPoE"))
    ensures InterfaceParts(username, password)[4].entries[4] == Entry(Instance(IpIface), ConnType, Const("PPPoE"))
    ensures InterfaceParts(username, password)[4].entries[5] == Entry(Instance(IpIface), IPv6AddrType, Const("SLAAC"))
    ensures InterfaceParts(username, password)[4].entries[6] == Entry(Instance(IpIface), ServiceType, Const("Internet"))
  {
  }

  lemma IpIsConfigured(e0: Exec, parts: seq<Part>, scopes: seq<Scope>, allowed: set<Target>, texts: seq<string>, o: nat,
                       username: string, password: string)
    requires Runs(e0, parts, scopes, allowed, texts) && |parts| == o + 18
    requires parts[o + 6] == Create(IpIface)
    requires parts[o + 9] == InterfaceParts(username, password)[4]
    ensures |texts| == o + 18 && IpConfigured(e0, texts, o)
  {
    IpEntries(username, password);
    var es := InterfaceParts(username, password)[4].entries;
    NewConst(e0, parts, scopes, allowed, texts, o + 9, es, 0, IpIface, o + 6, Alias, "Internet_PPPoE");
    NewConst(e0, parts, scopes, allowed, texts, o + 9, es, 1, IpIface, o + 6, IPv4Enable, "1");
    NewConst(e0, parts, scopes, allowed, texts, o + 9, es, 2, IpIface, o + 6, MaxMTUSize, "1492");
    NewConst(e0, parts, scopes, allowed, texts, o + 9, es, 3, IpIface, o + 6, ConnName, "Internet_PPPoE");
    NewConst(e0, parts, scopes, allowed, texts, o + 9, es, 4, IpIface, o + 6, ConnType, "PPPoE");
    NewConst(e0, parts, scopes, allowed, texts, o + 9, es, 5, IpIface, o + 6, IPv6AddrType, "SLAAC");
    NewConst(e0, parts, scopes, allowed, texts, o + 9, es, 6, IpIface, o + 6, ServiceType, "Internet");
  }

  /** Address translation on the IP interface. */
  ghost predicate NatConfigured(e0: Exec, texts: seq<string>, o: nat)
    requires |texts| == o + 18
  {
    && Creates(e0.flow, o + 10, NatSetting.Path())
    && Creates(e0.flow, o + 6, IpIface.Path())
    && Sends(e0, texts, o + 11, NatSetting.Path() + texts[o + 10] + "." + Interface.Text(), IpIface.Path()
         + texts[o + 6] + ".")
  }

  lemma NatEntries()
    ensures NatParts()[1].Assign? && LeafDetermines(NatParts()[1].entries) && |NatParts()[1].entries| == 1
    ensures NatParts()[1].entries[0] == Entry(Instance(NatSetting), Interface, Pointer(Instance(IpIface)))
  {
  }

  lemma NatIsConfigured(e0: Exec, parts: seq<Part>, scopes: seq<Scope>, allowed: set<Target>, texts: seq<string>,
                        o: nat)
    requires Runs(e0, parts, scopes, allowed, texts) && |parts| == o + 18
    requires parts[o + 10] == Create(NatSetting)
    requires parts[o + 6] == Create(IpIface)
    requires parts[o + 11] == NatParts()[1]
    ensures |texts| == o + 18 && NatConfigured(e0, texts, o)
  {
    NatEntries();
    var es := NatParts()[1].entries;
    NewLink(e0, parts, scopes, allowed, texts, o + 11, es, 0, NatSetting, o + 10, Interface, IpIface, o + 6);
  }

  /** IPv6 on the IP interface. */
  ghost predicate IpSixConfigured(e0: Exec, texts: seq<string>, o: nat)
    requires |texts| == o + 18
  {
    && Creates(e0.flow, o + 6, IpIface.Path())
    && Sends(e0, texts, o + 12, IpIface.Path() + texts[o + 6] + "." + IPv6Enable.Text(), "1")
  }

  lemma IpSixEntries()
    ensures NatParts()[2].Assign? && LeafDetermines(NatParts()[2].entries) && |NatParts()[2].entries| == 1
    ensures NatParts()[2].entries[0] == Entry(Instance(IpIface), IPv6Enable, Const("1"))
  {
  }

  lemma IpSixIsConfigured(e0: Exec, parts: seq<Part>, scopes: seq<Scope>, allowed: set<Target>, texts: seq<string>,
                          o: nat)
    requires Runs(e0, parts, scopes, allowed, texts) && |parts| == o + 18
    requires parts[o + 6] == Create(IpIface)
    requires parts[o + 12] == NatParts()[2]
    ensures |texts| == o + 18 && IpSixConfigured(e0, texts, o)
  {
    IpSixEntries();
    var es := NatParts()[2].entries;
    NewConst(e0, parts, scopes, allowed, texts, o + 12, es, 0, IpIface, o + 6, IPv6Enable, "1");
  }

  /** The DHCPv6 client on the IP interface. */
  ghost predicate DhcpOnConfigured(e0: Exec, texts: seq<string>, o: nat)
    requires |texts| == o + 18
  {
    && Creates(e0.flow, o + 13, DhcpClient.Path())
    && Creates(e0.flow, o + 6, IpIface.Path())
    && Sends(e0, texts, o + 14, DhcpClient.Path() + texts[o + 13] + "." + Interface.Text(), IpIface.Path()
         + texts[o + 6] + ".")
  }

  lemma DhcpOnEntries(gi: string)
    ensures DhcpParts(gi)[1].Assign? && LeafDetermines(DhcpParts(gi)[1].entries) && |DhcpParts(gi)[1].entries| == 1
    ensures DhcpParts(gi)[1].entries[0] == Entry(Instance(DhcpClient), Interface, Pointer(Instance(IpIface)))
  {
  }

  lemma DhcpOnIsConfigured(e0: Exec, parts: seq<Part>, scopes: seq<Scope>, allowed: set<Target>, texts: seq<string>,
                           o: nat, gi: string)
    requires Runs(e0, parts, scopes, allowed, texts) && |parts| == o + 18
    requires parts[o + 13] == Create(DhcpClient)
    requires parts[o + 6] == Create(IpIface)
    requires parts[o + 14] == DhcpParts(gi)[1]
    ensures |texts| == o + 18 && DhcpOnConfigured(e0, texts, o)
  {
    DhcpOnEntries(gi);
    var es := DhcpParts(gi)[1].entries;
    NewLink(e0, parts, scopes, allowed, texts, o + 14, es, 0, DhcpClient, o + 13, Interface, IpIface, o + 6);
  }

  /** What the DHCPv6 client asks for. */
  ghost predicate DhcpConfigured(e0: Exec, texts: seq<string>, o: nat)
    requires |texts| == o + 18
  {
    && Creates(e0.flow, o + 13, DhcpClient.Path())
    && Sends(e0, texts, o + 15, DhcpClient.Path() + texts[o + 13] + "." + RequestAddresses.Text(), "0")
    && Sends(e0, texts, o + 15, DhcpClient.Path() + texts[o + 13] + "." + RequestPrefixes.Text(), "1")
    && Sends(e0, texts, o + 15, DhcpClient.Path() + texts[o + 13] + "." + RequestedOptions.Text(), "23")
    && Sends(e0, texts, o + 15, DhcpClient.Path() + texts[o + 13] + "." + EnableRaRouter.Text(), "1")
    && Sends(e0, texts, o + 15, DhcpClient.Path() + texts[o + 13] + "." + EnableSLAAC.Text(), "1")
  }

  lemma DhcpEntries(gi: string)
    ensures DhcpParts(gi)[2].Assign? && LeafDetermines(DhcpParts(gi)[2].entries) && |DhcpParts(gi)[2].entries| == 5
    ensures DhcpParts(gi)[2].entries[0] == Entry(Instance(DhcpClient), RequestAddresses, Const("0"))
    ensures DhcpParts(gi)[2].entries[1] == Entry(Instance(DhcpClient), RequestPrefixes, Const("1"))
    ensures DhcpParts(gi)[2].entries[2] == Entry(Instance(DhcpClient), RequestedOptions, Const("23"))
    ensures DhcpParts(gi)[2].entries[3] == Entry(Instance(DhcpClient), EnableRaRouter, Const("1"))
    ensures DhcpParts(gi)[2].entries[4] == Entry(Instance(DhcpClient), EnableSLAAC, Const("1"))
  {
  }

  lemma DhcpIsConfigured(e0: Exec, parts: seq<Part>, scopes: seq<Scope>, allowed: set<Target>, texts: seq<string>,
                         o: nat, gi: string)
    requires Runs(e0, parts, scopes, allowed, texts) && |parts| == o + 18
    requires parts[o + 13] == Create(DhcpClient)
    requires parts[o + 15] == DhcpParts(gi)[2]
    ensures |texts| == o + 18 && DhcpConfigured(e0, texts, o)
  {
    DhcpEntries(gi);
    var es := DhcpParts(gi)[2].entries;
    NewConst(e0, parts, scopes, allowed, texts, o + 15, es, 0, DhcpClient, o + 13, RequestAddresses, "0");
    NewConst(e0, parts, scopes, allowed, texts, o + 15, es, 1, DhcpClient, o + 13, RequestPrefixes, "1");
    NewConst(e0, parts, scopes, allowed, texts, o + 15, es, 2, DhcpClient, o + 13, RequestedOptions, "23");
    NewConst(e0, parts, scopes, allowed, texts, o + 15, es, 3, DhcpClient, o + 13, EnableRaRouter, "1");
    NewConst(e0, parts, scopes, allowed, texts, o + 15, es, 4, DhcpClient, o + 13, EnableSLAAC, "1");
  }

  /** The default gateway of both protocols. */
  ghost predicate GatewayConfigured(e0: Exec, texts: seq<string>, o: nat)
    requires |texts| == o + 18
  {
    && Sends(e0, texts, o + 16, Gateway.Text() + "." + IPv4GatewayType.Text(), "Manual")
    && Sends(e0, texts, o + 16, Gateway.Text() + "." + IPv4Gateway.Text(), "Internet_PPPoE")
    && Sends(e0, texts, o + 16, Gateway.Text() + "." + IPv6GatewayType.Text(), "Manual")
    && Sends(e0, texts, o + 16, Gateway.Text() + "." + IPv6Gateway.Text(), "Internet_PPPoE")
  }

  lemma GatewayEntries(gi: string)
    ensures DhcpParts(gi)[3].Assign? && LeafDetermines(DhcpParts(gi)[3].entries) && |DhcpParts(gi)[3].entries| == 4
    ensures DhcpParts(gi)[3].entries[0] == Entry(Gateway, IPv4GatewayType, Const("Manual"))
    ensures DhcpParts(gi)[3].entries[1] == Entry(Gateway, IPv4Gateway, Const("Internet_PPPoE"))
    ensures DhcpParts(gi)[3].entries[2] == Entry(Gateway, IPv6GatewayType, Const("Manual"))
    ensures DhcpParts(gi)[3].entries[3] == Entry(Gateway, IPv6Gateway, Const("Internet_PPPoE"))
  {
  }

  lemma GatewayIsConfigured(e0: Exec, parts: seq<Part>, scopes: seq<Scope>, allowed: set<Target>, texts: seq<string>,
                            o: nat, gi: string)
    requires Runs(e0, parts, scopes, allowed, texts) && |parts| == o + 18
    requires parts[o + 16] == DhcpParts(gi)[3]
    ensures |texts| == o + 18 && GatewayConfigured(e0, texts, o)
  {
    GatewayEntries(gi);
    var es := DhcpParts(gi)[3].entries;
    OldConst(e0, parts, scopes, allowed, texts, o + 16, es, 0, Gateway, IPv4GatewayType, "Manual");
    OldConst(e0, parts, scopes, allowed, texts, o + 16, es, 1, Gateway, IPv4Gateway, "Internet_PPPoE");
    OldConst(e0, parts, scopes, allowed, texts, o + 16, es, 2, Gateway, IPv6GatewayType, "Manual");
    OldConst(e0, parts, scopes, allowed, texts, o + 16, es, 3, Gateway, IPv6Gateway, "Internet_PPPoE");
  }

  /** Last of all everything is enabled, and the device marked. */
  ghost predicate EnableConfigured(e0: Exec, texts: seq<string>, o: nat, gi: string)
    requires |texts| == o + 18
  {
    && Creates(e0.flow, o + 13, DhcpClient.Path())
    && Creates(e0.flow, o + 0, EthLink.Path())
    && Creates(e0.flow, o + 2, VlanTerm.Path())
    && Creates(e0.flow, o + 6, IpIface.Path())
    && Creates(e0.flow, o + 10, NatSetting.Path())
    && Creates(e0.flow, o + 5, PppIface.Path())
    && Sends(e0, texts, o + 17, DhcpClient.Path() + texts[o + 13] + "." + Enable.Text(), "1")
    && Sends(e0, texts, o + 17, EthLink.Path() + texts[o + 0] + "." + Enable.Text(), "1")
    && Sends(e0, texts, o + 17, VlanTerm.Path() + texts[o + 2] + "." + Enable.Text(), "1")
    && Sends(e0, texts, o + 17, IpIface.Path() + texts[o + 6] + "." + Enable.Text(), "1")
    && Sends(e0, texts, o + 17, NatSetting.Path() + texts[o + 10] + "." + Enable.Text(), "1")
    && Sends(e0, texts, o + 17, PppIface.Path() + texts[o + 5] + "." + Enable.Text(), "1")
    && Sends(e0, texts, o + 17, ExistingGpon(gi).Text() + "." + Enable.Text(), "1")
    && Sends(e0, texts, o + 17, DeviceInfo.Text() + "." + ProvisioningCode.Text(), "helix.rPPP")
  }

  lemma EnableEntries(gi: string)
    ensures DhcpParts(gi)[4].Assign? && LeafDetermines(DhcpParts(gi)[4].entries) && |DhcpParts(gi)[4].entries| == 8
    ensures DhcpParts(gi)[4].entries[0] == Entry(Instance(DhcpClient), Enable, Const("1"))
    ensures DhcpParts(gi)[4].entries[1] == Entry(Instance(EthLink), Enable, Const("1"))
    ensures DhcpParts(gi)[4].entries[2] == Entry(Instance(VlanTerm), Enable, Const("1"))
    ensures DhcpParts(gi)[4].entries[3] == Entry(Instance(IpIface), Enable, Const("1"))
    ensures DhcpParts(gi)[4].entries[4] == Entry(Instance(NatSetting), Enable, Const("1"))
    ensures DhcpParts(gi)[4].entries[5] == Entry(Instance(PppIface), Enable, Const("1"))
    ensures DhcpParts(gi)[4].entries[6] == Entry(ExistingGpon(gi), Enable, Const("1"))
    ensures DhcpParts(gi)[4].entries[7] == Entry(DeviceInfo, ProvisioningCode, Const("helix.rPPP"))
  {
  }

  lemma EnableIsConfigured(e0: Exec, parts: seq<Part>, scopes: seq<Scope>, allowed: set<Target>, texts: seq<string>,
                           o: nat, gi: string)
    requires Runs(e0, parts, scopes, allowed, texts) && |parts| == o + 18
    requires parts[o + 13] == Create(DhcpClient)
    requires parts[o + 0] == Create(EthLink)
    requires parts[o + 2] == Create(VlanTerm)
    requires parts[o + 6] == Create(IpIface)
    requires parts[o + 10] == Create(NatSetting)
    requires parts[o + 5] == Create(PppIface)
    requires parts[o + 17] == DhcpParts(gi)[4]
    ensures |texts| == o + 18 && EnableConfigured(e0, texts, o, gi)
  {
    EnableEntries(gi);
    var es := DhcpParts(gi)[4].entries;
    NewConst(e0, parts, scopes, allowed, texts, o + 17, es, 0, DhcpClient, o + 13, Enable, "1");
    NewConst(e0, parts, scopes, allowed, texts, o + 17, es, 1, EthLink, o + 0, Enable, "1");
    NewConst(e0, parts, scopes, allowed, texts, o + 17, es, 2, VlanTerm, o + 2, Enable, "1");
    NewConst(e0, parts, scopes, allowed, texts, o + 17, es, 3, IpIface, o + 6, Enable, "1");
    NewConst(e0, parts, scopes, allowed, texts, o + 17, es, 4, NatSetting, o + 10, Enable, "1");
    NewConst(e0, parts, scopes, allowed, texts, o + 17, es, 5, PppIface, o + 5, Enable, "1");
    OldConst(e0, parts, scopes, allowed, texts, o + 17, es, 6, ExistingGpon(gi), Enable, "1");
    OldConst(e0, parts, scopes, allowed, texts, o + 17, es, 7, DeviceInfo, ProvisioningCode, "helix.rPPP");
  }

  // ---- the built-in flow ----

  /** A run of the built-in flow on a device that answers every step. */
  predicate LegacyRun(gponIdx: int, vlanID: int, username: string, password: string, texts: seq<string>) {
    Plain(username) && Plain(password) && Answers(LegacyStart(gponIdx, vlanID, username, password).flow, texts)
  }

  lemma LegacyRuns(gponIdx: int, vlanID: int, username: string, password: string, texts: seq<string>)
    returns (scopes: seq<Scope>)
    requires LegacyRun(gponIdx, vlanID, username, password, texts)
    ensures Runs(LegacyStart(gponIdx, vlanID, username, password), LegacyParts(gponIdx, vlanID, username, password),
      scopes, Reused(Itoa(gponIdx)), texts)
  {
    scopes := LegacyScoped(gponIdx, vlanID, username, password);
    LegacyFlowIsAssigned(gponIdx, vlanID, username, password);
    PartsFresh(LegacyParts(gponIdx, vlanID, username, password), LegacyVars(gponIdx));
  }

  /** Where the common steps begin: a GPON link that is created takes one step more. */
  function Head(gponIdx: int): nat {
    if gponIdx > 0 then 1 else 2
  }

  /** The parts from position o on are the steps that follow the GPON link. */
  predicate Laid(parts: seq<Part>, o: nat, gi: string, v: string, username: string, password: string) {
    && |parts| == o + 18
    && parts[o] == Create(EthLink) && parts[o + 1] == LinkParts(gi, v)[1] && parts[o + 2] == Create(VlanTerm)
    && parts[o + 3] == LinkParts(gi, v)[3] && parts[o + 4] == LinkParts(gi, v)[4]
    && parts[o + 5] == Create(PppIface) && parts[o + 6] == Create(IpIface)
    && parts[o + 7] == InterfaceParts(username, password)[2] && parts[o + 8] == InterfaceParts(username, password)[3]
    && parts[o + 9] == InterfaceParts(username, password)[4]
    && parts[o + 10] == Create(NatSetting) && parts[o + 11] == NatParts()[1] && parts[o + 12] == NatParts()[2]
    && parts[o + 13] == Create(DhcpClient) && parts[o + 14] == DhcpParts(gi)[1] && parts[o + 15] == DhcpParts(gi)[2]
    && parts[o + 16] == DhcpParts(gi)[3] && parts[o + 17] == DhcpParts(gi)[4]
  }

  lemma FivePieces<T>(a: seq<T>, b: seq<T>, c: seq<T>, d: seq<T>, e: seq<T>)
    requires |b| == 5 && |c| == 5 && |d| == 3 && |e| == 5
    ensures var all, o := a + b + c + d + e, |a|;
      && |all| == o + 18
      && all[o] == b[0] && all[o + 1] == b[1] && all[o + 2] == b[2] && all[o + 3] == b[3] && all[o + 4] == b[4]
      && all[o + 5] == c[0] && all[o + 6] == c[1] && all[o + 7] == c[2] && all[o + 8] == c[3] && all[o + 9] == c[4]
      && all[o + 10] == d[0] && all[o + 11] == d[1] && all[o + 12] == d[2]
      && all[o + 13] == e[0] && all[o + 14] == e[1] && all[o + 15] == e[2] && all[o + 16] == e[3] && all[o + 17] == e[4]
  {
  }

  lemma PiecesAreLaid(a: seq<Part>, gi: string, v: string, username: string, password: string)
    ensures Laid(a + LinkParts(gi, v) + InterfaceParts(username, password) + NatParts() + DhcpParts(gi), |a|, gi, v,
      username, password)
  {
    FivePieces(a, LinkParts(gi, v), InterfaceParts(username, password), NatParts(), DhcpParts(gi));
  }

  lemma LegacyIsLaid(gponIdx: int, vlanID: int, username: string, password: string)
    ensures Laid(LegacyParts(gponIdx, vlanID, username, password), Head(gponIdx), Itoa(gponIdx), Itoa(vlanID), username,
      password)
  {
    PiecesAreLaid(GponParts(gponIdx, Itoa(vlanID)), Itoa(gponIdx), Itoa(vlanID), username, password);
  }

  /** Every parameter that follows the GPON link, step by step, on the objects the device has numbered. */
  ghost predicate Configured(e0: Exec, texts: seq<string>, o: nat, gi: string, v: string, username: string,
                             password: string)
    requires |texts| == o + 18
  {
    && LinkConfigured(e0, texts, o, gi, v)
    && VlanConfigured(e0, texts, o, v)
    && TaggingConfigured(e0, texts, o)
    && StackConfigured(e0, texts, o)
    && PppConfigured(e0, texts, o, username, password)
    && IpConfigured(e0, texts, o)
    && NatConfigured(e0, texts, o)
    && IpSixConfigured(e0, texts, o)
    && DhcpOnConfigured(e0, texts, o)
    && DhcpConfigured(e0, texts, o)
    && GatewayConfigured(e0, texts, o)
    && EnableConfigured(e0, texts, o, gi)
  }

  lemma LaidIsConfigured(e0: Exec, parts: seq<Part>, scopes: seq<Scope>, allowed: set<Target>, texts: seq<string>,
                         o: nat,
                         gi: string, v: string, username: string, password: string)
    requires Runs(e0, parts, scopes, allowed, texts) && Laid(parts, o, gi, v, username, password) && v != ""
    ensures |texts| == o + 18 && Configured(e0, texts, o, gi, v, username, password)
  {
    LinkIsConfigured(e0, parts, scopes, allowed, texts, o, gi, v);
    VlanIsConfigured(e0, parts, scopes, allowed, texts, o, gi, v);
    TaggingIsConfigured(e0, parts, scopes, allowed, texts, o, gi, v);
    StackIsConfigured(e0, parts, scopes, allowed, texts, o, username, password);
    PppIsConfigured(e0, parts, scopes, allowed, texts, o, username, password);
    IpIsConfigured(e0, parts, scopes, allowed, texts, o, username, password);
    NatIsConfigured(e0, parts, scopes, allowed, texts, o);
    IpSixIsConfigured(e0, parts, scopes, allowed, texts, o);
    DhcpOnIsConfigured(e0, parts, scopes, allowed, texts, o, gi);
    DhcpIsConfigured(e0, parts, scopes, allowed, texts, o, gi);
    GatewayIsConfigured(e0, parts, scopes, allowed, texts, o, gi);
    EnableIsConfigured(e0, parts, scopes, allowed, texts, o, gi);
  }

  /** In every run of the flow, whatever numbers the device gives to the new objects, each step sends the parameters
      that set up the connection on exactly those objects, and the last one enables them. */
  lemma LegacyConfigures(gponIdx: int, vlanID: int, username: string, password: string, texts: seq<string>)
    requires LegacyRun(gponIdx, vlanID, username, password, texts)
    ensures |texts| == Head(gponIdx) + 18
    ensures Configured(LegacyStart(gponIdx, vlanID, username, password), texts, Head(gponIdx), Itoa(gponIdx),
      Itoa(vlanID), username, password)
  {
    var scopes := LegacyRuns(gponIdx, vlanID, username, password, texts);
    LegacyIsLaid(gponIdx, vlanID, username, password);
    ItoaChars(vlanID);
    LaidIsConfigured(LegacyStart(gponIdx, vlanID, username, password),
      LegacyParts(gponIdx, vlanID, username, password), scopes, Reused(Itoa(gponIdx)), texts, Head(gponIdx),
      Itoa(gponIdx), Itoa(vlanID), username, password);
  }

  lemma GivenLink(e0: Exec, parts: seq<Part>, scopes: seq<Scope>, allowed: set<Target>, texts: seq<string>, gi: string,
                  v: string, es: seq<Entry>)
    requires Runs(e0, parts, scopes, allowed, texts) && |parts| > 1 && parts[0] == Assign(es) && LeafDetermines(es)
    requires |es| == 2 && es[0] == Entry(ExistingGpon(gi), Alias, Const("TpLink_" + v))
      && es[1] == Entry(ExistingGpon(gi), LowerLayers, Pointer(Optical))
    ensures |texts| == |parts|
    ensures Sends(e0, texts, 0, ExistingGpon(gi).Text() + "." + Alias.Text(), "TpLink_" + v)
    ensures Sends(e0, texts, 0, ExistingGpon(gi).Text() + "." + LowerLayers.Text(), Optical.Text() + ".")
  {
    OldConst(e0, parts, scopes, allowed, texts, 0, es, 0, ExistingGpon(gi), Alias, "TpLink_" + v);
    OldPointer(e0, parts, scopes, allowed, texts, 0, es, 1, ExistingGpon(gi), LowerLayers, Optical);
  }

  lemma NewGponLink(e0: Exec, parts: seq<Part>, scopes: seq<Scope>, allowed: set<Target>, texts: seq<string>, v: string,
                    es: seq<Entry>)
    requires Runs(e0, parts, scopes, allowed, texts) && |parts| > 1 && parts[0] == Create(GponLink)
    requires parts[1] == Assign(es) && LeafDetermines(es)
    requires |es| == 2 && es[0] == Entry(Instance(GponLink), Alias, Const("TpLink_" + v))
      && es[1] == Entry(Instance(GponLink), LowerLayers, Pointer(Optical))
    ensures |texts| == |parts| && Creates(e0.flow, 0, GponLink.Path())
    ensures Sends(e0, texts, 1, GponLink.Path() + texts[0] + "." + Alias.Text(), "TpLink_" + v)
    ensures Sends(e0, texts, 1, GponLink.Path() + texts[0] + "." + LowerLayers.Text(), Optical.Text() + ".")
  {
    NewConst(e0, parts, scopes, allowed, texts, 1, es, 0, GponLink, 0, Alias, "TpLink_" + v);
    NewPointer(e0, parts, scopes, allowed, texts, 1, es, 1, GponLink, 0, LowerLayers, Optical);
  }

  lemma GponEntries(gponIdx: int, v: string) returns (es: seq<Entry>)
    ensures |es| == 2 && LeafDetermines(es)
    ensures var link := if gponIdx > 0 then ExistingGpon(Itoa(gponIdx)) else Instance(GponLink);
      es[0] == Entry(link, Alias, Const("TpLink_" + v)) && es[1] == Entry(link, LowerLayers, Pointer(Optical))
    ensures var parts := GponParts(gponIdx, v);
      if gponIdx > 0 then parts == [Assign(es)] else parts == [Create(GponLink), Assign(es)]
  {
    var link := if gponIdx > 0 then ExistingGpon(Itoa(gponIdx)) else Instance(GponLink);
    es := [Entry(link, Alias, Const("TpLink_" + v)), Entry(link, LowerLayers, Pointer(Optical))];
  }

  lemma GponSends(e0: Exec, parts: seq<Part>, scopes: seq<Scope>, allowed: set<Target>, texts: seq<string>,
                  gponIdx: int,
                  v: string)
    requires Runs(e0, parts, scopes, allowed, texts) && |parts| > 1
    requires parts[0] == GponParts(gponIdx, v)[0]
    requires gponIdx <= 0 ==> parts[1] == GponParts(gponIdx, v)[1]
    ensures |texts| == |parts| && GponConfigured(e0, texts, gponIdx, v)
  {
    var es := GponEntries(gponIdx, v);
    if gponIdx > 0 {
      GivenLink(e0, parts, scopes, allowed, texts, Itoa(gponIdx), v, es);
    } else {
      NewGponLink(e0, parts, scopes, allowed, texts, v, es);
    }
  }

  /** The GPON link that is given, or else a new one, is put on the optical interface. */
  ghost predicate GponConfigured(e0: Exec, texts: seq<string>, gponIdx: int, v: string)
    requires |texts| > 1
  {
    if gponIdx > 0 then
      && Sends(e0, texts, 0, ExistingGpon(Itoa(gponIdx)).Text() + "." + Alias.Text(), "TpLink_" + v)
      && Sends(e0, texts, 0, ExistingGpon(Itoa(gponIdx)).Text() + "." + LowerLayers.Text(), Optical.Text() + ".")
    else
      && Creates(e0.flow, 0, GponLink.Path())
      && Sends(e0, texts, 1, GponLink.Path() + texts[0] + "." + Alias.Text(), "TpLink_" + v)
      && Sends(e0, texts, 1, GponLink.Path() + texts[0] + "." + LowerLayers.Text(), Optical.Text() + ".")
  }

  lemma LegacyHead(gponIdx: int, vlanID: int, username: string, password: string)
    ensures var parts, a := LegacyParts(gponIdx, vlanID, username, password), GponParts(gponIdx, Itoa(vlanID));
      |a| <= |parts| && |a| == Head(gponIdx) && |parts| > 1 && parts[0] == a[0] && (gponIdx <= 0 ==> parts[1] == a[1])
  {
    var a, v, gi := GponParts(gponIdx, Itoa(vlanID)), Itoa(vlanID), Itoa(gponIdx);
    FrontStays(a, LinkParts(gi, v), InterfaceParts(username, password), NatParts(), DhcpParts(gi));
  }

  lemma FrontStays<T>(a: seq<T>, b: seq<T>, c: seq<T>, d: seq<T>, e: seq<T>)
    ensures a <= a + b + c + d + e
  {
  }

  /** In every run the GPON link is set up first. */
  lemma GponIsConfigured(gponIdx: int, vlanID: int, username: string, password: string, texts: seq<string>)
    requires LegacyRun(gponIdx, vlanID, username, password, texts)
    ensures |texts| > 1
      && GponConfigured(LegacyStart(gponIdx, vlanID, username, password), texts, gponIdx, Itoa(vlanID))
  {
    var scopes := LegacyRuns(gponIdx, vlanID, username, password, texts);
    LegacyHead(gponIdx, vlanID, username, password);
    GponSends(LegacyStart(gponIdx, vlanID, username, password), LegacyParts(gponIdx, vlanID, username, password),
      scopes,
      Reused(Itoa(gponIdx)), texts, gponIdx, Itoa(vlanID));
  }

  /** The objects, by path. */
  lemma ObjectPaths()
    ensures GponLink.Path() == "Device.X_TP_GPON.Link." && EthLink.Path() == "Device.Ethernet.Link."
    ensures VlanTerm.Path() == "Device.Ethernet.VLANTermination." && PppIface.Path() == "Device.PPP.Interface."
    ensures IpIface.Path() == "Device.IP.Interface." && NatSetting.Path() == "Device.NAT.InterfaceSetting."
    ensures DhcpClient.Path() == "Device.DHCPv6.Client." && Optical.Text() == "Device.Optical.Interface.1"
    ensures Gateway.Text() == "Device.X_TP_DefaultGateway" && DeviceInfo.Text() == "Device.DeviceInfo"
    ensures forall i :: ExistingGpon(i).Text() == "Device.X_TP_GPON.Link." + i
  {
  }

  /** The parameters of links and of the PPP interface, by name. */
  lemma LinkNames()
    ensures Alias.Text() == "Alias" && Enable.Text() == "Enable" && LowerLayers.Text() == "LowerLayers"
    ensures Interface.Text() == "Interface" && VLANID.Text() == "VLANID" && VLANMode.Text() == "X_TP_VLANMode"
    ensures MulticastStatus.Text() == "X_TP_MulticastStatus" && VLANEnable.Text() == "X_TP_VLANEnable"
    ensures AuthenticationProtocol.Text() == "AuthenticationProtocol" && Password.Text() == "Password"
    ensures Username.Text() == "Username" && UsernameDomainEnable.Text() == "X_TP_UsernameDomainEnable"
  {
  }

  /** Those of the IP interface and of the device. */
  lemma InterfaceNames()
    ensures IPv4Enable.Text() == "IPv4Enable" && IPv6Enable.Text() == "IPv6Enable" && MaxMTUSize.Text() == "MaxMTUSize"
    ensures ConnName.Text() == "X_TP_ConnName" && ConnType.Text() == "X_TP_ConnType"
    ensures IPv6AddrType.Text() == "X_TP_IPv6AddrType" && ServiceType.Text() == "X_TP_ServiceType"
    ensures ProvisioningCode.Text() == "ProvisioningCode"
  {
  }

  /** Those of the DHCPv6 client. */
  lemma ClientNames()
    ensures RequestAddresses.Text() == "RequestAddresses" && RequestPrefixes.Text() == "RequestPrefixes"
    ensures RequestedOptions.Text() == "RequestedOptions" && EnableRaRouter.Text() == "X_TP_EnableRaRouter"
    ensures EnableSLAAC.Text() == "X_TP_EnableSLAAC"
  {
  }

  /** Those of the default gateway. */
  lemma GatewayNames()
    ensures IPv4GatewayType.Text() == "IPv4DefaultGatewayType" && IPv4Gateway.Text() == "CustomIPv4DefaultGateway"
    ensures IPv6GatewayType.Text() == "IPv6DefaultGatewayType" && IPv6Gateway.Text() == "CustomIPv6DefaultGateway"
  {
  }

  /** What the flow is for: in every run the user name, the password and the VLAN of the task reach the PPP interface
      and the VLAN termination that the device has created. */
  lemma CredentialsReachTheDevice(gponIdx: int, vlanID: int, username: string, password: string, texts: seq<string>)
    requires LegacyRun(gponIdx, vlanID, username, password, texts)
    ensures |texts| == Head(gponIdx) + 18
    ensures var e0, o := LegacyStart(gponIdx, vlanID, username, password), Head(gponIdx);
      && Creates(e0.flow, o + 2, "Device.Ethernet.VLANTermination.") && Creates(e0.flow, o + 5, "Device.PPP.Interface.")
      && Sends(e0, texts, o + 3, "Device.Ethernet.VLANTermination." + texts[o + 2] + "." + "VLANID", Itoa(vlanID))
      && (username != "" ==>
            Sends(e0, texts, o + 8, "Device.PPP.Interface." + texts[o + 5] + "." + "Username", username))
      && (password != "" ==>
            Sends(e0, texts, o + 8, "Device.PPP.Interface." + texts[o + 5] + "." + "Password", password))
  {
    LegacyConfigures(gponIdx, vlanID, username, password, texts);
    ConfiguredCredentials(LegacyStart(gponIdx, vlanID, username, password), texts, Head(gponIdx), Itoa(gponIdx),
      Itoa(vlanID), username, password);
  }

  lemma ConfiguredCredentials(e0: Exec, texts: seq<string>, o: nat, gi: string, v: string, username: string,
                              password: string)
    requires |texts| == o + 18 && Configured(e0, texts, o, gi, v, username, password)
    ensures Creates(e0.flow, o + 2, "Device.Ethernet.VLANTermination.")
      && Creates(e0.flow, o + 5, "Device.PPP.Interface.")
    ensures Sends(e0, texts, o + 3, "Device.Ethernet.VLANTermination." + texts[o + 2] + "." + "VLANID", v)
    ensures username != "" ==>
      Sends(e0, texts, o + 8, "Device.PPP.Interface." + texts[o + 5] + "." + "Username", username)
    ensures password != "" ==>
      Sends(e0, texts, o + 8, "Device.PPP.Interface." + texts[o + 5] + "." + "Password", password)
  {
    assert VlanConfigured(e0, texts, o, v) && PppConfigured(e0, texts, o, username, password);
    ObjectPaths();
    LinkNames();
  }
}
