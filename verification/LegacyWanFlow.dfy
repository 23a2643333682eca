/** The built-in PPPoE flow used when a device has no driver: GPON link, Ethernet link,
    VLAN termination, PPP and IP interfaces, NAT, DHCPv6 and the final enables.

    The flow is written with its placeholders kept apart from the surrounding text and
    rendered to the executor's step type. Scoping rules on the written form give definite
    assignment and reference integrity of every run of the rendered one. */
module LegacyWanFlow {
  import opened GoStrings
  import opened Templates
  import opened Provisioning

  // ---- vocabulary ----

  /** The objects the flow creates. */
  datatype Slot = GponLink | EthLink | VlanTerm | PppIface | IpIface | NatSetting | DhcpClient {
    /** Object path that AddObject is sent for. */
    function Path(): string {
      match this
      case GponLink => "Device.X_TP_GPON.Link."
      case EthLink => "Device.Ethernet.Link."
      case VlanTerm => "Device.Ethernet.VLANTermination."
      case PppIface => "Device.PPP.Interface."
      case IpIface => "Device.IP.Interface."
      case NatSetting => "Device.NAT.InterfaceSetting."
      case DhcpClient => "Device.DHCPv6.Client."
    }

    /** Variable that receives the instance number. */
    function Name(): string {
      match this
      case GponLink => "gpon_idx"
      case EthLink => "eth"
      case VlanTerm => "vterm"
      case PppIface => "ppp"
      case IpIface => "ip"
      case NatSetting => "nat"
      case DhcpClient => "dhcpv6"
    }
  }

  /** An instance created by this flow, or an object that exists before it. */
  datatype Target = Instance(slot: Slot) | ExistingGpon(index: string) | Optical | Gateway | DeviceInfo {
    /** The object path without its final dot. */
    function Text(): string {
      match this
      case Instance(s) => s.Path() + Placeholder(s.Name())
      case ExistingGpon(i) => GponLink.Path() + i
      case Optical => "Device.Optical.Interface.1"
      case Gateway => "Device.X_TP_DefaultGateway"
      case DeviceInfo => "Device.DeviceInfo"
    }
  }

  datatype Leafs =
    | Alias | Enable | LowerLayers | Interface | VLANID
    | MulticastStatus | VLANEnable | VLANMode
    | AuthenticationProtocol | Password | Username | UsernameDomainEnable
    | IPv4Enable | IPv6Enable | MaxMTUSize | ConnName | ConnType | IPv6AddrType | ServiceType
    | RequestAddresses | RequestPrefixes | RequestedOptions | EnableRaRouter | EnableSLAAC
    | IPv4GatewayType | IPv4Gateway | IPv6GatewayType | IPv6Gateway | ProvisioningCode
  {
    function Text(): string {
      match this
      case Alias => "Alias"
      case Enable => "Enable"
      case LowerLayers => "LowerLayers"
      case Interface => "Interface"
      case VLANID => "VLANID"
      case MulticastStatus => "X_TP_MulticastStatus"
      case VLANEnable => "X_TP_VLANEnable"
      case VLANMode => "X_TP_VLANMode"
      case AuthenticationProtocol => "AuthenticationProtocol"
      case Password => "Password"
      case Username => "Username"
      case UsernameDomainEnable => "X_TP_UsernameDomainEnable"
      case IPv4Enable => "IPv4Enable"
      case IPv6Enable => "IPv6Enable"
      case MaxMTUSize => "MaxMTUSize"
      case ConnName => "X_TP_ConnName"
      case ConnType => "X_TP_ConnType"
      case IPv6AddrType => "X_TP_IPv6AddrType"
      case ServiceType => "X_TP_ServiceType"
      case RequestAddresses => "RequestAddresses"
      case RequestPrefixes => "RequestPrefixes"
      case RequestedOptions => "RequestedOptions"
      case EnableRaRouter => "X_TP_EnableRaRouter"
      case EnableSLAAC => "X_TP_EnableSLAAC"
      case IPv4GatewayType => "IPv4DefaultGatewayType"
      case IPv4Gateway => "CustomIPv4DefaultGateway"
      case IPv6GatewayType => "IPv6DefaultGatewayType"
      case IPv6Gateway => "CustomIPv6DefaultGateway"
      case ProvisioningCode => "ProvisioningCode"
    }
  }

  /** A constant, or the path of an object with its final dot. */
  datatype Value = Const(text: string) | Pointer(target: Target) {
    function Text(): string {
      match this
      case Const(s) => s
      case Pointer(t) => t.Text() + "."
    }
  }

  /** One parameter of a Set step: owner.leaf = value. */
  datatype Entry = Entry(owner: Target, leaf: Leafs, value: Value) {
    function Key(): string {
      owner.Text() + "." + leaf.Text()
    }
  }

  datatype Part = Create(slot: Slot) | Assign(entries: seq<Entry>)

  function Params(entries: seq<Entry>): map<string, string> {
    if entries == [] then map[]
    else Params(entries[..|entries| - 1])[entries[|entries| - 1].Key() := entries[|entries| - 1].value.Text()]
  }

  function RenderPart(part: Part): Step {
    match part
    case Create(s) => Step(AddObject, "", s.Path(), s.Name(), map[])
    case Assign(es) => Step(SetParams, "", "", "", Params(es))
  }

  function Render(parts: seq<Part>): (flow: Flow)
    ensures |flow| == |parts|
    ensures forall i | 0 <= i < |parts| :: flow[i] == RenderPart(parts[i])
  {
    seq(|parts|, i requires 0 <= i < |parts| => RenderPart(parts[i]))
  }

  // ---- the flow ----

  function Set(owner: Target, leaf: Leafs, text: string): Entry {
    Entry(owner, leaf, Const(text))
  }

  /** gponIdx > 0 reuses that GPON link; otherwise a link is created. */
  function GponParts(gponIdx: int, v: string): seq<Part> {
    var link := if gponIdx > 0 then ExistingGpon(Itoa(gponIdx)) else Instance(GponLink);
    (if gponIdx > 0 then [] else [Create(GponLink)])
    + [Assign([Set(link, Alias, "TpLink_" + v), Entry(link, LowerLayers, Pointer(Optical))])]
  }

  function LinkParts(gi: string, v: string): seq<Part> {
    var eth, vterm := Instance(EthLink), Instance(VlanTerm);
    [Create(EthLink),
     Assign([Set(eth, Alias, "ethlink_" + v), Set(eth, Enable, "1"),
       Entry(eth, LowerLayers, Pointer(ExistingGpon(gi)))]),
     Create(VlanTerm),
     Assign([Set(vterm, Alias, "VLAN_" + v), Set(vterm, Enable, "1"), Entry(vterm, LowerLayers, Pointer(eth)),
       Set(vterm, VLANID, v)]),
     Assign([Set(vterm, MulticastStatus, "1"), Set(vterm, VLANEnable, "1"), Set(vterm, VLANMode, "2")])]
  }

  function InterfaceParts(username: string, password: string): seq<Part> {
    var ppp, ip := Instance(PppIface), Instance(IpIface);
    [Create(PppIface),
     Create(IpIface),
     Assign([Entry(ip, LowerLayers, Pointer(ppp))]),
     Assign([Set(ppp, Alias, "Internet_PPPoE"), Set(ppp, AuthenticationProtocol, "AUTO_AUTH"),
             Entry(ppp, LowerLayers, Pointer(Instance(VlanTerm))),
             Set(ppp, Password, password), Set(ppp, Username, username), Set(ppp, UsernameDomainEnable, "1")]),
     Assign([Set(ip, Alias, "Internet_PPPoE"), Set(ip, IPv4Enable, "1"), Set(ip, MaxMTUSize, "1492"),
             Set(ip, ConnName, "Internet_PPPoE"), Set(ip, ConnType, "PPPoE"),
             Set(ip, IPv6AddrType, "SLAAC"), Set(ip, ServiceType, "Internet")])]
  }

  function NatParts(): seq<Part> {
    [Create(NatSetting),
     Assign([Entry(Instance(NatSetting), Interface, Pointer(Instance(IpIface)))]),
     Assign([Set(Instance(IpIface), IPv6Enable, "1")])]
  }

  function DhcpParts(gi: string): seq<Part> {
    var ip, dhcp := Instance(IpIface), Instance(DhcpClient);
    [Create(DhcpClient),
     Assign([Entry(dhcp, Interface, Pointer(ip))]),
     Assign([Set(dhcp, RequestAddresses, "0"), Set(dhcp, RequestPrefixes, "1"), Set(dhcp, RequestedOptions, "23"),
             Set(dhcp, EnableRaRouter, "1"), Set(dhcp, EnableSLAAC, "1")]),
     Assign([Set(Gateway, IPv4GatewayType, "Manual"), Set(Gateway, IPv4Gateway, "Internet_PPPoE"),
             Set(Gateway, IPv6GatewayType, "Manual"), Set(Gateway, IPv6Gateway, "Internet_PPPoE")]),
     Assign([Set(dhcp, Enable, "1"), Set(Instance(EthLink), Enable, "1"), Set(Instance(VlanTerm), Enable, "1"),
             Set(ip, Enable, "1"), Set(Instance(NatSetting), Enable, "1"), Set(Instance(PppIface), Enable, "1"),
             Set(ExistingGpon(gi), Enable, "1"), Set(DeviceInfo, ProvisioningCode, "helix.rPPP")])]
  }

  function LegacyParts(gponIdx: int, vlanID: int, username: string, password: string): seq<Part> {
    var v, gi := Itoa(vlanID), Itoa(gponIdx);
    GponParts(gponIdx, v) + LinkParts(gi, v) + InterfaceParts(username, password) + NatParts() + DhcpParts(gi)
  }

  function LegacyVars(gponIdx: int): Vars {
    if gponIdx > 0 then map["gpon_idx" := Itoa(gponIdx)] else map[]
  }

  /** The executor of rendered parts in its initial state; there is no driver. */
  function PartsStart(parts: seq<Part>, vars: Vars): Exec {
    Start(Render(parts), Mask(Render(parts), FeaturesOf(map[], vars)), vars)
  }

  function LegacyStart(gponIdx: int, vlanID: int, username: string, password: string): Exec {
    PartsStart(LegacyParts(gponIdx, vlanID, username, password), LegacyVars(gponIdx))
  }

  // ---- scoping ----

  /** Opens no placeholder. */
  predicate Plain(s: string) {
    '{' !in s
  }

  /** Slots created so far. */
  type Scope = set<Slot>

  predicate OwnerScoped(t: Target, scope: Scope) {
    match t
    case Instance(s) => s in scope
    case ExistingGpon(i) => Plain(i)
    case _ => true
  }

  /** The value of a reference leaf is a pointer to an object in scope or in allowed. */
  predicate ValueScoped(leaf: Leafs, value: Value, scope: Scope, allowed: set<Target>) {
    match value
    case Const(s) => Plain(s) && !leaf.LowerLayers? && !leaf.Interface?
    case Pointer(t) => if t.Instance? then t.slot in scope else t in allowed && OwnerScoped(t, scope)
  }

  predicate EntryScoped(e: Entry, scope: Scope, allowed: set<Target>) {
    OwnerScoped(e.owner, scope) && ValueScoped(e.leaf, e.value, scope, allowed)
  }

  predicate PartScoped(part: Part, scope: Scope, allowed: set<Target>) {
    match part
    case Create(s) => s !in scope
    case Assign(es) => forall i | 0 <= i < |es| :: EntryScoped(es[i], scope, allowed)
  }

  function Extend(scope: Scope, part: Part): Scope {
    match part
    case Create(s) => scope + {s}
    case Assign(_) => scope
  }

  /** scopes[i] is the scope in which part i is well formed. */
  predicate Scoped(parts: seq<Part>, scopes: seq<Scope>, allowed: set<Target>) {
    && |scopes| == |parts| + 1
    && (forall i | 0 <= i < |parts| :: PartScoped(parts[i], scopes[i], allowed)
         && scopes[i + 1] == Extend(scopes[i], parts[i]))
  }

  lemma ScopedConcat(a: seq<Part>, b: seq<Part>, sa: seq<Scope>, sb: seq<Scope>, allowed: set<Target>)
    requires Scoped(a, sa, allowed) && Scoped(b, sb, allowed) && sa[|a|] == sb[0]
    ensures Scoped(a + b, sa + sb[1..], allowed) && (sa + sb[1..])[|a + b|] == sb[|b|]
  {
    var parts, scopes := a + b, sa + sb[1..];
    forall i | 0 <= i < |parts| ensures PartScoped(parts[i], scopes[i], allowed)
      && scopes[i + 1] == Extend(scopes[i], parts[i]) {
      if i >= |a| {
        assert parts[i] == b[i - |a|] && scopes[i] == sb[i - |a|] && scopes[i + 1] == sb[i - |a| + 1];
      } else {
        assert parts[i] == a[i] && scopes[i] == sa[i] && scopes[i + 1] == sa[i + 1];
      }
    }
  }

  // ---- text of scoped parts ----

  /** Leaves whose value is the path of another object. */
  predicate IsReference(leaf: string) {
    leaf == "LowerLayers" || leaf == "Interface"
  }

  /** A leaf name holds no brace and no dot, and only two of them are references. */
  predicate IsWord(l: Leafs) {
    Plain(l.Text()) && '.' !in l.Text() && (IsReference(l.Text()) ==> l.LowerLayers? || l.Interface?)
  }

  lemma LinkLeafsAreWords(l: Leafs)
    requires l.Alias? || l.Enable? || l.LowerLayers? || l.Interface? || l.VLANID?
    ensures IsWord(l)
  {
  }

  lemma VlanLeafsAreWords(l: Leafs)
    requires l.MulticastStatus? || l.VLANEnable? || l.VLANMode?
    ensures IsWord(l)
  {
  }

  lemma LoginLeafsAreWords(l: Leafs)
    requires l.Password? || l.Username? || l.AuthenticationProtocol?
    ensures IsWord(l)
  {
  }

  lemma DomainLeafIsWord(l: Leafs)
    requires l.UsernameDomainEnable?
    ensures IsWord(l)
  {
  }

  lemma ProtocolLeafsAreWords(l: Leafs)
    requires l.IPv4Enable? || l.IPv6Enable? || l.MaxMTUSize?
    ensures IsWord(l)
  {
  }

  lemma ConnectionLeafsAreWords(l: Leafs)
    requires l.ConnName? || l.ConnType?
    ensures IsWord(l)
  {
  }

  lemma ServiceLeafsAreWords(l: Leafs)
    requires l.IPv6AddrType? || l.ServiceType?
    ensures IsWord(l)
  {
  }

  lemma DhcpLeafsAreWords(l: Leafs)
    requires l.RequestAddresses? || l.RequestPrefixes? || l.RequestedOptions?
    ensures IsWord(l)
  {
  }

  lemma RouterLeafsAreWords(l: Leafs)
    requires l.EnableRaRouter? || l.EnableSLAAC?
    ensures IsWord(l)
  {
  }

  lemma GatewayTypeV4IsWord(l: Leafs)
    requires l.IPv4GatewayType?
    ensures IsWord(l)
  {
  }

  lemma GatewayV4IsWord(l: Leafs)
    requires l.IPv4Gateway?
    ensures IsWord(l)
  {
  }

  lemma GatewayTypeV6IsWord(l: Leafs)
    requires l.IPv6GatewayType?
    ensures IsWord(l)
  {
  }

  lemma GatewayV6IsWord(l: Leafs)
    requires l.IPv6Gateway?
    ensures IsWord(l)
  {
  }

  lemma ProvisioningCodeIsWord(l: Leafs)
    requires l.ProvisioningCode?
    ensures IsWord(l)
  {
  }

  lemma LeafsAreWords(l: Leafs)
    ensures IsWord(l)
  {
    if l.Alias? || l.Enable? || l.LowerLayers? || l.Interface? || l.VLANID? {
      LinkLeafsAreWords(l);
    } else if l.MulticastStatus? || l.VLANEnable? || l.VLANMode? {
      VlanLeafsAreWords(l);
    } else if l.Password? || l.Username? || l.AuthenticationProtocol? {
      LoginLeafsAreWords(l);
    } else if l.UsernameDomainEnable? {
      DomainLeafIsWord(l);
    } else if l.IPv4Enable? || l.IPv6Enable? || l.MaxMTUSize? {
      ProtocolLeafsAreWords(l);
    } else if l.ConnName? || l.ConnType? {
      ConnectionLeafsAreWords(l);
    } else if l.IPv6AddrType? || l.ServiceType? {
      ServiceLeafsAreWords(l);
    } else if l.RequestAddresses? || l.RequestPrefixes? || l.RequestedOptions? {
      DhcpLeafsAreWords(l);
    } else if l.EnableRaRouter? || l.EnableSLAAC? {
      RouterLeafsAreWords(l);
    } else if l.IPv4GatewayType? {
      GatewayTypeV4IsWord(l);
    } else if l.IPv4Gateway? {
      GatewayV4IsWord(l);
    } else if l.IPv6GatewayType? {
      GatewayTypeV6IsWord(l);
    } else if l.IPv6Gateway? {
      GatewayV6IsWord(l);
    } else {
      ProvisioningCodeIsWord(l);
    }
  }

  lemma SlotsArePlain(s: Slot)
    ensures Plain(s.Path()) && Plain(s.Name()) && '}' !in s.Name() && s.Name() != ""
  {
    PathsArePlain(s);
    NamesArePlain(s);
  }

  lemma PathsArePlain(s: Slot)
    ensures Plain(s.Path())
  {
  }

  lemma NamesArePlain(s: Slot)
    ensures Plain(s.Name()) && '}' !in s.Name() && s.Name() != ""
  {
  }

  lemma SlotNamesDiffer(s: Slot, t: Slot)
    requires s != t
    ensures s.Name() != t.Name()
  {
    assert GponLink.Name()[0] == 'g' && EthLink.Name()[0] == 'e' && VlanTerm.Name()[0] == 'v' && PppIface.Name()[0] ==
      'p';
    assert IpIface.Name()[0] == 'i' && NatSetting.Name()[0] == 'n' && DhcpClient.Name()[0] == 'd';
  }

  lemma PlainBound(s: string, names: set<string>)
    requires Plain(s)
    ensures Bound(s, names) && forall vars :: Simultaneous(s, vars) == s
  {
    assert s + "" == s;
    OverText(s, "", map[]);
    forall vars ensures Simultaneous(s, vars) == s { OverText(s, "", vars); }
  }

  lemma OneHole(o: string, name: string, tail: string, vars: Vars)
    requires Plain(o) && Plain(name) && '}' !in name && Plain(tail)
    ensures var t := o + Placeholder(name) + tail;
      && Flat(t) && Holes(t) == {name}
      && (name in vars ==> Simultaneous(t, vars) == o + vars[name] + tail)
  {
    assert o + Placeholder(name) + tail == o + (Placeholder(name) + tail);
    OverText(o, Placeholder(name) + tail, vars);
    OverHole(name, tail, vars);
    PlainBound(tail, {});
  }

  lemma InstanceText(s: Slot, tail: string, vars: Vars)
    requires Plain(tail)
    ensures var t := s.Path() + Placeholder(s.Name()) + tail;
      && Flat(t) && Holes(t) == {s.Name()}
      && (s.Name() in vars ==> Simultaneous(t, vars) == s.Path() + vars[s.Name()] + tail)
  {
    SlotsArePlain(s);
    OneHole(s.Path(), s.Name(), tail, vars);
  }

  function Names(scope: Scope): set<string> {
    set s | s in scope :: s.Name()
  }

  lemma TargetText(t: Target, tail: string, scope: Scope, names: set<string>)
    requires OwnerScoped(t, scope) && Plain(tail) && Names(scope) <= names
    ensures Bound(t.Text() + tail, names)
  {
    if t.Instance? {
      InstanceText(t.slot, tail, map[]);
      assert t.slot.Name() in Names(scope);
    } else {
      SlotsArePlain(GponLink);
      PlainBound(t.Text() + tail, names);
    }
  }

  lemma EntryBound(e: Entry, scope: Scope, allowed: set<Target>, names: set<string>)
    requires EntryScoped(e, scope, allowed) && Names(scope) <= names
    ensures Bound(e.Key(), names) && Bound(e.value.Text(), names)
  {
    LeafsAreWords(e.leaf);
    assert e.Key() == e.owner.Text() + ("." + e.leaf.Text());
    TargetText(e.owner, "." + e.leaf.Text(), scope, names);
    match e.value {
      case Const(s) => PlainBound(s, names);
      case Pointer(t) => TargetText(t, ".", scope, names);
    }
  }

  lemma {:induction false} ParamsComeFromEntries(entries: seq<Entry>, k: string) returns (i: nat)
    requires k in Params(entries)
    ensures i < |entries| && k == entries[i].Key() && Params(entries)[k] == entries[i].value.Text()
  {
    var n := |entries| - 1;
    if k == entries[n].Key() {
      i := n;
    } else {
      i := ParamsComeFromEntries(entries[..n], k);
    }
  }

  lemma PartBound(part: Part, scope: Scope, allowed: set<Target>, names: set<string>)
    requires PartScoped(part, scope, allowed) && Names(scope) <= names
    ensures StepBound(RenderPart(part), names)
    ensures Names(Extend(scope, part)) <= names + Binds(RenderPart(part))
  {
    var step := RenderPart(part);
    if part.Create? { SlotsArePlain(part.slot); }
    PlainBound(step.path, names);
    forall k | k in step.params ensures Bound(k, names) && Bound(step.params[k], names) {
      var i := ParamsComeFromEntries(part.entries, k);
      EntryBound(part.entries[i], scope, allowed, names);
    }
  }

  /** Scoped parts render to a flow that passes the definite-assignment check. */
  lemma {:induction false} ScopedIsAssigned(parts: seq<Part>, i: nat, on: seq<bool>, scopes: seq<Scope>,
                                            allowed: set<Target>, names: set<string>)
    requires i <= |parts| == |on| && (forall j | 0 <= j < |on| :: on[j])
    requires Scoped(parts, scopes, allowed) && Names(scopes[i]) <= names
    ensures Assigned(Render(parts), on, names, i)
    decreases |parts| - i
  {
    if i < |parts| {
      PartBound(parts[i], scopes[i], allowed, names);
      ScopedIsAssigned(parts, i + 1, on, scopes, allowed, names + Binds(RenderPart(parts[i])));
    }
  }

  // ---- runs of a scoped flow ----

  /** Paths of the objects created by the |texts| steps from position i. */
  function CreatedFrom(flow: Flow, i: nat, texts: seq<string>): set<string> {
    set j | 0 <= j < |texts| && i + j < |flow| && flow[i + j].kind == AddObject :: flow[i + j].path + texts[j] + "."
  }

  /** The objects created by the steps from position i are all among created. */
  predicate Covers(created: set<string>, flow: Flow, i: nat, texts: seq<string>)
    decreases |texts|
  {
    texts != [] && i < |flow| ==>
      && (flow[i].kind == AddObject ==> flow[i].path + texts[0] + "." in created)
      && Covers(created, flow, i + 1, texts[1..])
  }

  lemma {:induction false} CreatedAreCovered(created: set<string>, flow: Flow, i: nat, texts: seq<string>)
    requires forall j | 0 <= j < |texts| && i + j < |flow| && flow[i + j].kind == AddObject ::
      flow[i + j].path + texts[j] + "." in created
    ensures Covers(created, flow, i, texts)
    decreases |texts|
  {
    if texts != [] && i < |flow| {
      assert flow[i + 0] == flow[i];
      forall j | 0 <= j < |texts| - 1 && i + 1 + j < |flow| && flow[i + 1 + j].kind == AddObject
        ensures flow[i + 1 + j].path + texts[1..][j] + "." in created
      {
        assert flow[i + (j + 1)].path + texts[j + 1] + "." in created;
      }
      CreatedAreCovered(created, flow, i + 1, texts[1..]);
    }
  }

  predicate SlotLive(s: Slot, vars: Vars, created: set<string>) {
    s.Name() in vars && s.Path() + vars[s.Name()] + "." in created
  }

  /** Every slot in scope is bound to an object in created. */
  predicate Live(scope: Scope, vars: Vars, created: set<string>) {
    forall s {:trigger SlotLive(s, vars, created)} | s in scope :: SlotLive(s, vars, created)
  }

  lemma LiveStep(scope: Scope, vars: Vars, created: set<string>, slot: Slot, text: string)
    requires Live(scope, vars, created) && slot !in scope && slot.Path() + text + "." in created
    ensures Live(scope + {slot}, vars[slot.Name() := text], created)
  {
    forall s | s in scope + {slot} ensures SlotLive(s, vars[slot.Name() := text], created) {
      if s != slot {
        assert SlotLive(s, vars, created);
        SlotNamesDiffer(s, slot);
      }
    }
  }

  /** e has reached position i of the rendered parts. */
  predicate Reached(e: Exec, parts: seq<Part>, i: nat, scopes: seq<Scope>, created: set<string>) {
    && i <= |parts| && |scopes| == |parts| + 1 && e.flow == Render(parts) && e.cur == i
    && |e.on| == |parts| && (forall j | 0 <= j < |e.on| :: e.on[j])
    && Live(scopes[i], e.vars, created)
  }

  lemma ReachedStep(e: Exec, parts: seq<Part>, i: nat, scopes: seq<Scope>, allowed: set<Target>, created: set<string>,
                    text: string)
    requires i < |parts| && Scoped(parts, scopes, allowed) && Reached(e, parts, i, scopes, created)
    requires e.flow[i].kind == AddObject ==> e.flow[i].path + text + "." in created
    ensures Reached(e.OnReply(text), parts, i + 1, scopes, created)
  {
    assert e.flow[i] == RenderPart(parts[i]) && scopes[i + 1] == Extend(scopes[i], parts[i]);
    assert PartScoped(parts[i], scopes[i], allowed);
    if parts[i].Create? {
      SlotsArePlain(parts[i].slot);
      LiveStep(scopes[i], e.vars, created, parts[i].slot, text);
    }
  }

  lemma {:induction false} ReachedRun(e: Exec, parts: seq<Part>, i: nat, scopes: seq<Scope>, allowed: set<Target>,
                                      created: set<string>, texts: seq<string>)
    requires Scoped(parts, scopes, allowed) && Reached(e, parts, i, scopes, created) && i + |texts| <= |parts|
    requires Covers(created, e.flow, i, texts)
    ensures Reached(After(e, texts), parts, i + |texts|, scopes, created)
    decreases |texts|
  {
    if texts != [] {
      ReachedStep(e, parts, i, scopes, allowed, created, texts[0]);
      ReachedRun(e.OnReply(texts[0]), parts, i + 1, scopes, allowed, created, texts[1..]);
    }
  }

  function Paths(targets: set<Target>): set<string> {
    set t | t in targets :: t.Text() + "."
  }

  /** Every reference parameter of the step resolves into known. */
  predicate ReferencesIn(step: Step, vars: Vars, known: set<string>) {
    forall k | k in step.params && IsReference(Leaf(k)) :: Simultaneous(step.params[k], vars) in known
  }

  lemma EntryReference(e: Entry, scope: Scope, allowed: set<Target>, vars: Vars, created: set<string>)
    requires EntryScoped(e, scope, allowed) && Live(scope, vars, created) && IsReference(Leaf(e.Key()))
    ensures Simultaneous(e.value.Text(), vars) in created + Paths(allowed)
  {
    LeafsAreWords(e.leaf);
    LeafOfPath(e.owner.Text(), e.leaf.Text());
    var t := e.value.target;
    if t.Instance? {
      assert SlotLive(t.slot, vars, created);
      InstanceText(t.slot, ".", vars);
    } else {
      SlotsArePlain(GponLink);
      PlainBound(t.Text() + ".", {});
      assert t.Text() + "." in Paths(allowed);
    }
  }

  lemma ReachedReferences(e: Exec, parts: seq<Part>, i: nat, scopes: seq<Scope>, allowed: set<Target>,
                          created: set<string>)
    requires i < |parts| && Scoped(parts, scopes, allowed) && Reached(e, parts, i, scopes, created)
    ensures ReferencesIn(e.Current(), e.vars, created + Paths(allowed))
  {
    var step := e.Current();
    assert step == RenderPart(parts[i]) && PartScoped(parts[i], scopes[i], allowed);
    forall k | k in step.params && IsReference(Leaf(k)) ensures Simultaneous(step.params[k], e.vars) in created
      + Paths(allowed) {
      var j := ParamsComeFromEntries(parts[i].entries, k);
      EntryReference(parts[i].entries[j], scopes[i], allowed, e.vars, created);
    }
  }

  /** All steps of e are active and none has been answered. */
  predicate Fresh(e: Exec, parts: seq<Part>) {
    e.flow == Render(parts) && e.cur == 0 && |e.on| == |parts| && forall j | 0 <= j < |e.on| :: e.on[j]
  }

  lemma FreshStart(parts: seq<Part>, on: seq<bool>, vars: Vars)
    requires |on| == |parts| && forall j | 0 <= j < |on| :: on[j]
    ensures Fresh(Start(Render(parts), on, vars), parts)
  {
  }

  lemma MaskFresh(parts: seq<Part>, features: Features, vars: Vars)
    ensures Fresh(Start(Render(parts), Mask(Render(parts), features), vars), parts)
  {
    var on := Mask(Render(parts), features);
    forall j | 0 <= j < |parts| ensures on[j] {
      assert Render(parts)[j] == RenderPart(parts[j]);
      UnconditionalStepsRun(Render(parts), features, j);
    }
    FreshStart(parts, on, vars);
  }

  lemma PartsFresh(parts: seq<Part>, vars: Vars)
    ensures Fresh(PartsStart(parts, vars), parts) && PartsStart(parts, vars).vars == vars
  {
    MaskFresh(parts, FeaturesOf(map[], vars), vars);
  }

  lemma PartsAssigned(parts: seq<Part>, scopes: seq<Scope>, allowed: set<Target>, vars: Vars)
    requires Scoped(parts, scopes, allowed) && scopes[0] == {}
    ensures var e := PartsStart(parts, vars); Assigned(e.flow, e.on, vars.Keys, 0)
  {
    PartsFresh(parts, vars);
    ScopedIsAssigned(parts, 0, PartsStart(parts, vars).on, scopes, allowed, vars.Keys);
  }

  lemma {:induction false} CursorWhenAllOn(e: Exec, texts: seq<string>)
    requires |e.on| == |e.flow| && e.cur <= |e.flow| && forall j | 0 <= j < |e.on| :: e.on[j]
    ensures var e' := After(e, texts);
      e'.flow == e.flow && e'.cur == if e.cur + |texts| < |e.flow| then e.cur + |texts| else |e.flow|
    decreases |texts|
  {
    if texts != [] {
      CursorWhenAllOn(e.OnReply(texts[0]), texts[1..]);
    }
  }

  lemma PartsReferences(e0: Exec, parts: seq<Part>, scopes: seq<Scope>, allowed: set<Target>, texts: seq<string>)
    requires Scoped(parts, scopes, allowed) && scopes[0] == {} && Fresh(e0, parts)
    ensures var e := After(e0, texts);
      && e.flow == Render(parts)
      && (!e.Done() ==> ReferencesIn(e.Current(), e.vars, CreatedFrom(Render(parts), 0, texts) + Paths(allowed)))
  {
    CursorWhenAllOn(e0, texts);
    if |texts| < |parts| {
      var created := CreatedFrom(Render(parts), 0, texts);
      CreatedAreCovered(created, Render(parts), 0, texts);
      ReachedRun(e0, parts, 0, scopes, allowed, created, texts);
      ReachedReferences(After(e0, texts), parts, |texts|, scopes, allowed, created);
    }
  }

  // ---- the legacy flow is scoped ----

  function GponScopes(gponIdx: int): seq<Scope> {
    if gponIdx > 0 then [{}, {}] else [{}, {GponLink}, {GponLink}]
  }

  function LinkScopes(s0: Scope): seq<Scope> {
    var s1 := s0 + {EthLink};
    var s2 := s1 + {VlanTerm};
    [s0, s1, s1, s2, s2, s2]
  }

  function InterfaceScopes(s0: Scope): seq<Scope> {
    var s1 := s0 + {PppIface};
    var s2 := s1 + {IpIface};
    [s0, s1, s2, s2, s2, s2]
  }

  function NatScopes(s0: Scope): seq<Scope> {
    var s1 := s0 + {NatSetting};
    [s0, s1, s1, s1]
  }

  function DhcpScopes(s0: Scope): seq<Scope> {
    var s1 := s0 + {DhcpClient};
    [s0, s1, s1, s1, s1, s1]
  }

  function Reused(gi: string): set<Target> {
    {Optical, ExistingGpon(gi)}
  }

  lemma GponScoped(gponIdx: int, v: string, allowed: set<Target>)
    requires Plain(v) && Optical in allowed
    ensures Scoped(GponParts(gponIdx, v), GponScopes(gponIdx), allowed)
  {
    ItoaChars(gponIdx);
  }

  lemma LinkScoped(gi: string, v: string, s0: Scope, allowed: set<Target>)
    requires Plain(gi) && Plain(v) && ExistingGpon(gi) in allowed && s0 <= {GponLink}
    ensures Scoped(LinkParts(gi, v), LinkScopes(s0), allowed)
  {
  }

  lemma InterfaceScoped(username: string, password: string, s0: Scope, allowed: set<Target>)
    requires Plain(username) && Plain(password) && VlanTerm in s0 && PppIface !in s0 && IpIface !in s0
    ensures Scoped(InterfaceParts(username, password), InterfaceScopes(s0), allowed)
  {
    PppSettingsScoped(username, password, s0 + {PppIface} + {IpIface}, allowed);
    IpSettingsScoped(username, password, s0 + {PppIface} + {IpIface}, allowed);
  }

  lemma PppSettingsScoped(username: string, password: string, scope: Scope, allowed: set<Target>)
    requires Plain(username) && Plain(password) && VlanTerm in scope && PppIface in scope
    ensures PartScoped(InterfaceParts(username, password)[3], scope, allowed)
  {
  }

  lemma IpSettingsScoped(username: string, password: string, scope: Scope, allowed: set<Target>)
    requires IpIface in scope
    ensures PartScoped(InterfaceParts(username, password)[4], scope, allowed)
  {
  }

  lemma NatScoped(s0: Scope, allowed: set<Target>)
    requires IpIface in s0 && NatSetting !in s0
    ensures Scoped(NatParts(), NatScopes(s0), allowed)
  {
  }

  lemma DhcpScoped(gi: string, s0: Scope, allowed: set<Target>)
    requires Plain(gi) && {EthLink, VlanTerm, PppIface, IpIface, NatSetting} <= s0 && DhcpClient !in s0
    ensures Scoped(DhcpParts(gi), DhcpScopes(s0), allowed)
  {
    DhcpSettingsScoped(gi, s0 + {DhcpClient}, allowed);
    EnablesScoped(gi, s0 + {DhcpClient}, allowed);
  }

  lemma DhcpSettingsScoped(gi: string, scope: Scope, allowed: set<Target>)
    requires DhcpClient in scope
    ensures PartScoped(DhcpParts(gi)[2], scope, allowed) && PartScoped(DhcpParts(gi)[3], scope, allowed)
  {
  }

  lemma EnablesScoped(gi: string, scope: Scope, allowed: set<Target>)
    requires Plain(gi) && {EthLink, VlanTerm, PppIface, IpIface, NatSetting, DhcpClient} <= scope
    ensures PartScoped(DhcpParts(gi)[4], scope, allowed)
  {
  }

  lemma LegacyScoped(gponIdx: int, vlanID: int, username: string, password: string) returns (scopes: seq<Scope>)
    requires Plain(username) && Plain(password)
    ensures Scoped(LegacyParts(gponIdx, vlanID, username, password), scopes, Reused(Itoa(gponIdx)))
    ensures scopes[0] == {}
  {
    var v, gi := Itoa(vlanID), Itoa(gponIdx);
    var allowed := Reused(gi);
    ItoaChars(vlanID);
    ItoaChars(gponIdx);
    var a, b, c, d := GponParts(gponIdx, v), LinkParts(gi, v), InterfaceParts(username, password), NatParts();
    var s0: Scope := if gponIdx > 0 then {} else {GponLink};
    var s1 := s0 + {EthLink} + {VlanTerm};
    var s2 := s1 + {PppIface} + {IpIface};
    GponScoped(gponIdx, v, allowed);
    LinkScoped(gi, v, s0, allowed);
    InterfaceScoped(username, password, s1, allowed);
    NatScoped(s2, allowed);
    DhcpScoped(gi, s2 + {NatSetting}, allowed);
    ScopedConcat(a, b, GponScopes(gponIdx), LinkScopes(s0), allowed);
    var ab := GponScopes(gponIdx) + LinkScopes(s0)[1..];
    ScopedConcat(a + b, c, ab, InterfaceScopes(s1), allowed);
    var abc := ab + InterfaceScopes(s1)[1..];
    ScopedConcat(a + b + c, d, abc, NatScopes(s2), allowed);
    var abcd := abc + NatScopes(s2)[1..];
    ScopedConcat(a + b + c + d, DhcpParts(gi), abcd, DhcpScopes(s2 + {NatSetting}), allowed);
    scopes := abcd + DhcpScopes(s2 + {NatSetting})[1..];
  }

  lemma LegacyVarsAreSafe(gponIdx: int)
    ensures SafeTable(LegacyVars(gponIdx))
  {
    ItoaChars(gponIdx);
  }

  /** The built-in flow passes the definite-assignment check for all inputs whose
      credentials open no placeholder, so every request it sends is fully resolved. */
  lemma LegacyFlowIsAssigned(gponIdx: int, vlanID: int, username: string, password: string)
    requires Plain(username) && Plain(password)
    ensures var e := LegacyStart(gponIdx, vlanID, username, password);
      SafeTable(LegacyVars(gponIdx)) && Assigned(e.flow, e.on, LegacyVars(gponIdx).Keys, 0)
  {
    var scopes := LegacyScoped(gponIdx, vlanID, username, password);
    LegacyVarsAreSafe(gponIdx);
    PartsAssigned(LegacyParts(gponIdx, vlanID, username, password), scopes, Reused(Itoa(gponIdx)), LegacyVars(gponIdx));
  }

  /** Objects a reference may name at the step reached after the given replies: those
      created so far, the optical interface, and the GPON link when one is reused. */
  function KnownObjects(gponIdx: int, flow: Flow, texts: seq<string>): set<string> {
    CreatedFrom(flow, 0, texts)
    + Paths(if gponIdx > 0 then Reused(Itoa(gponIdx)) else {Optical})
  }

  /** After the given replies, the references of the step of e0 that is now due are intact. */
  predicate ReferencesIntact(e0: Exec, gponIdx: int, texts: seq<string>) {
    var e := After(e0, texts);
    !e.Done() ==> ReferencesIn(e.Current(), e.vars, KnownObjects(gponIdx, e.flow, texts))
  }

  /** For a reused GPON link, every LowerLayers and Interface value of every run names a
      known object. */
  lemma LegacyReferencesIntact(gponIdx: int, vlanID: int, username: string, password: string, texts: seq<string>)
    requires gponIdx > 0 && Plain(username) && Plain(password)
    ensures ReferencesIntact(LegacyStart(gponIdx, vlanID, username, password), gponIdx, texts)
  {
    var scopes := LegacyScoped(gponIdx, vlanID, username, password);
    var parts := LegacyParts(gponIdx, vlanID, username, password);
    PartsFresh(parts, LegacyVars(gponIdx));
    PartsReferences(LegacyStart(gponIdx, vlanID, username, password), parts, scopes, Reused(Itoa(gponIdx)), texts);
  }

  lemma DifferentObjects(a: string, b: string)
    ensures GponLink.Path() + a != EthLink.Path() + b
    ensures GponLink.Path() + a != Optical.Text() + b
  {
    assert (GponLink.Path() + a)[7] == 'X' && (EthLink.Path() + b)[7] == 'E' && (Optical.Text() + b)[7] == 'O';
  }

  lemma SameTail(p: string, a: string, b: string)
    requires p + a + "." == p + b + "."
    ensures a == b
  {
    assert (p + a + ".")[|p|..|p| + |a|] == a;
    assert |p + a + "."| == |p| + |a| + 1 && |p + b + "."| == |p| + |b| + 1;
    assert (p + b + ".")[|p|..|p| + |b|] == b;
  }

  lemma LastEntryWins(entries: seq<Entry>)
    requires entries != []
    ensures var last := entries[|entries| - 1];
      last.Key() in Params(entries) && Params(entries)[last.Key()] == last.value.Text()
  {
  }

  function EthEntries(gi: string, v: string): seq<Entry> {
    [Set(Instance(EthLink), Alias, "ethlink_" + v), Set(Instance(EthLink), Enable, "1"),
     Entry(Instance(EthLink), LowerLayers, Pointer(ExistingGpon(gi)))]
  }

  lemma CreatingHead(gponIdx: int, vlanID: int, username: string, password: string)
    requires gponIdx <= 0
    ensures var parts := LegacyParts(gponIdx, vlanID, username, password);
      && |parts| > 3 && parts[0] == Create(GponLink) && parts[1].Assign? && parts[2] == Create(EthLink)
      && parts[3] == Assign(EthEntries(Itoa(gponIdx), Itoa(vlanID)))
  {
    var v, gi := Itoa(vlanID), Itoa(gponIdx);
    var a, b := GponParts(gponIdx, v), LinkParts(gi, v);
    assert |a| == 2 && a[0] == Create(GponLink) && a[1].Assign?;
    assert (a + b)[2] == b[0] && (a + b)[3] == b[1];
  }

  lemma LastReferenceUnknown(step: Step, entries: seq<Entry>, vars: Vars, known: set<string>)
    requires entries != [] && step == RenderPart(Assign(entries))
    requires var last := entries[|entries| - 1];
      last.leaf.LowerLayers? && Plain(last.value.Text()) && last.value.Text() !in known
    ensures !ReferencesIn(step, vars, known)
  {
    var last := entries[|entries| - 1];
    LastEntryWins(entries);
    LeafsAreWords(LowerLayers);
    LeafOfPath(last.owner.Text(), LowerLayers.Text());
    PlainBound(last.value.Text(), {});
    assert IsReference(Leaf(last.Key()));
  }

  /** When the flow creates its own GPON link, the Ethernet link is still pointed at the
      literal instance gponIdx, which no positive instance number matches. */
  lemma CreatedGponLinkIsNotReferenced(e0: Exec, parts: seq<Part>, gponIdx: int, v: string, n: int, texts: seq<string>)
    requires Fresh(e0, parts) && gponIdx <= 0 && n > 0 && |texts| == 3 && texts[0] == Itoa(n)
    requires |parts| > 3 && parts[0] == Create(GponLink) && parts[1].Assign? && parts[2] == Create(EthLink)
    requires parts[3] == Assign(EthEntries(Itoa(gponIdx), v))
    ensures !ReferencesIntact(e0, gponIdx, texts)
  {
    CursorWhenAllOn(e0, texts);
    var e := After(e0, texts);
    var entries := EthEntries(Itoa(gponIdx), v);
    assert e.flow[0] == RenderPart(parts[0]) && e.flow[1] == RenderPart(parts[1]) && e.flow[2] == RenderPart(parts[2]);
    UnknownGponLink(gponIdx, e.flow, texts, n, texts[2]);
    assert Plain(entries[2].value.Text()) by {
      ItoaChars(gponIdx);
      SlotsArePlain(GponLink);
    }
    LastReferenceUnknown(e.Current(), entries, e.vars, KnownObjects(gponIdx, e.flow, texts));
  }

  lemma UnknownGponLink(gponIdx: int, flow: Flow, texts: seq<string>, n: int, eth: string)
    requires gponIdx <= 0 && n > 0 && |flow| >= 3 && |texts| == 3 && texts[0] == Itoa(n) && texts[2] == eth
    requires flow[0].path == GponLink.Path() && flow[1].kind == SetParams && flow[2].path == EthLink.Path()
    ensures Pointer(ExistingGpon(Itoa(gponIdx))).Text() !in KnownObjects(gponIdx, flow, texts)
  {
    var gi := Itoa(gponIdx);
    var p := Pointer(ExistingGpon(gi)).Text();
    assert p == GponLink.Path() + gi + "." == GponLink.Path() + (gi + ".");
    DifferentObjects(gi + ".", eth + ".");
    assert EthLink.Path() + (eth + ".") == EthLink.Path() + eth + ".";
    DifferentObjects(gi + ".", ".");
    if p in CreatedFrom(flow, 0, texts) {
      var j :| 0 <= j < |texts| && 0 + j < |flow| && flow[0 + j].kind == AddObject && p == flow[0 + j].path + texts[j]
        + ".";
      assert j == 0;
      SameTail(GponLink.Path(), gi, Itoa(n));
      ItoaInjective(gponIdx, n);
    }
  }

  predicate Positive(instances: seq<int>) {
    forall i | 0 <= i < |instances| :: instances[i] > 0
  }

  /** Every run with positive instance numbers keeps all references intact. */
  ghost predicate KeepsReferences(e0: Exec, gponIdx: int) {
    forall instances | Positive(instances) :: ReferencesIntact(e0, gponIdx, Decimals(instances))
  }

  lemma Ones() returns (ones: seq<int>)
    ensures Positive(ones) && |Decimals(ones)| == 3 && Decimals(ones)[0] == Itoa(1)
  {
    ones := [1, 1, 1];
  }

  lemma DanglesOnce(e0: Exec, parts: seq<Part>, gponIdx: int, v: string)
    requires Fresh(e0, parts) && gponIdx <= 0
    requires |parts| > 3 && parts[0] == Create(GponLink) && parts[1].Assign? && parts[2] == Create(EthLink)
    requires parts[3] == Assign(EthEntries(Itoa(gponIdx), v))
    ensures !KeepsReferences(e0, gponIdx)
  {
    var ones := Ones();
    CreatedGponLinkIsNotReferenced(e0, parts, gponIdx, v, 1, Decimals(ones));
  }

  /** Reference integrity of the built-in flow holds exactly when a GPON link is reused. */
  lemma ReferencesIntactIff(gponIdx: int, vlanID: int, username: string, password: string)
    requires Plain(username) && Plain(password)
    ensures KeepsReferences(LegacyStart(gponIdx, vlanID, username, password), gponIdx) <==> gponIdx > 0
  {
    if gponIdx > 0 {
      forall instances | Positive(instances)
        ensures ReferencesIntact(LegacyStart(gponIdx, vlanID, username, password), gponIdx, Decimals(instances))
      {
        LegacyReferencesIntact(gponIdx, vlanID, username, password, Decimals(instances));
      }
    } else {
      var parts := LegacyParts(gponIdx, vlanID, username, password);
      PartsFresh(parts, LegacyVars(gponIdx));
      CreatingHead(gponIdx, vlanID, username, password);
      DanglesOnce(LegacyStart(gponIdx, vlanID, username, password), parts, gponIdx, Itoa(vlanID));
    }
  }
}
