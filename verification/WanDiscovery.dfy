/** Finding a device's PPP interface, TR-098 PPP connection and VLAN in a parameter snapshot. */
module WanDiscovery {
  import opened GoStrings
  import opened BandTables
  import opened Ordering
  import Tr098 = Tr098PppChoice

  // ---- instance references inside values ----

  function DigitRun(s: string): (d: string)
    ensures d <= s && AllDigits(d)
  {
    if s != "" && IsDigit(s[0]) then [s[0]] + DigitRun(s[1..]) else ""
  }

  /** prefix, then digits, then a dot, at the start of s. */
  function RefAt(prefix: string, s: string): Option<nat> {
    if !HasPrefix(s, prefix) then None else
      var rest := s[|prefix|..];
      var d := DigitRun(rest);
      if d != "" && |d| < |rest| && rest[|d|] == '.' then Some(DigitsValue(d)) else None
  }

  /** The leftmost match of such a reference, as the unanchored patterns find it. */
  function Ref(prefix: string, s: string): Option<nat> {
    if RefAt(prefix, s).Some? then RefAt(prefix, s)
    else if s == "" then None
    else Ref(prefix, s[1..])
  }

  lemma {:induction false} DigitRunStops(d: string, rest: string)
    requires AllDigits(d) && rest != "" && !IsDigit(rest[0])
    ensures DigitRun(d + rest) == d
  {
    if d == "" {
      assert d + rest == rest;
    } else {
      assert d[0] in d && (d + rest)[1..] == d[1..] + rest;
      assert AllDigits(d[1..]) by { assert forall c | c in d[1..] :: c in d; }
      DigitRunStops(d[1..], rest);
    }
  }

  /** A printed reference reads back. */
  lemma RefOfPrinted(prefix: string, n: nat, rest: string)
    ensures Ref(prefix, prefix + Itoa(n) + "." + rest) == Some(n)
  {
    var s := prefix + Itoa(n) + "." + rest;
    DigitsOfNat(n);
    assert s[|prefix|..] == NatToString(n) + ("." + rest);
    DigitRunStops(NatToString(n), "." + rest);
  }

  /** Without digits behind it a prefix is no reference. */
  lemma NoDigitsNoRef(prefix: string, rest: string)
    requires rest == "" || !IsDigit(rest[0])
    ensures RefAt(prefix, prefix + rest).None?
  {
    assert (prefix + rest)[|prefix|..] == rest;
  }

  // ---- TR-181: the PPP interface ----

  /** The parameter names the PPP patterns tell apart. */
  datatype Name = PppParam(idx: nat, leaf: string) | IpLowerLayers(idx: nat) | OtherParam(text: string)

  type Params = map<Name, string>

  const PPP_REF := "Device.PPP.Interface."

  function Interfaces(names: set<Name>): set<nat> {
    set n | n in names && n.PppParam? :: n.idx
  }

  /** The existing PPP interface below the WAN IP interface. */
  function Referenced(params: Params, wanIp: nat): Option<nat> {
    var key := IpLowerLayers(wanIp);
    if wanIp == 0 || key !in params then None else
      var ref := Ref(PPP_REF, params[key]);
      if ref.Some? && ref.value in Interfaces(params.Keys) then ref else None
  }

  /** The WAN interface, once it is known, names the PPP interface below it by its path; one that does not exist does
      not count. */
  lemma ReferencedByPath(params: Params, wanIp: nat, n: nat)
    requires wanIp > 0 && IpLowerLayers(wanIp) in params
    requires params[IpLowerLayers(wanIp)] == "Device.PPP.Interface." + Itoa(n) + "."
    ensures Referenced(params, wanIp) ==
      if exists p :: p in params && p.PppParam? && p.idx == n then Some(n) else None
  {
    RefOfPrinted("Device.PPP.Interface.", n, "");
    assert params[IpLowerLayers(wanIp)] + "" == params[IpLowerLayers(wanIp)];
  }

  /** Without a WAN interface, or without its reference, there is none. */
  lemma NothingReferenced(params: Params, wanIp: nat)
    requires wanIp == 0 || IpLowerLayers(wanIp) !in params
    ensures Referenced(params, wanIp) == None
  {
  }

  /** The interfaces named by parameters visited in some order. */
  function Indices(order: seq<Name>): seq<nat> {
    if order == [] then [] else
      var n := order[|order| - 1];
      Indices(order[..|order| - 1]) + if n.PppParam? then [n.idx] else []
  }

  /** The referenced interface when there is one, else what keeping the lower one leaves. */
  ghost predicate PreferredBy(ppp: nat, params: Params, wanIp: nat, order: seq<Name>) {
    ppp == Referenced(params, wanIp).Or(Lowest(Indices(order)))
  }

  ghost predicate Preferred(ppp: nat, params: Params, wanIp: nat) {
    exists order :: Visits(order, params.Keys) && PreferredBy(ppp, params, wanIp, order)
  }

  lemma {:induction false} IndicesConcat(a: seq<Name>, b: seq<Name>)
    ensures Indices(a + b) == Indices(a) + Indices(b)
  {
    if b == [] {
      assert a + b == a;
    } else {
      assert (a + b)[..|a + b| - 1] == a + b[..|b| - 1];
      IndicesConcat(a, b[..|b| - 1]);
    }
  }

  lemma {:induction false} IndicesElements(order: seq<Name>)
    ensures Elements(Indices(order)) == Interfaces(set n | n in order)
  {
    if order != [] {
      var init, n := order[..|order| - 1], order[|order| - 1];
      assert order == init + [n];
      IndicesElements(init);
      assert (set m | m in order) == (set m | m in init) + {n};
      InterfacesGrow((set m | m in init), n);
    }
  }

  /** Interfaces numbered from 1: the least existing one. */
  lemma PreferredIsLeast(ppp: nat, params: Params, wanIp: nat)
    requires Preferred(ppp, params, wanIp) && Referenced(params, wanIp).None? && 0 !in Interfaces(params.Keys)
    ensures IsLeast(ppp, Interfaces(params.Keys))
  {
    var order :| Visits(order, params.Keys) && PreferredBy(ppp, params, wanIp, order);
    LowestIndex(order, params.Keys);
  }

  lemma LowestIndex(order: seq<Name>, names: set<Name>)
    requires Visits(order, names)
    ensures Elements(Indices(order)) == Interfaces(names)
    ensures 0 !in Interfaces(names) ==> IsLeast(Lowest(Indices(order)), Interfaces(names))
    ensures Interfaces(names) == {0} ==> Lowest(Indices(order)) == 0
  {
    IndicesElements(order);
    assert (set n | n in order) == names;
    var visits := Indices(order);
    assert forall i :: i in visits <==> i in Elements(visits);
    if 0 !in visits { LowestIsLeast(visits); }
    if Interfaces(names) == {0} { AllZeros(visits); }
  }

  ghost predicate OnePreferred(params: Params, wanIp: nat) {
    forall a: nat, b: nat | Preferred(a, params, wanIp) && Preferred(b, params, wanIp) :: a == b
  }

  lemma NamesSplit(names: set<Name>, part: set<Name>, a: seq<Name>, b: seq<Name>)
    requires part <= names && Visits(a, part) && Visits(b, names - part)
    ensures Visits(a + b, names) && Visits(b + a, names)
  {
    assert forall i | 0 <= i < |a| :: a[i] in part;
    assert forall i | 0 <= i < |b| :: b[i] in names - part;
  }

  /** Visiting the parameters of interface 0 first and last. */
  lemma MixedInterfaces(names: set<Name>) returns (a: seq<Name>, b: seq<Name>)
    requires 0 in Interfaces(names) && Interfaces(names) != {0}
    ensures Visits(a, names) && Visits(b, names) && Lowest(Indices(a)) != Lowest(Indices(b))
  {
    var part := set n | n in names && n.PppParam? && n.idx == 0;
    var zeros := SomeOrder(part);
    var rest := SomeOrder(names - part);
    NamesSplit(names, part, zeros, rest);
    a, b := zeros + rest, rest + zeros;
    IndicesConcat(zeros, rest);
    IndicesConcat(rest, zeros);
    LowestIndex(zeros, part);
    LowestIndex(rest, names - part);
    OtherInterfaces(names, part);
    ZerosFirstAndLast(Indices(zeros), Indices(rest));
  }

  lemma OtherInterfaces(names: set<Name>, part: set<Name>)
    requires 0 in Interfaces(names) && Interfaces(names) != {0}
    requires part == set n | n in names && n.PppParam? && n.idx == 0
    ensures Interfaces(part) == {0} && 0 !in Interfaces(names - part) && Interfaces(names - part) != {}
  {
    var z :| z in names && z.PppParam? && z.idx == 0;
    assert z in part;
    var i :| i in Interfaces(names) && i != 0;
    var n :| n in names && n.PppParam? && n.idx == i;
    assert n in names - part;
    assert i in Interfaces(names - part);
  }

  lemma ZerosFirstAndLast(zeros: seq<nat>, rest: seq<nat>)
    requires Elements(zeros) == {0} && 0 !in Elements(rest) && Elements(rest) != {}
    ensures Lowest(zeros + rest) != 0 && Lowest(rest + zeros) == 0
  {
    assert forall i :: i in zeros <==> i in Elements(zeros);
    assert forall i :: i in rest <==> i in Elements(rest);
    assert zeros != [] by { assert 0 in zeros; }
    ZerosFirst(zeros, rest);
    ZerosLast(rest, zeros);
    LowestIsLeast(rest);
  }

  /** The choice does not depend on the order in which the map is visited if and only if an interface is
      referenced or interface 0 is not found among others. */
  lemma OnePreferredIff(params: Params, wanIp: nat)
    ensures OnePreferred(params, wanIp) <==>
            Referenced(params, wanIp).Some? || 0 !in Interfaces(params.Keys) || Interfaces(params.Keys) == {0}
  {
    var names := params.Keys;
    if Referenced(params, wanIp).Some? {
    } else if 0 in Interfaces(names) && Interfaces(names) != {0} {
      var a, b := MixedInterfaces(names);
      var x, y := Lowest(Indices(a)), Lowest(Indices(b));
      assert PreferredBy(x, params, wanIp, a) && PreferredBy(y, params, wanIp, b);
      assert Preferred(x, params, wanIp) && Preferred(y, params, wanIp);
    } else {
      forall x: nat, y: nat | Preferred(x, params, wanIp) && Preferred(y, params, wanIp) ensures x == y {
        var a :| Visits(a, names) && PreferredBy(x, params, wanIp, a);
        var b :| Visits(b, names) && PreferredBy(y, params, wanIp, b);
        LowestIndex(a, names);
        LowestIndex(b, names);
        if 0 !in Interfaces(names) { LeastIsUnique(x, y, Interfaces(names)); }
      }
    }
  }

  // ---- TR-181: the VLAN termination below the PPP interface ----

  const TERM_REF := "Device.Ethernet.VLANTermination."

  function PppLower(ppp: nat): string {
    "Device.PPP.Interface." + Itoa(ppp) + ".LowerLayers"
  }

  function VlanIdKey(idx: nat): string {
    TERM_REF + Itoa(idx) + ".VLANID"
  }

  function LinkedTermination(snapshot: map<string, string>, ppp: nat): Option<nat> {
    if ppp == 0 || PppLower(ppp) !in snapshot then None else Ref(TERM_REF, snapshot[PppLower(ppp)])
  }

  function ReportedVlan(snapshot: map<string, string>, idx: nat): Option<int> {
    if VlanIdKey(idx) in snapshot then Atoi(snapshot[VlanIdKey(idx)]) else None
  }

  /** The PPP interface names its VLAN termination by path, and the termination reports its VLAN by name. */
  lemma TerminationByPath(snapshot: map<string, string>, ppp: nat, m: nat)
    requires ppp > 0 && "Device.PPP.Interface." + Itoa(ppp) + ".LowerLayers" in snapshot
    requires snapshot["Device.PPP.Interface." + Itoa(ppp) + ".LowerLayers"] ==
      "Device.Ethernet.VLANTermination." + Itoa(m) + "."
    ensures LinkedTermination(snapshot, ppp) == Some(m)
    ensures var key := "Device.Ethernet.VLANTermination." + Itoa(m) + ".VLANID";
      ReportedVlan(snapshot, m) == if key in snapshot then Atoi(snapshot[key]) else None
  {
    RefOfPrinted("Device.Ethernet.VLANTermination.", m, "");
    var link := snapshot["Device.PPP.Interface." + Itoa(ppp) + ".LowerLayers"];
    assert link + "" == link;
  }

  /** Without a PPP interface, or without its reference, there is no termination. */
  lemma NothingLinked(snapshot: map<string, string>, ppp: nat)
    requires ppp == 0 || "Device.PPP.Interface." + Itoa(ppp) + ".LowerLayers" !in snapshot
    ensures LinkedTermination(snapshot, ppp) == None
  {
  }

  /** The discovered instance numbers; 0 means not discovered. */
  class InstanceMap {
    var wanIp: nat
    var ppp: nat
    var vlanTerm: nat
    var currentVlan: int
    var wanDev: nat
    var wanConn: nat
    var wanPpp: nat

    constructor ()
      ensures wanIp == ppp == vlanTerm == wanDev == wanConn == wanPpp == 0 && currentVlan == 0
    {
      wanIp, ppp, vlanTerm, currentVlan := 0, 0, 0, 0;
      wanDev, wanConn, wanPpp := 0, 0, 0;
    }

    /** The body of the first loop. */
    method NotePpp(n: Name, all: set<nat>, ghost order: seq<Name>, ghost done: set<Name>)
      returns (grown: set<nat>, ghost visited: seq<Name>)
      requires n !in done && Collected(ppp, all, order, done)
      modifies this`ppp
      ensures Collected(ppp, grown, visited, done + {n})
    {
      visited := order + [n];
      CollectedNext(ppp, all, order, done, n);
      grown := all;
      if n.PppParam? {
        grown := all + {n.idx};
        if ppp == 0 || n.idx < ppp {
          ppp := n.idx;
        }
      }
    }

    /** The first loop: collect the interfaces and keep the lower one at every visit. */
    method CollectPpp(params: Params) returns (all: set<nat>, ghost order: seq<Name>)
      requires ppp == 0
      modifies this`ppp
      ensures Collected(ppp, all, order, params.Keys)
    {
      all, order := {}, [];
      var todo := params.Keys;
      ghost var done: set<Name> := {};
      while todo != {}
        invariant done + todo == params.Keys && done !! todo
        invariant Collected(ppp, all, order, done)
        decreases |todo|
      {
        var n :| n in todo;
        all, order := NotePpp(n, all, order, done);
        done, todo := done + {n}, todo - {n};
      }
      assert done == params.Keys;
    }

    /** discoverTR181PPP on a fresh instance map. */
    method DiscoverTr181Ppp(params: Params)
      requires ppp == 0
      modifies this`ppp
      ensures Preferred(ppp, params, wanIp)
    {
      var all, order := CollectPpp(params);
      if wanIp == 0 {
        assert PreferredBy(ppp, params, wanIp, order);
        return;
      }
      var todo := params.Keys;
      while todo != {}
        invariant todo <= params.Keys && ppp == Lowest(Indices(order))
        invariant IpLowerLayers(wanIp) in params && IpLowerLayers(wanIp) !in todo ==> Referenced(params, wanIp).None?
        decreases |todo|
      {
        var n :| n in todo;
        if n == IpLowerLayers(wanIp) {
          var ref := Ref(PPP_REF, params[n]);
          if ref.Some? && ref.value in all {
            ppp := ref.value;
            assert PreferredBy(ppp, params, wanIp, order);
            return;
          }
        }
        todo := todo - {n};
      }
      assert PreferredBy(ppp, params, wanIp, order);
    }

    /** The VLAN part of discoverTR181VLAN. */
    method DiscoverTr181Vlan(snapshot: map<string, string>)
      modifies this`vlanTerm, this`currentVlan
      ensures vlanTerm == LinkedTermination(snapshot, ppp).Or(old(vlanTerm))
      ensures currentVlan ==
        if LinkedTermination(snapshot, ppp).Some? then ReportedVlan(snapshot, vlanTerm).Or(old(currentVlan))
          else old(currentVlan)
    {
      if ppp == 0 {
        return;
      }
      var lower := PppLower(ppp);
      if lower !in snapshot || snapshot[lower] == "" {
        return;
      }
      var m := Ref(TERM_REF, snapshot[lower]);
      if m.None? {
        return;
      }
      vlanTerm := m.value;
      var key := VlanIdKey(vlanTerm);
      if key in snapshot && snapshot[key] != "" {
        var id := Atoi(snapshot[key]);
        if id.Some? {
          currentVlan := id.value;
        }
      }
    }

    /** discoverTR098WAN from the collecting of PPP connections on. vlanLeaf is the driver's VLAN suffix without its
        dot. */
    method DiscoverTr098Ppp(params: Tr098.Params, vlanLeaf: Option<string>, isPublic: string -> bool)
      returns (ghost order: seq<Tr098.Key>, ghost best: Tr098.Candidate)
      modifies this`wanDev, this`wanConn, this`wanPpp, this`currentVlan
      ensures Visits(order, params.Keys)
      ensures params == map[] ==> unchanged(this)
      ensures params != map[] ==>
        && Tr098.Chosen(best, order, params, isPublic) && wanConn == best.conn && wanPpp == best.ppp
        && wanDev == (if old(wanDev) == 0 then best.dev else old(wanDev))
        && currentVlan == Tr098.DeclaredVlan(params, best, vlanLeaf).Or(old(currentVlan))
    {
      var candidates: Tr098.Candidates;
      candidates, order := Tr098.CollectCandidates(params, isPublic);
      best := Tr098.Candidate(0, 0, 0, false, false);
      Tr098.NoneCollectedIff(order, params, isPublic);
      var picked := Tr098.PickBest(candidates);
      if picked.Some? {
        best := picked.value;
        StoreTr098Ppp(params, picked.value, vlanLeaf);
      }
    }

    method StoreTr098Ppp(params: Tr098.Params, best: Tr098.Candidate, vlanLeaf: Option<string>)
      modifies this`wanDev, this`wanConn, this`wanPpp, this`currentVlan
      ensures wanConn == best.conn && wanPpp == best.ppp
      ensures wanDev == if old(wanDev) == 0 then best.dev else old(wanDev)
      ensures currentVlan == Tr098.DeclaredVlan(params, best, vlanLeaf).Or(old(currentVlan))
    {
      if wanDev == 0 {
        wanDev := best.dev;
      }
      wanConn, wanPpp := best.conn, best.ppp;
      if vlanLeaf.Some? {
        var k := Tr098.Key(best.dev, best.conn, best.ppp, vlanLeaf.value);
        if k in params && params[k] != "" && params[k] != "0" {
          currentVlan := Atoi(params[k]).Or(currentVlan);
        }
      }
    }
  }

  /** The state of the collecting loop after the parameters in done. */
  ghost predicate Collected(ppp: nat, all: set<nat>, order: seq<Name>, done: set<Name>) {
    all == Interfaces(done) && Visits(order, done) && ppp == Lowest(Indices(order))
  }

  lemma CollectedNext(ppp: nat, all: set<nat>, order: seq<Name>, done: set<Name>, n: Name)
    requires Collected(ppp, all, order, done) && n !in done
    ensures if n.PppParam? then Collected(Lower(ppp, n.idx), all + {n.idx}, order + [n], done + {n})
            else Collected(ppp, all, order + [n], done + {n})
  {
    InterfacesGrow(done, n);
    IndicesStep(order, n);
  }

  lemma IndicesStep(order: seq<Name>, n: Name)
    ensures Lowest(Indices(order + [n])) ==
            if n.PppParam? then Lower(Lowest(Indices(order)), n.idx) else Lowest(Indices(order))
  {
    assert (order + [n])[..|order|] == order;
    var visits := Indices(order);
    assert visits + [] == visits;
    if n.PppParam? { assert (visits + [n.idx])[..|visits|] == visits; }
  }

  lemma InterfacesGrow(names: set<Name>, n: Name)
    ensures Interfaces(names + {n}) == if n.PppParam? then Interfaces(names) + {n.idx} else Interfaces(names)
  {
    var grown := Interfaces(names + {n});
    forall i ensures i in grown <==> i in Interfaces(names) || (n.PppParam? && i == n.idx) {
      if i in Interfaces(names) {
        var m :| m in names && m.PppParam? && m.idx == i;
        assert m in names + {n};
      }
      if n.PppParam? && i == n.idx { assert n in names + {n}; }
    }
  }
}
