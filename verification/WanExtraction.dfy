/** WAN interfaces of a TR-098 device, read from a flat parameter map. Go visits the map in an
    arbitrary order; the module shows how much of the result depends on it. */
module WanExtraction {
  import opened GoStrings
  import opened Ordering
  import Dns = DnsServers

  // ---- parameters that the two path patterns match ----

  datatype Field =
    | ConnectionType | ConnectionStatus | ExternalIPAddress | SubnetMask | DefaultGateway
    | DNSServers | MACAddress | MaxMTUSize | Uptime | Username | Other(name: string)

  /** A matched path: the connection object and the rest of the path. */
  datatype Key = Key(base: string, field: Field)

  type Params = map<Key, string>

  predicate IsPpp(base: string) {
    Contains(base, "WANPPPConnection")
  }

  predicate IsServiceList(f: Field) {
    f.Other? && HasSuffix(ToLower(f.name), "servicelist")
  }

  function Number(v: string): int {
    Atoi(v).Or(0)
  }

  datatype Entry = Entry(connection: string, ip: string, status: string, service: string, username: string,
                         mask: string,
                         gateway: string, dns: string, mac: string, mtu: int, uptime: int)

  function DefaultConnection(base: string): (c: string)
    ensures c != ""
  {
    if IsPpp(base) then "PPPoE" else "IP_Routed"
  }

  function FreshEntry(base: string): Entry {
    Entry(DefaultConnection(base), "", "", "", "", "", "", "", "", 0, 0)
  }

  /** The switch over the field. A user name is kept for PPP connections only. */
  function Put(e: Entry, ppp: bool, f: Field, v: string): Entry {
    match f
    case ConnectionType => if v != "" then e.(connection := v) else e
    case ConnectionStatus => e.(status := v)
    case ExternalIPAddress => e.(ip := v)
    case SubnetMask => e.(mask := v)
    case DefaultGateway => e.(gateway := v)
    case DNSServers => e.(dns := v)
    case MACAddress => if v != "" then e.(mac := v) else e
    case MaxMTUSize => e.(mtu := Number(v))
    case Uptime => e.(uptime := Number(v))
    case Username => if ppp then e.(username := v) else e
    case Other(_) => if IsServiceList(f) then e.(service := v) else e
  }

  type Entries = map<string, Entry>

  function Touch(entries: Entries, k: Key, v: string): Entries {
    var e := if k.base in entries then entries[k.base] else FreshEntry(k.base);
    entries[k.base := Put(e, IsPpp(k.base), k.field, v)]
  }

  /** The entries after the keys in done have been visited. */
  function Scan(done: seq<Key>, params: Params): Entries
    requires forall k | k in done :: k in params
  {
    if done == [] then map[] else
      var n := |done| - 1;
      assert done[n] in done;
      Touch(Scan(done[..n], params), done[n], params[done[n]])
  }

  // ---- an entry field by field ----

  /** The text visited for one key, or "" when it has not been visited. */
  function Latest(done: seq<Key>, params: Params, k: Key): string
    requires forall q | q in done :: q in params
  {
    if done == [] then "" else
      var n := |done| - 1;
      assert done[n] in done;
      if done[n] == k then params[k] else Latest(done[..n], params, k)
  }

  /** The service list visited last. */
  function Service(done: seq<Key>, params: Params, base: string): string
    requires forall k | k in done :: k in params
  {
    if done == [] then "" else
      var n := |done| - 1;
      assert done[n] in done;
      if done[n].base == base && IsServiceList(done[n].field) then params[done[n]] else Service(done[..n], params, base)
  }

  /** The texts reported for one connection object. */
  datatype Texts = Texts(connection: string, ip: string, status: string, username: string, mask: string,
                         gateway: string,
                         dns: string, mac: string, mtu: string, uptime: string)

  function TextsOf(done: seq<Key>, params: Params, base: string): Texts
    requires forall k | k in done :: k in params
  {
    Texts(Latest(done, params, Key(base, ConnectionType)), Latest(done, params, Key(base, ExternalIPAddress)),
          Latest(done, params, Key(base, ConnectionStatus)), Latest(done, params, Key(base, Username)),
          Latest(done, params, Key(base, SubnetMask)), Latest(done, params, Key(base, DefaultGateway)),
          Latest(done, params, Key(base, DNSServers)), Latest(done, params, Key(base, MACAddress)),
          Latest(done, params, Key(base, MaxMTUSize)), Latest(done, params, Key(base, Uptime)))
  }

  function Assemble(base: string, t: Texts, service: string): (e: Entry)
    ensures e.connection != ""
  {
    Entry(if t.connection != "" then t.connection else DefaultConnection(base), t.ip, t.status, service,
          if IsPpp(base) then t.username else "", t.mask, t.gateway, t.dns, t.mac, Number(t.mtu), Number(t.uptime))
  }

  predicate Reported(done: seq<Key>, base: string) {
    exists k | k in done :: k.base == base
  }

  lemma {:induction false} LatestIsLookup(done: seq<Key>, params: Params, k: Key)
    requires forall q | q in done :: q in params
    ensures Latest(done, params, k) == if k in done then params[k] else ""
  {
    if done != [] {
      var n := |done| - 1;
      assert done == done[..n] + [done[n]];
      LatestIsLookup(done[..n], params, k);
    }
  }

  function SetText(t: Texts, f: Field, v: string): Texts {
    match f
    case ConnectionType => t.(connection := v)
    case ConnectionStatus => t.(status := v)
    case ExternalIPAddress => t.(ip := v)
    case SubnetMask => t.(mask := v)
    case DefaultGateway => t.(gateway := v)
    case DNSServers => t.(dns := v)
    case MACAddress => t.(mac := v)
    case MaxMTUSize => t.(mtu := v)
    case Uptime => t.(uptime := v)
    case Username => t.(username := v)
    case Other(_) => t
  }

  lemma TextsStep(done: seq<Key>, k: Key, params: Params, base: string)
    requires k in params && forall q | q in done :: q in params
    ensures TextsOf(done + [k], params, base) ==
      if k.base == base then SetText(TextsOf(done, params, base), k.field, params[k]) else TextsOf(done, params, base)
  {
    assert (done + [k])[..|done|] == done;
  }

  lemma ServiceStep(done: seq<Key>, k: Key, params: Params, base: string)
    requires k in params && forall q | q in done :: q in params
    ensures Service(done + [k], params, base) ==
      if k.base == base && IsServiceList(k.field) then params[k] else Service(done, params, base)
  {
    assert (done + [k])[..|done|] == done;
  }

  /** Putting a field that was still blank is setting its text. */
  lemma PutSetsText(base: string, t: Texts, service: string, f: Field, v: string)
    requires f == ConnectionType ==> t.connection == ""
    requires f == MACAddress ==> t.mac == ""
    ensures Put(Assemble(base, t, service), IsPpp(base), f, v) ==
      Assemble(base, SetText(t, f, v), if IsServiceList(f) then v else service)
  {
  }

  lemma {:induction false} UnreportedIsBlank(done: seq<Key>, params: Params, base: string)
    requires !Reported(done, base) && forall k | k in done :: k in params
    ensures TextsOf(done, params, base) == Texts("", "", "", "", "", "", "", "", "", "")
      && Service(done, params, base) == ""
  {
    if done != [] {
      assert done[|done| - 1] in done;
      UnreportedIsBlank(done[..|done| - 1], params, base);
    }
  }

  lemma BlankIsFresh(base: string)
    ensures Assemble(base, Texts("", "", "", "", "", "", "", "", "", ""), "") == FreshEntry(base)
  {
  }

  function EntryFrom(done: seq<Key>, params: Params, base: string): Entry
    requires forall k | k in done :: k in params
  {
    Assemble(base, TextsOf(done, params, base), Service(done, params, base))
  }

  lemma EntryStep(done: seq<Key>, k: Key, params: Params, base: string)
    requires k !in done && k in params && forall q | q in done :: q in params
    ensures EntryFrom(done + [k], params, base) ==
      if k.base == base then Put(EntryFrom(done, params, base), IsPpp(base), k.field, params[k])
      else EntryFrom(done, params, base)
  {
    TextsStep(done, k, params, base);
    ServiceStep(done, k, params, base);
    if k.base == base {
      LatestIsLookup(done, params, k);
      PutSetsText(base, TextsOf(done, params, base), Service(done, params, base), k.field, params[k]);
    }
  }

  /** Whatever the order, an entry holds each field of its object; only the service list is the last visited. */
  lemma {:induction false} ScanBuildsEntries(done: seq<Key>, params: Params, base: string)
    requires forall k | k in done :: k in params
    requires forall i, j | 0 <= i < j < |done| :: done[i] != done[j]
    ensures base in Scan(done, params) <==> Reported(done, base)
    ensures base in Scan(done, params) ==> Scan(done, params)[base] == EntryFrom(done, params, base)
  {
    if done != [] {
      var n := |done| - 1;
      var init, k := done[..n], done[n];
      assert done == init + [k] && k in done;
      ScanBuildsEntries(init, params, base);
      EntryStep(init, k, params, base);
      if !Reported(init, base) { UnreportedIsBlank(init, params, base); BlankIsFresh(base); }
      assert Reported(done, base) <==> Reported(init, base) || k.base == base;
    }
  }

  // ---- what the map itself says ----

  function Value(params: Params, k: Key): string {
    if k in params then params[k] else ""
  }

  predicate IsBase(params: Params, base: string) {
    exists k | k in params :: k.base == base
  }

  function IpOf(params: Params, base: string): string {
    Value(params, Key(base, ExternalIPAddress))
  }

  function ConnectionOf(params: Params, base: string): (c: string)
    ensures c != ""
  {
    var v := Value(params, Key(base, ConnectionType));
    if v != "" then v else DefaultConnection(base)
  }

  predicate IsPppoe(params: Params, base: string) {
    EqualFold(ConnectionOf(params, base), "PPPoE")
  }

  function TextsIn(params: Params, base: string): Texts {
    Texts(Value(params, Key(base, ConnectionType)), IpOf(params, base),
          Value(params, Key(base, ConnectionStatus)), Value(params, Key(base, Username)),
          Value(params, Key(base, SubnetMask)), Value(params, Key(base, DefaultGateway)),
          Value(params, Key(base, DNSServers)), Value(params, Key(base, MACAddress)),
          Value(params, Key(base, MaxMTUSize)), Value(params, Key(base, Uptime)))
  }

  lemma TextsAreTheMaps(order: seq<Key>, params: Params, base: string)
    requires Visits(order, params.Keys)
    ensures TextsOf(order, params, base) == TextsIn(params, base)
    ensures Reported(order, base) <==> IsBase(params, base)
  {
    forall f: Field ensures Latest(order, params, Key(base, f)) == Value(params, Key(base, f)) {
      LatestIsLookup(order, params, Key(base, f));
    }
  }

  // ---- choosing and arranging the connections ----

  datatype Wan = Wan(connection: string, service: string, ip: string, mask: string, gateway: string, dns1: string,
                     dns2: string, mtu: int, uptime: int, status: string, mac: string, username: string)

  function Info(base: string, e: Entry, mac: string): Wan {
    var conn := if IsPpp(base) && e.connection == "" then "PPPoE" else e.connection;
    var dns := Dns.Pair(e.dns);
    Wan(if conn == "" then "IP_Routed" else conn, e.service, e.ip, e.mask, e.gateway, dns.0, dns.1, e.mtu, e.uptime,
      e.status,
        if e.mac == "" then mac else e.mac, e.username)
  }

  predicate Skipped(ip: string, seen: set<string>) {
    ip == "" || ip == "0.0.0.0" || ip in seen
  }

  /** The loop over the sorted base paths. */
  function Emit(bases: seq<string>, entries: Entries, seen: set<string>, mac: string): seq<Wan>
    requires forall b | b in bases :: b in entries
  {
    if bases == [] then [] else
      assert bases[0] in bases;
      var e := entries[bases[0]];
      if Skipped(e.ip, seen) then Emit(bases[1..], entries, seen, mac)
      else [Info(bases[0], e, mac)] + Emit(bases[1..], entries, seen + {e.ip}, mac)
  }

  predicate Sooner(a: Wan, b: Wan) {
    EqualFold(a.connection, "PPPoE") && !EqualFold(b.connection, "PPPoE")
  }

  /** sort.SliceStable: x goes in front of the first element that need not precede it. */
  function InsertStable(x: Wan, ws: seq<Wan>): seq<Wan> {
    if ws == [] || !Sooner(ws[0], x) then [x] + ws else [ws[0]] + InsertStable(x, ws[1..])
  }

  function StableSort(ws: seq<Wan>): seq<Wan> {
    if ws == [] then [] else InsertStable(ws[0], StableSort(ws[1..]))
  }

  // ---- the declarative listing ----

  /** b has a usable address that no smaller base path reports. */
  ghost predicate FirstReporter(params: Params, seen: set<string>, b: string) {
    && IsBase(params, b) && !Skipped(IpOf(params, b), seen)
    && forall c | IsBase(params, c) && StringLess(c, b) :: IpOf(params, c) != IpOf(params, b)
  }

  predicate ListedBefore(params: Params, a: string, b: string) {
    if IsPppoe(params, a) != IsPppoe(params, b) then IsPppoe(params, a) else StringLess(a, b)
  }

  /** The first reporters, PPPoE connections in front, each group by base path. */
  ghost predicate Listing(bs: seq<string>, params: Params, seen: set<string>) {
    && (forall b :: b in bs <==> FirstReporter(params, seen, b))
    && (forall i, j | 0 <= i < j < |bs| :: ListedBefore(params, bs[i], bs[j]))
  }

  function InfoIn(entries: Entries, base: string, mac: string): Wan {
    Info(base, if base in entries then entries[base] else FreshEntry(base), mac)
  }

  function Infos(bs: seq<string>, entries: Entries, mac: string): (ws: seq<Wan>)
    ensures |ws| == |bs|
  {
    if bs == [] then [] else [InfoIn(entries, bs[0], mac)] + Infos(bs[1..], entries, mac)
  }

  /** Every entry carries the type and the address its object reports. */
  ghost predicate Faithful(entries: Entries, params: Params) {
    forall b | b in entries :: entries[b].connection == ConnectionOf(params, b) && entries[b].ip == IpOf(params, b)
  }

  function Chosen(bases: seq<string>, params: Params, seen: set<string>): seq<string> {
    if bases == [] then []
    else if Skipped(IpOf(params, bases[0]), seen) then Chosen(bases[1..], params, seen)
    else [bases[0]] + Chosen(bases[1..], params, seen + {IpOf(params, bases[0])})
  }

  function Keep(bs: seq<string>, params: Params, pppoe: bool): seq<string> {
    if bs == [] then []
    else if IsPppoe(params, bs[0]) == pppoe then [bs[0]] + Keep(bs[1..], params, pppoe)
    else Keep(bs[1..], params, pppoe)
  }

  lemma {:induction false} EmitChooses(bases: seq<string>, entries: Entries, params: Params, seen: set<string>,
                                       mac: string)
    requires Faithful(entries, params) && forall b | b in bases :: b in entries
    ensures forall b | b in Chosen(bases, params, seen) :: b in entries
    ensures Emit(bases, entries, seen, mac) == Infos(Chosen(bases, params, seen), entries, mac)
  {
    if bases != [] {
      assert bases[0] in bases;
      var ip := IpOf(params, bases[0]);
      if Skipped(ip, seen) {
        EmitChooses(bases[1..], entries, params, seen, mac);
      } else {
        EmitChooses(bases[1..], entries, params, seen + {ip}, mac);
        var tail := Chosen(bases[1..], params, seen + {ip});
        assert ([bases[0]] + tail)[1..] == tail;
      }
    }
  }

  predicate Ascending(bs: seq<string>) {
    forall i, j | 0 <= i < j < |bs| :: StringLess(bs[i], bs[j])
  }

  lemma HeadIsLeast(bs: seq<string>, b: string)
    requires Ascending(bs) && bs != [] && b in bs[1..]
    ensures StringLess(bs[0], b)
  {
    var i :| 0 <= i < |bs[1..]| && bs[1..][i] == b;
    assert bs[i + 1] == b;
  }

  ghost predicate FirstIn(bases: seq<string>, params: Params, seen: set<string>, b: string) {
    && b in bases && !Skipped(IpOf(params, b), seen)
    && forall c | c in bases && StringLess(c, b) :: IpOf(params, c) != IpOf(params, b)
  }

  lemma FirstInTail(bases: seq<string>, params: Params, seen: set<string>, b: string)
    requires Ascending(bases) && bases != []
    ensures FirstIn(bases, params, seen, b) <==>
      if b == bases[0] then !Skipped(IpOf(params, b), seen)
      else FirstIn(bases[1..], params, seen, b) && IpOf(params, bases[0]) != IpOf(params, b)
  {
    assert bases == [bases[0]] + bases[1..];
    if b == bases[0] {
      StringLessIrreflexive(b);
      forall c | c in bases[1..] ensures !StringLess(c, b) {
        HeadIsLeast(bases, c);
        if StringLess(c, b) { StringLessTransitive(c, b, c); StringLessIrreflexive(c); }
      }
    } else if b in bases[1..] {
      HeadIsLeast(bases, b);
    }
  }

  /** The loop keeps the first reporter of each address, in base order. */
  lemma {:induction false} ChosenAreFirst(bases: seq<string>, params: Params, seen: set<string>)
    requires Ascending(bases)
    ensures Ascending(Chosen(bases, params, seen))
    ensures forall b :: b in Chosen(bases, params, seen) <==> FirstIn(bases, params, seen, b)
  {
    if bases != [] {
      var ip, rest := IpOf(params, bases[0]), bases[1..];
      if Skipped(ip, seen) {
        ChosenAreFirst(rest, params, seen);
      } else {
        ChosenAreFirst(rest, params, seen + {ip});
        ChosenAreInBases(rest, params, seen + {ip});
        var tail := Chosen(rest, params, seen + {ip});
        forall j | 0 <= j < |tail| ensures StringLess(bases[0], tail[j]) {
          assert tail[j] in tail;
          HeadIsLeast(bases, tail[j]);
        }
      }
      forall b ensures b in Chosen(bases, params, seen) <==> FirstIn(bases, params, seen, b) {
        FirstInTail(bases, params, seen, b);
        if b == bases[0] { HeadIsNotInTail(bases); ChosenAreInBases(rest, params, seen); }
      }
    }
  }

  lemma HeadIsNotInTail(bases: seq<string>)
    requires Ascending(bases) && bases != []
    ensures bases[0] !in bases[1..]
  {
    if bases[0] in bases[1..] {
      HeadIsLeast(bases, bases[0]);
      StringLessIrreflexive(bases[0]);
    }
  }

  lemma {:induction false} ChosenAreInBases(bases: seq<string>, params: Params, seen: set<string>)
    ensures forall b | b in Chosen(bases, params, seen) :: b in bases
  {
    if bases != [] {
      assert bases == [bases[0]] + bases[1..];
      ChosenAreInBases(bases[1..], params, seen);
      ChosenAreInBases(bases[1..], params, seen + {IpOf(params, bases[0])});
    }
  }

  // ---- the stable sort moves PPPoE connections to the front and nothing else ----

  function KeepWans(ws: seq<Wan>, pppoe: bool): seq<Wan> {
    if ws == [] then []
    else if EqualFold(ws[0].connection, "PPPoE") == pppoe then [ws[0]] + KeepWans(ws[1..], pppoe)
    else KeepWans(ws[1..], pppoe)
  }

  predicate AllPppoe(ws: seq<Wan>, pppoe: bool) {
    ws == [] || (EqualFold(ws[0].connection, "PPPoE") == pppoe && AllPppoe(ws[1..], pppoe))
  }

  lemma {:induction false} KeptAreAll(ws: seq<Wan>, pppoe: bool)
    ensures AllPppoe(KeepWans(ws, pppoe), pppoe)
  {
    if ws != [] { KeptAreAll(ws[1..], pppoe); }
  }

  lemma {:induction false} InsertPassesPppoe(x: Wan, front: seq<Wan>, back: seq<Wan>)
    requires AllPppoe(front, true) && AllPppoe(back, false)
    requires EqualFold(x.connection, "PPPoE") ==> front == []
    ensures InsertStable(x, front + back) == front + ([x] + back)
  {
    if front == [] {
      assert front + back == back;
    } else {
      InsertPassesPppoe(x, front[1..], back);
      assert (front + back)[1..] == front[1..] + back && (front + back)[0] == front[0];
      assert [front[0]] + (front[1..] + ([x] + back)) == front + ([x] + back) by {
        AddAssociates([front[0]], front[1..], [x] + back);
      }
    }
  }

  lemma InsertInFront(x: Wan, ws: seq<Wan>)
    requires EqualFold(x.connection, "PPPoE")
    ensures InsertStable(x, ws) == [x] + ws
  {
  }

  lemma InsertPasses(x: Wan, front: seq<Wan>, back: seq<Wan>)
    requires AllPppoe(front, true) && AllPppoe(back, false)
    ensures InsertStable(x, front + back) ==
      if EqualFold(x.connection, "PPPoE") then ([x] + front) + back else front + ([x] + back)
  {
    if EqualFold(x.connection, "PPPoE") {
      InsertInFront(x, front + back);
      AddAssociates([x], front, back);
    } else {
      InsertPassesPppoe(x, front, back);
    }
  }

  /** sortWANInfosByPriority is the stable partition: PPPoE first, both groups in their given order. */
  lemma {:induction false} StableSortIsPartition(ws: seq<Wan>)
    ensures StableSort(ws) == KeepWans(ws, true) + KeepWans(ws, false)
  {
    if ws != [] {
      StableSortIsPartition(ws[1..]);
      KeptAreAll(ws[1..], true);
      KeptAreAll(ws[1..], false);
      var front, back := KeepWans(ws[1..], true), KeepWans(ws[1..], false);
      InsertPasses(ws[0], front, back);
    }
  }

  lemma AddAssociates(a: seq<Wan>, b: seq<Wan>, c: seq<Wan>)
    ensures (a + b) + c == a + (b + c)
  {
  }

  lemma {:induction false} InfosAt(bs: seq<string>, entries: Entries, mac: string, i: nat)
    requires i < |bs|
    ensures Infos(bs, entries, mac)[i] == InfoIn(entries, bs[i], mac)
  {
    if i > 0 { InfosAt(bs[1..], entries, mac, i - 1); }
  }

  lemma {:induction false} InfosConcat(a: seq<string>, b: seq<string>, entries: Entries, mac: string)
    ensures Infos(a + b, entries, mac) == Infos(a, entries, mac) + Infos(b, entries, mac)
  {
    if a == [] {
      assert a + b == b;
    } else {
      assert (a + b)[0] == a[0] && (a + b)[1..] == a[1..] + b;
      InfosConcat(a[1..], b, entries, mac);
    }
  }

  lemma InfoTellsType(bs: seq<string>, entries: Entries, params: Params, mac: string)
    requires bs != [] && Faithful(entries, params) && forall b | b in bs :: b in entries
    ensures EqualFold(Infos(bs, entries, mac)[0].connection, "PPPoE") == IsPppoe(params, bs[0])
    ensures Infos(bs, entries, mac)[1..] == Infos(bs[1..], entries, mac)
  {
    assert bs[0] in bs;
  }

  lemma {:induction false} KeepCommutes(bs: seq<string>, entries: Entries, params: Params, mac: string, pppoe: bool)
    requires Faithful(entries, params) && forall b | b in bs :: b in entries
    ensures forall b | b in Keep(bs, params, pppoe) :: b in entries
    ensures KeepWans(Infos(bs, entries, mac), pppoe) == Infos(Keep(bs, params, pppoe), entries, mac)
  {
    if bs != [] {
      assert bs[0] in bs;
      InfoTellsType(bs, entries, params, mac);
      KeepCommutes(bs[1..], entries, params, mac, pppoe);
      var kept := Keep(bs[1..], params, pppoe);
      InfosConcat([bs[0]], kept, entries, mac);
      InfosAt(bs, entries, mac, 0);
      InfosAt([bs[0]], entries, mac, 0);
    }
  }

  lemma {:induction false} KeepMembers(bs: seq<string>, params: Params, pppoe: bool)
    ensures forall b :: b in Keep(bs, params, pppoe) <==> b in bs && IsPppoe(params, b) == pppoe
  {
    if bs != [] {
      assert bs == [bs[0]] + bs[1..];
      KeepMembers(bs[1..], params, pppoe);
    }
  }

  lemma {:induction false} KeepAscends(bs: seq<string>, params: Params, pppoe: bool)
    requires Ascending(bs)
    ensures Ascending(Keep(bs, params, pppoe))
  {
    if bs != [] {
      KeepAscends(bs[1..], params, pppoe);
      KeepMembers(bs[1..], params, pppoe);
      var tail := Keep(bs[1..], params, pppoe);
      forall j | 0 <= j < |tail| ensures StringLess(bs[0], tail[j]) {
        assert tail[j] in tail;
        HeadIsLeast(bs, tail[j]);
      }
    }
  }

  // ---- the whole extraction ----

  function BasesOf(order: seq<Key>): seq<string> {
    if order == [] then [] else [order[0].base] + BasesOf(order[1..])
  }

  lemma {:induction false} BasesAreReported(order: seq<Key>, b: string)
    ensures b in BasesOf(order) <==> Reported(order, b)
  {
    if order != [] {
      assert order == [order[0]] + order[1..];
      BasesAreReported(order[1..], b);
    }
  }

  lemma StringLessIsTotal()
    ensures StrictTotal(StringLess)
  {
    forall s: string ensures !StringLess(s, s) { StringLessIrreflexive(s); }
    forall s, t ensures StringLess(s, t) || s == t || StringLess(t, s) { StringLessTotal(s, t); }
    forall s, t, u | StringLess(s, t) && StringLess(t, u) ensures StringLess(s, u) { StringLessTransitive(s, t, u); }
  }

  function SortedBases(order: seq<Key>): seq<string> {
    Sort(BasesOf(order), StringLess)
  }

  lemma SortedBasesAreTheBases(order: seq<Key>, params: Params)
    requires Visits(order, params.Keys)
    ensures Ascending(SortedBases(order))
    ensures forall b :: b in SortedBases(order) <==> IsBase(params, b)
    ensures forall b | b in SortedBases(order) :: b in Scan(order, params)
  {
    StringLessIsTotal();
    SortSorts(BasesOf(order), StringLess);
    forall b ensures (b in SortedBases(order) <==> IsBase(params, b)) && (b in SortedBases(order) ==>
      b in Scan(order, params)) {
      BasesAreReported(order, b);
      ScanBuildsEntries(order, params, b);
      assert Reported(order, b) <==> IsBase(params, b);
    }
  }

  /** extractWANInfosTR098 followed by sortWANInfosByPriority, for one visiting order. */
  function Extraction(order: seq<Key>, params: Params, seen: set<string>, mac: string): seq<Wan>
    requires Visits(order, params.Keys)
  {
    SortedBasesAreTheBases(order, params);
    StableSort(Emit(SortedBases(order), Scan(order, params), seen, mac))
  }

  lemma KeepsAreListing(bs: seq<string>, params: Params, seen: set<string>)
    requires Ascending(bs) && forall b :: b in bs <==> FirstReporter(params, seen, b)
    ensures Listing(Keep(bs, params, true) + Keep(bs, params, false), params, seen)
  {
    KeepMembers(bs, params, true);
    KeepMembers(bs, params, false);
    KeepAscends(bs, params, true);
    KeepAscends(bs, params, false);
    var front, back := Keep(bs, params, true), Keep(bs, params, false);
    forall i, j | 0 <= i < j < |front + back| ensures ListedBefore(params, (front + back)[i], (front + back)[j]) {
      if i < |front| { assert front[i] in front; } else { assert back[i - |front|] in back; }
      if j < |front| { assert front[j] in front; } else { assert back[j - |front|] in back; }
    }
  }

  lemma EntryTellsBase(b: string, order: seq<Key>, params: Params)
    requires Visits(order, params.Keys)
    ensures var e := EntryFrom(order, params, b); e.connection == ConnectionOf(params, b) && e.ip == IpOf(params, b)
  {
    TextsAreTheMaps(order, params, b);
  }

  lemma ScanIsFaithful(order: seq<Key>, params: Params)
    requires Visits(order, params.Keys)
    ensures Faithful(Scan(order, params), params)
  {
    var entries := Scan(order, params);
    forall b | b in entries ensures entries[b].connection == ConnectionOf(params, b)
      && entries[b].ip == IpOf(params, b) {
      ScanBuildsEntries(order, params, b);
      EntryTellsBase(b, order, params);
    }
  }

  /** The loop and the sort, for any entries that hold the reported addresses and types. */
  lemma LoopIsListing(bases: seq<string>, entries: Entries, params: Params, seen: set<string>, mac: string)
    returns (bs: seq<string>)
    requires Ascending(bases) && forall b :: b in bases <==> IsBase(params, b)
    requires Faithful(entries, params) && forall b | b in bases :: b in entries
    ensures Listing(bs, params, seen) && forall b | b in bs :: b in entries
    ensures StableSort(Emit(bases, entries, seen, mac)) == Infos(bs, entries, mac)
  {
    EmitChooses(bases, entries, params, seen, mac);
    ChosenAreFirst(bases, params, seen);
    var chosen := Chosen(bases, params, seen);
    StableSortIsPartition(Infos(chosen, entries, mac));
    KeepCommutes(chosen, entries, params, mac, true);
    KeepCommutes(chosen, entries, params, mac, false);
    bs := Keep(chosen, params, true) + Keep(chosen, params, false);
    InfosConcat(Keep(chosen, params, true), Keep(chosen, params, false), entries, mac);
    KeepsAreListing(chosen, params, seen);
  }

  /** The result is the declarative listing, whatever the visiting order. */
  lemma ExtractionIsListing(order: seq<Key>, params: Params, seen: set<string>, mac: string) returns (bs: seq<string>)
    requires Visits(order, params.Keys)
    ensures Listing(bs, params, seen) && forall b | b in bs :: b in Scan(order, params)
    ensures Extraction(order, params, seen, mac) == Infos(bs, Scan(order, params), mac)
  {
    SortedBasesAreTheBases(order, params);
    ScanIsFaithful(order, params);
    bs := LoopIsListing(SortedBases(order), Scan(order, params), params, seen, mac);
  }

  // ---- the main results ----

  lemma ListedBeforeIsTotal(params: Params)
    ensures StrictTotal((a, b) => ListedBefore(params, a, b))
  {
    StringLessIsTotal();
  }

  /** The map and the addresses already seen determine which connections are listed, and in which order. */
  lemma ListingIsUnique(a: seq<string>, b: seq<string>, params: Params, seen: set<string>)
    requires Listing(a, params, seen) && Listing(b, params, seen)
    ensures a == b
  {
    ListedBeforeIsTotal(params);
    var less := (a, b) => ListedBefore(params, a, b);
    assert Ordered(a, less) && Ordered(b, less);
    OrderedIsUnique(a, b, less);
  }

  /** No address is listed twice, and every listed address is usable and new. */
  lemma AddressesAreDistinct(bs: seq<string>, params: Params, seen: set<string>, i: nat, j: nat)
    requires Listing(bs, params, seen) && i < j < |bs|
    ensures IpOf(params, bs[i]) != "" && IpOf(params, bs[i]) != "0.0.0.0" && IpOf(params, bs[i]) !in seen
    ensures IpOf(params, bs[j]) != "" && IpOf(params, bs[j]) != "0.0.0.0" && IpOf(params, bs[j]) !in seen
    ensures IpOf(params, bs[i]) != IpOf(params, bs[j])
  {
    assert bs[i] in bs && bs[j] in bs;
    StringLessTotal(bs[i], bs[j]);
    if bs[i] == bs[j] { StringLessIrreflexive(bs[i]); }
  }

  lemma {:induction false} AddressHasFirstReporter(bases: seq<string>, params: Params, seen: set<string>, b: string)
    returns (first: string)
    requires Ascending(bases) && b in bases && !Skipped(IpOf(params, b), seen)
    ensures FirstIn(bases, params, seen, first) && IpOf(params, first) == IpOf(params, b)
  {
    if IpOf(params, bases[0]) == IpOf(params, b) {
      first := bases[0];
    } else {
      assert bases == [bases[0]] + bases[1..];
      first := AddressHasFirstReporter(bases[1..], params, seen, b);
    }
    FirstInTail(bases, params, seen, first);
  }

  /** Every usable new address that some connection reports is listed. */
  lemma EveryAddressIsListed(bs: seq<string>, params: Params, seen: set<string>, b: string) returns (first: string)
    requires Listing(bs, params, seen) && IsBase(params, b)
    requires IpOf(params, b) != "" && IpOf(params, b) != "0.0.0.0" && IpOf(params, b) !in seen
    ensures first in bs && IpOf(params, first) == IpOf(params, b)
  {
    var order := SomeOrder(params.Keys);
    SortedBasesAreTheBases(order, params);
    first := AddressHasFirstReporter(SortedBases(order), params, seen, b);
    assert FirstReporter(params, seen, first);
  }

  // ---- the records, field by field ----

  /** w shows what the connection object at base reports; a field it does not report is blank or has its default. */
  ghost predicate Shows(w: Wan, params: Params, base: string, mac: string) {
    var conn, own := Value(params, Key(base, ConnectionType)), Value(params, Key(base, MACAddress));
    var ppp := Contains(base, "WANPPPConnection");
    && w.connection == (if conn != "" then conn else if ppp then "PPPoE" else "IP_Routed")
    && w.ip == Value(params, Key(base, ExternalIPAddress)) && w.mask == Value(params, Key(base, SubnetMask))
    && w.gateway == Value(params, Key(base, DefaultGateway)) && w.status == Value(params, Key(base, ConnectionStatus))
    && w.mtu == Atoi(Value(params, Key(base, MaxMTUSize))).Or(0)
         && w.uptime == Atoi(Value(params, Key(base, Uptime))).Or(0)
    && (w.dns1, w.dns2) == Dns.Pair(Value(params, Key(base, DNSServers)))
    && w.mac == (if own != "" then own else mac)
    && w.username == (if ppp then Value(params, Key(base, Username)) else "")
    && if exists n :: OwnService(params, base, n) then
         exists n :: OwnService(params, base, n) && w.service == params[Key(base, Other(n))]
       else w.service == ""
  }

  /** A parameter of the object whose name ends in ServiceList, in any spelling. */
  predicate OwnService(params: Params, base: string, n: string) {
    Key(base, Other(n)) in params && HasSuffix(ToLower(n), "servicelist")
  }

  lemma RecordShows(order: seq<Key>, params: Params, seen: set<string>, mac: string, bs: seq<string>, i: nat)
    requires Visits(order, params.Keys) && Listing(bs, params, seen) && i < |bs|
    ensures |Extraction(order, params, seen, mac)| == |bs| && Shows(Extraction(order, params, seen, mac)[i], params,
      bs[i],
      mac)
  {
    ExtractionAt(order, params, seen, mac, bs, i);
    TextsAreTheMaps(order, params, bs[i]);
    ServiceShows(order, params, bs[i]);
  }

  lemma ServiceShows(order: seq<Key>, params: Params, b: string)
    requires Visits(order, params.Keys)
    ensures if exists n :: OwnService(params, b, n) then
              exists n :: OwnService(params, b, n) && Service(order, params, b) == params[Key(b, Other(n))]
            else Service(order, params, b) == ""
  {
    var k := ServiceIsReported(order, params, b);
    if n :| OwnService(params, b, n) { assert IsServiceOf(params, b, Key(b, Other(n))); }
    if k in order && IsServiceOf(params, b, k) { assert OwnService(params, b, k.field.name); }
  }

  /** The records are those of usable addresses that are new, one for each such address, PPPoE connections in front. */
  ghost predicate Lists(wans: seq<Wan>, params: Params, seen: set<string>, mac: string) {
    && (forall i | 0 <= i < |wans| :: wans[i].ip != "" && wans[i].ip != "0.0.0.0" && wans[i].ip !in seen)
    && (forall i, j | 0 <= i < j < |wans| :: wans[i].ip != wans[j].ip)
    && (forall i, j | 0 <= i < j < |wans| && EqualFold(wans[j].connection, "PPPoE") ::
          EqualFold(wans[i].connection, "PPPoE"))
    && (forall i | 0 <= i < |wans| :: ShowsSome(wans[i], params, mac))
    && (forall b | IsBase(params, b) && Usable(IpOf(params, b), seen) ::
          exists w :: w in wans && w.ip == IpOf(params, b))
  }

  ghost predicate ShowsSome(w: Wan, params: Params, mac: string) {
    exists b :: IsBase(params, b) && Shows(w, params, b, mac)
  }

  predicate Usable(ip: string, seen: set<string>) {
    ip != "" && ip != "0.0.0.0" && ip !in seen
  }

  lemma ListedAddress(bs: seq<string>, params: Params, seen: set<string>, i: nat)
    requires Listing(bs, params, seen) && i < |bs|
    ensures IsBase(params, bs[i]) && Usable(IpOf(params, bs[i]), seen)
  {
    assert bs[i] in bs;
  }

  lemma PppoeInFront(bs: seq<string>, params: Params, seen: set<string>, i: nat, j: nat)
    requires Listing(bs, params, seen) && i < j < |bs| && IsPppoe(params, bs[j])
    ensures IsPppoe(params, bs[i])
  {
    assert ListedBefore(params, bs[i], bs[j]);
  }

  lemma ListedRecord(order: seq<Key>, params: Params, seen: set<string>, mac: string, bs: seq<string>, i: nat)
    requires Visits(order, params.Keys) && Listing(bs, params, seen) && i < |bs|
    ensures var wans := Extraction(order, params, seen, mac);
      && |wans| == |bs| && wans[i].ip == IpOf(params, bs[i]) && Usable(wans[i].ip, seen)
      && IsBase(params, bs[i]) && Shows(wans[i], params, bs[i], mac)
      && (EqualFold(wans[i].connection, "PPPoE") <==> IsPppoe(params, bs[i]))
  {
    RecordShows(order, params, seen, mac, bs, i);
    ListedAddress(bs, params, seen, i);
    ShownType(Extraction(order, params, seen, mac)[i], params, bs[i], mac);
  }

  lemma EveryRecord(order: seq<Key>, params: Params, seen: set<string>, mac: string, bs: seq<string>)
    requires Visits(order, params.Keys) && Listing(bs, params, seen)
    ensures var wans := Extraction(order, params, seen, mac);
      && |wans| == |bs|
      && forall i | 0 <= i < |wans| ::
           && wans[i].ip == IpOf(params, bs[i]) && Usable(wans[i].ip, seen)
           && IsBase(params, bs[i]) && Shows(wans[i], params, bs[i], mac)
           && (EqualFold(wans[i].connection, "PPPoE") <==> IsPppoe(params, bs[i]))
  {
    InfosCount(order, params, seen, mac, bs);
    forall i | 0 <= i < |bs|
      ensures var w := Extraction(order, params, seen, mac)[i];
        && w.ip == IpOf(params, bs[i]) && Usable(w.ip, seen) && IsBase(params, bs[i]) && Shows(w, params, bs[i], mac)
        && (EqualFold(w.connection, "PPPoE") <==> IsPppoe(params, bs[i]))
    {
      ListedRecord(order, params, seen, mac, bs, i);
    }
  }

  /** The result of the extraction, whatever the visiting order. */
  lemma ExtractionLists(order: seq<Key>, params: Params, seen: set<string>, mac: string)
    requires Visits(order, params.Keys)
    ensures Lists(Extraction(order, params, seen, mac), params, seen, mac)
  {
    var bs := ExtractionIsListing(order, params, seen, mac);
    EveryRecord(order, params, seen, mac, bs);
    RecordsAreLists(Extraction(order, params, seen, mac), bs, params, seen, mac);
  }

  lemma RecordsAreLists(wans: seq<Wan>, bs: seq<string>, params: Params, seen: set<string>, mac: string)
    requires |wans| == |bs| && Listing(bs, params, seen)
    requires forall i | 0 <= i < |wans| ::
           && wans[i].ip == IpOf(params, bs[i]) && Usable(wans[i].ip, seen)
           && IsBase(params, bs[i]) && Shows(wans[i], params, bs[i], mac)
           && (EqualFold(wans[i].connection, "PPPoE") <==> IsPppoe(params, bs[i]))
    ensures Lists(wans, params, seen, mac)
  {
    forall i | 0 <= i < |wans| ensures ShowsSome(wans[i], params, mac) {
      assert IsBase(params, bs[i]) && Shows(wans[i], params, bs[i], mac);
    }
    forall i, j | 0 <= i < j < |wans| ensures wans[i].ip != wans[j].ip { AddressesAreDistinct(bs, params, seen, i, j); }
    forall i, j | 0 <= i < j < |wans| && EqualFold(wans[j].connection, "PPPoE")
      ensures EqualFold(wans[i].connection, "PPPoE") {
      PppoeInFront(bs, params, seen, i, j);
    }
    forall b | IsBase(params, b) && Usable(IpOf(params, b), seen)
      ensures exists w :: w in wans && w.ip == IpOf(params, b)
    {
      var first := EveryAddressIsListed(bs, params, seen, b);
      var i :| 0 <= i < |bs| && bs[i] == first;
      assert wans[i] in wans && wans[i].ip == IpOf(params, b);
    }
  }

  lemma InfosCount(order: seq<Key>, params: Params, seen: set<string>, mac: string, bs: seq<string>)
    requires Visits(order, params.Keys) && Listing(bs, params, seen)
    ensures |Extraction(order, params, seen, mac)| == |bs|
  {
    var cs := ExtractionIsListing(order, params, seen, mac);
    ListingIsUnique(bs, cs, params, seen);
  }

  lemma ShownType(w: Wan, params: Params, base: string, mac: string)
    requires Shows(w, params, base, mac)
    ensures EqualFold(w.connection, "PPPoE") <==> IsPppoe(params, base)
  {
  }

  ghost predicate ServicesAgree(params: Params, b: string) {
    forall k, q | k in params && q in params && k.base == q.base == b && IsServiceList(k.field)
      && IsServiceList(q.field) ::
      params[k] == params[q]
  }

  /** The result does not depend on the visiting order. */
  ghost predicate OrderIrrelevant(params: Params, seen: set<string>, mac: string) {
    forall o, q | Visits(o, params.Keys) && Visits(q, params.Keys) ::
      Extraction(o, params, seen, mac) == Extraction(q, params, seen, mac)
  }

  ghost predicate IsServiceOf(params: Params, b: string, k: Key) {
    k in params && k.base == b && IsServiceList(k.field)
  }

  lemma {:induction false} ServiceIsReported(done: seq<Key>, params: Params, b: string) returns (k: Key)
    requires forall q | q in done :: q in params
    ensures if exists q | q in done :: IsServiceOf(params, b, q)
            then k in done && IsServiceOf(params, b, k) && Service(done, params, b) == params[k]
            else Service(done, params, b) == ""
  {
    k := Key(b, Other(""));
    if done != [] {
      var n := |done| - 1;
      assert done == done[..n] + [done[n]] && done[n] in done;
      if IsServiceOf(params, b, done[n]) {
        k := done[n];
      } else {
        k := ServiceIsReported(done[..n], params, b);
      }
    }
  }

  lemma AgreementFixesEntry(o: seq<Key>, q: seq<Key>, params: Params, b: string)
    requires Visits(o, params.Keys) && Visits(q, params.Keys) && ServicesAgree(params, b)
    ensures EntryFrom(o, params, b) == EntryFrom(q, params, b)
  {
    TextsAreTheMaps(o, params, b);
    TextsAreTheMaps(q, params, b);
    var k := ServiceIsReported(o, params, b);
    var l := ServiceIsReported(q, params, b);
    assert (exists x | x in o :: IsServiceOf(params, b, x)) <==> (exists x | x in q :: IsServiceOf(params, b, x));
  }

  lemma {:induction false} EqualEntriesEqualInfos(bs: seq<string>, e: Entries, f: Entries, mac: string)
    requires forall b | b in bs :: b in e && b in f && e[b] == f[b]
    ensures Infos(bs, e, mac) == Infos(bs, f, mac)
  {
    if bs != [] {
      assert bs[0] in bs;
      EqualEntriesEqualInfos(bs[1..], e, f, mac);
    }
  }

  lemma OrderEndingWith(params: Params, b: string, k: Key) returns (order: seq<Key>)
    requires IsServiceOf(params, b, k)
    ensures Visits(order, params.Keys) && Service(order, params, b) == params[k]
  {
    var init := SomeOrder(params.Keys - {k});
    order := init + [k];
    ServiceStep(init, k, params, b);
  }

  lemma AgreementSuffices(params: Params, seen: set<string>, mac: string)
    requires forall b | FirstReporter(params, seen, b) :: ServicesAgree(params, b)
    ensures OrderIrrelevant(params, seen, mac)
  {
    forall o, q | Visits(o, params.Keys) && Visits(q, params.Keys)
      ensures Extraction(o, params, seen, mac) == Extraction(q, params, seen, mac)
    {
      var bs := ExtractionIsListing(o, params, seen, mac);
      var cs := ExtractionIsListing(q, params, seen, mac);
      ListingIsUnique(bs, cs, params, seen);
      forall b | b in bs ensures Scan(o, params)[b] == Scan(q, params)[b] {
        ScanBuildsEntries(o, params, b);
        ScanBuildsEntries(q, params, b);
        AgreementFixesEntry(o, q, params, b);
      }
      EqualEntriesEqualInfos(bs, Scan(o, params), Scan(q, params), mac);
    }
  }

  /** The service shown for a listed connection is the one visited last. */
  lemma ListedService(order: seq<Key>, params: Params, seen: set<string>, mac: string, bs: seq<string>, i: nat)
    requires Visits(order, params.Keys) && Listing(bs, params, seen) && i < |bs|
    ensures |Extraction(order, params, seen, mac)| == |bs|
    ensures Extraction(order, params, seen, mac)[i].service == Service(order, params, bs[i])
  {
    ExtractionAt(order, params, seen, mac, bs, i);
  }

  lemma DisagreementShows(params: Params, seen: set<string>, mac: string, b: string, k: Key, q: Key)
    requires FirstReporter(params, seen, b)
    requires IsServiceOf(params, b, k) && IsServiceOf(params, b, q) && params[k] != params[q]
    ensures !OrderIrrelevant(params, seen, mac)
  {
    var o := OrderEndingWith(params, b, k);
    var p := OrderEndingWith(params, b, q);
    var bs := ExtractionIsListing(o, params, seen, mac);
    var i :| 0 <= i < |bs| && bs[i] == b;
    ListedService(o, params, seen, mac, bs, i);
    ListedService(p, params, seen, mac, bs, i);
    assert Extraction(o, params, seen, mac) != Extraction(p, params, seen, mac);
  }

  /** The extraction is a function of the map exactly when no listed connection reports two different service lists. */
  lemma OrderIrrelevantIff(params: Params, seen: set<string>, mac: string)
    ensures OrderIrrelevant(params, seen, mac) <==> forall b | FirstReporter(params, seen, b) ::
      ServicesAgree(params, b)
  {
    if forall b | FirstReporter(params, seen, b) :: ServicesAgree(params, b) {
      AgreementSuffices(params, seen, mac);
    } else {
      var b :| FirstReporter(params, seen, b) && !ServicesAgree(params, b);
      var k, q :| IsServiceOf(params, b, k) && IsServiceOf(params, b, q) && params[k] != params[q];
      DisagreementShows(params, seen, mac, b, k, q);
    }
  }

  // ---- the code ----

  /** The keys in order have been visited once each, those in todo have not. */
  ghost predicate PartWay(order: seq<Key>, todo: set<Key>, params: Params) {
    && (forall k :: k in order <==> k in params && k !in todo)
    && (forall k | k in todo :: k in params)
    && (forall i, j | 0 <= i < j < |order| :: order[i] != order[j])
  }

  lemma VisitNext(order: seq<Key>, todo: set<Key>, params: Params, k: Key)
    requires PartWay(order, todo, params) && k in todo
    ensures PartWay(order + [k], todo - {k}, params)
  {
  }

  /** The body of the loop: find or create the entry of k, then store the field. */
  method Visit(entries: Entries, params: Params, k: Key, ghost order: seq<Key>, ghost todo: set<Key>)
    returns (next: Entries, ghost visited: seq<Key>)
    requires k in todo && PartWay(order, todo, params) && entries == Scan(order, params)
    ensures PartWay(visited, todo - {k}, params) && next == Scan(visited, params)
  {
    VisitNext(order, todo, params, k);
    assert (order + [k])[..|order|] == order;
    next, visited := Touch(entries, k, params[k]), order + [k];
  }

  /** The range statement over the parameter map, in whatever order it visits the keys. */
  method ScanParams(params: Params) returns (entries: Entries, ghost order: seq<Key>)
    ensures Visits(order, params.Keys) && entries == Scan(order, params)
  {
    var todo := params.Keys;
    entries, order := map[], [];
    while todo != {}
      invariant PartWay(order, todo, params)
      invariant entries == Scan(order, params)
      decreases |todo|
    {
      var k :| k in todo;
      entries, order := Visit(entries, params, k, order, todo);
      todo := todo - {k};
    }
  }

  method BuildInfo(base: string, e: Entry, mac: string) returns (w: Wan)
    ensures w == Info(base, e, mac)
  {
    var conn, own := e.connection, e.mac;
    if IsPpp(base) && conn == "" {
      conn := "PPPoE";
    }
    if conn == "" {
      conn := "IP_Routed";
    }
    if own == "" {
      own := mac;
    }
    var dns1, dns2 := Dns.FirstAndSecond(e.dns);
    w := Wan(conn, e.service, e.ip, e.mask, e.gateway, dns1, dns2, e.mtu, e.uptime, e.status, own, e.username);
  }

  /** The addresses of a list of connections. */
  function IpsOf(ws: seq<Wan>): set<string> {
    set w | w in ws :: w.ip
  }

  lemma EmitStep(wans: seq<Wan>, w: Wan, rest: seq<Wan>, seen: set<string>)
    ensures wans + ([w] + rest) == wans + [w] + rest
    ensures seen + IpsOf(wans + [w]) == seen + IpsOf(wans) + {w.ip}
  {
    forall x ensures x in wans + [w] <==> x in wans || x == w {
      assert (wans + [w])[|wans|] == w;
    }
  }

  /** The addresses of the emitted connections join those already seen. */
  method EmitWans(bases: seq<string>, entries: Entries, seen: set<string>, mac: string)
    returns (wans: seq<Wan>, known: set<string>)
    requires forall b | b in bases :: b in entries
    ensures wans == Emit(bases, entries, seen, mac)
    ensures known == seen + IpsOf(wans)
  {
    wans, known := [], seen;
    for i := 0 to |bases|
      invariant wans + Emit(bases[i..], entries, known, mac) == Emit(bases, entries, seen, mac)
      invariant known == seen + IpsOf(wans)
    {
      assert bases[i] in bases && bases[i..][1..] == bases[i + 1..];
      var e := entries[bases[i]];
      if !Skipped(e.ip, known) {
        var w := BuildInfo(bases[i], e, mac);
        EmitStep(wans, w, Emit(bases[i + 1..], entries, known + {e.ip}, mac), seen);
        wans := wans + [w];
        known := known + {e.ip};
      }
    }
  }

  method CollectBases(entries: Entries) returns (bases: seq<string>)
    ensures forall b :: b in bases <==> b in entries
  {
    var todo := entries;
    bases := [];
    while todo != map[]
      invariant forall b | b in todo :: b in entries
      invariant forall b :: b in bases <==> b in entries && b !in todo
      decreases |todo|
    {
      var b :| b in todo;
      bases := bases + [b];
      todo := todo - {b};
    }
  }

  method SortBases(entries: Entries, ghost order: seq<Key>, ghost params: Params) returns (sorted: seq<string>)
    requires Visits(order, params.Keys) && entries == Scan(order, params)
    ensures sorted == SortedBases(order)
  {
    var bases := CollectBases(entries);
    StringLessIsTotal();
    SortSorts(bases, StringLess);
    sorted := Sort(bases, StringLess);
    SortSorts(BasesOf(order), StringLess);
    forall b ensures b in sorted <==> b in SortedBases(order) {
      BasesAreReported(order, b);
      ScanBuildsEntries(order, params, b);
    }
    OrderedIsUnique(sorted, SortedBases(order), StringLess);
  }

  lemma ExtractionAt(order: seq<Key>, params: Params, seen: set<string>, mac: string, bs: seq<string>, i: nat)
    requires Visits(order, params.Keys) && Listing(bs, params, seen) && i < |bs|
    ensures |Extraction(order, params, seen, mac)| == |bs|
    ensures Extraction(order, params, seen, mac)[i] == Info(bs[i], EntryFrom(order, params, bs[i]), mac)
  {
    var cs := ExtractionIsListing(order, params, seen, mac);
    ListingIsUnique(bs, cs, params, seen);
    InfosAt(cs, Scan(order, params), mac, i);
    assert cs[i] in cs;
    ScanBuildsEntries(order, params, bs[i]);
  }

  lemma {:induction false} InsertStableElements(x: Wan, ws: seq<Wan>)
    ensures forall w :: w in InsertStable(x, ws) <==> w == x || w in ws
  {
    if ws != [] && Sooner(ws[0], x) {
      InsertStableElements(x, ws[1..]);
    }
  }

  lemma {:induction false} StableSortElements(ws: seq<Wan>)
    ensures forall w :: w in StableSort(ws) <==> w in ws
  {
    if ws != [] {
      StableSortElements(ws[1..]);
      InsertStableElements(ws[0], StableSort(ws[1..]));
    }
  }

  /** extractWANInfosTR098 and the priority sort: the result for some visiting order, and the addresses seen by then. */
  method ExtractWanInfos(params: Params, seen: set<string>, mac: string) returns (wans: seq<Wan>, known: set<string>)
    ensures exists order :: Visits(order, params.Keys) && wans == Extraction(order, params, seen, mac)
    ensures Lists(wans, params, seen, mac)
    ensures known == seen + IpsOf(wans)
  {
    var entries;
    ghost var order;
    entries, order := ScanParams(params);
    var bases := SortBases(entries, order, params);
    SortedBasesAreTheBases(order, params);
    var emitted: seq<Wan>;
    emitted, known := EmitWans(bases, entries, seen, mac);
    wans := StableSort(emitted);
    StableSortElements(emitted);
    assert IpsOf(wans) == IpsOf(emitted);
    ExtractionLists(order, params, seen, mac);
  }
}
