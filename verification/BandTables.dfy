/** Tables of instance numbers: for each wireless band the lowest instance on that band, and
    what the schema mapper makes of them. */
module BandTables {
  import opened GoStrings
  import opened Ordering

  // ---- keeping the lowest instance seen ----

  /** The update made for every visited instance; 0 means none yet. */
  function Lower(cur: nat, idx: nat): nat {
    if cur == 0 || idx < cur then idx else cur
  }

  /** The result of visiting instances in the given order, with repetitions. */
  function Lowest(visits: seq<nat>): nat {
    if visits == [] then 0 else Lower(Lowest(visits[..|visits| - 1]), visits[|visits| - 1])
  }

  /** r is the least member of s, or 0 when there is none. */
  predicate IsLeast(r: nat, s: set<nat>) {
    if s == {} then r == 0 else r in s && forall x | x in s :: r <= x
  }

  function Elements(visits: seq<nat>): set<nat> {
    set x | x in visits
  }

  lemma {:induction false} LowestIsLeast(visits: seq<nat>)
    requires 0 !in visits
    ensures IsLeast(Lowest(visits), Elements(visits))
  {
    if visits != [] {
      var init, last := visits[..|visits| - 1], visits[|visits| - 1];
      assert visits == init + [last];
      LowestIsLeast(init);
      assert Elements(visits) == Elements(init) + {last};
    }
  }

  function Keep(visits: seq<nat>, zeros: bool): seq<nat> {
    if visits == [] then []
    else if (visits[0] == 0) == zeros then [visits[0]] + Keep(visits[1..], zeros)
    else Keep(visits[1..], zeros)
  }

  lemma {:induction false} KeepSplits(visits: seq<nat>)
    ensures multiset(Keep(visits, true)) + multiset(Keep(visits, false)) == multiset(visits)
    ensures forall x | x in Keep(visits, true) :: x == 0
    ensures 0 !in Keep(visits, false)
    ensures 0 in visits ==> Keep(visits, true) != []
    ensures (exists x | x in visits :: x != 0) ==> Keep(visits, false) != []
  {
    if visits != [] {
      assert visits == [visits[0]] + visits[1..];
      KeepSplits(visits[1..]);
    }
  }

  lemma {:induction false} ZerosFirst(zeros: seq<nat>, rest: seq<nat>)
    requires (forall x | x in zeros :: x == 0) && 0 !in rest
    ensures Lowest(zeros + rest) == Lowest(rest)
  {
    if rest == [] {
      assert zeros + rest == zeros;
      AllZeros(zeros);
    } else {
      var n := |rest| - 1;
      assert (zeros + rest)[..|zeros + rest| - 1] == zeros + rest[..n];
      ZerosFirst(zeros, rest[..n]);
    }
  }

  lemma {:induction false} AllZeros(zeros: seq<nat>)
    requires forall x | x in zeros :: x == 0
    ensures Lowest(zeros) == 0
  {
    if zeros != [] {
      var n := |zeros| - 1;
      assert zeros[n] in zeros && forall x | x in zeros[..n] :: x in zeros;
      AllZeros(zeros[..n]);
    }
  }

  ghost predicate OrderFree(visits: seq<nat>) {
    forall other: seq<nat> | multiset(other) == multiset(visits) :: Lowest(other) == Lowest(visits)
  }

  lemma SameElements(a: seq<nat>, b: seq<nat>)
    requires multiset(a) == multiset(b)
    ensures forall x :: x in a <==> x in b
  {
    assert forall x :: x in a <==> x in multiset(a);
  }

  lemma LeastIsUnique(a: nat, b: nat, s: set<nat>)
    requires IsLeast(a, s) && IsLeast(b, s)
    ensures a == b
  {
  }

  lemma PositiveIsOrderFree(visits: seq<nat>, other: seq<nat>)
    requires 0 !in visits && multiset(other) == multiset(visits)
    ensures Lowest(other) == Lowest(visits)
  {
    SameElements(other, visits);
    LowestIsLeast(other);
    LowestIsLeast(visits);
    assert Elements(other) == Elements(visits);
    LeastIsUnique(Lowest(other), Lowest(visits), Elements(visits));
  }

  lemma MixedIsOrderSensitive(visits: seq<nat>) returns (a: seq<nat>, b: seq<nat>)
    requires 0 in visits && exists x | x in visits :: x != 0
    ensures multiset(a) == multiset(visits) == multiset(b) && Lowest(a) != Lowest(b)
  {
    KeepSplits(visits);
    var zeros, rest := Keep(visits, true), Keep(visits, false);
    a, b := zeros + rest, rest + zeros;
    ZerosFirst(zeros, rest);
    ZerosLast(rest, zeros);
    LowestIsLeast(rest);
    assert rest[0] in Elements(rest);
  }

  /** The lowest instance does not depend on the visiting order exactly when instance 0, which stands for
      "none", is not mixed with others. TR-069 numbers instances from 1. */
  lemma OrderFreeIff(visits: seq<nat>)
    ensures OrderFree(visits) <==> 0 !in visits || forall x | x in visits :: x == 0
  {
    if 0 !in visits {
      forall other: seq<nat> | multiset(other) == multiset(visits) ensures Lowest(other) == Lowest(visits) {
        PositiveIsOrderFree(visits, other);
      }
    } else if forall x | x in visits :: x == 0 {
      forall other: seq<nat> | multiset(other) == multiset(visits) ensures Lowest(other) == Lowest(visits) {
        SameElements(other, visits);
        AllZeros(other);
        AllZeros(visits);
      }
    } else {
      var a, b := MixedIsOrderSensitive(visits);
    }
  }

  lemma ZerosLast(rest: seq<nat>, zeros: seq<nat>)
    requires zeros != [] && forall x | x in zeros :: x == 0
    ensures Lowest(rest + zeros) == 0
  {
    var all := rest + zeros;
    assert all[|all| - 1] == zeros[|zeros| - 1] && zeros[|zeros| - 1] in zeros;
  }

  // ---- tables per band ----

  /** Bands by instance number. */
  type Bands = map<nat, nat>

  function Members(bandOf: Bands, band: nat): set<nat> {
    set i | i in bandOf && bandOf[i] == band
  }

  /** Entry b is the lowest instance on band b, or 0 when the band has none. */
  ghost predicate LeastTable(table: seq<nat>, bandOf: Bands) {
    forall b | 0 <= b < |table| :: IsLeast(table[b], Members(bandOf, b))
  }

  /** The instances on one band, in the order in which the map is visited. */
  function OnBand(order: seq<nat>, bandOf: Bands, b: nat): seq<nat> {
    if order == [] then [] else
      var i := order[|order| - 1];
      OnBand(order[..|order| - 1], bandOf, b) + if i in bandOf && bandOf[i] == b then [i] else []
  }

  lemma {:induction false} OnBandConcat(a: seq<nat>, c: seq<nat>, bandOf: Bands, b: nat)
    ensures OnBand(a + c, bandOf, b) == OnBand(a, bandOf, b) + OnBand(c, bandOf, b)
  {
    if c == [] {
      assert a + c == a;
    } else {
      assert (a + c)[..|a + c| - 1] == a + c[..|c| - 1];
      OnBandConcat(a, c[..|c| - 1], bandOf, b);
    }
  }

  lemma {:induction false} OnBandElements(order: seq<nat>, bandOf: Bands, b: nat)
    ensures forall i :: i in OnBand(order, bandOf, b) <==> i in order && i in bandOf && bandOf[i] == b
  {
    if order != [] {
      assert order == order[..|order| - 1] + [order[|order| - 1]];
      OnBandElements(order[..|order| - 1], bandOf, b);
    }
  }

  function LastOf(visits: seq<nat>): nat {
    if visits == [] then 0 else visits[|visits| - 1]
  }

  /** What a loop over the map leaves in entry b: the lowest visited instance, or the last one. */
  function EntryOf(order: seq<nat>, bandOf: Bands, lowest: bool, b: nat): nat {
    var visits := OnBand(order, bandOf, b);
    if lowest then Lowest(visits) else LastOf(visits)
  }

  ghost predicate FilledBy(table: seq<nat>, bandOf: Bands, lowest: bool, order: seq<nat>) {
    forall b | 0 <= b < |table| :: table[b] == EntryOf(order, bandOf, lowest, b)
  }

  /** The table some visiting order leaves. */
  ghost predicate Filled(table: seq<nat>, bandOf: Bands, lowest: bool) {
    exists order :: Visits(order, bandOf.Keys) && FilledBy(table, bandOf, lowest, order)
  }

  lemma EntryOfMembers(order: seq<nat>, bandOf: Bands, b: nat)
    requires Visits(order, bandOf.Keys)
    ensures Elements(OnBand(order, bandOf, b)) == Members(bandOf, b)
  {
    OnBandElements(order, bandOf, b);
  }

  lemma EntryIsLeast(order: seq<nat>, bandOf: Bands, b: nat)
    requires Visits(order, bandOf.Keys) && 0 !in Members(bandOf, b)
    ensures IsLeast(EntryOf(order, bandOf, true, b), Members(bandOf, b))
  {
    var visits := OnBand(order, bandOf, b);
    EntryOfMembers(order, bandOf, b);
    assert 0 in visits ==> 0 in Elements(visits);
    LowestIsLeast(visits);
  }

  /** With instances numbered from 1, whatever the order. */
  lemma FilledIsLeast(table: seq<nat>, bandOf: Bands)
    requires Filled(table, bandOf, true) && 0 !in bandOf
    ensures LeastTable(table, bandOf)
  {
    var order :| Visits(order, bandOf.Keys) && FilledBy(table, bandOf, true, order);
    forall b | 0 <= b < |table| ensures IsLeast(table[b], Members(bandOf, b)) {
      EntryIsLeast(order, bandOf, b);
    }
  }

  /** When all orders leave the same entry: no instance 0 among others for the lowest one,
      at most one instance for the last one. */
  ghost predicate Settled(bandOf: Bands, lowest: bool, b: nat) {
    if lowest then 0 !in Members(bandOf, b) || Members(bandOf, b) == {0}
    else forall i, j | i in Members(bandOf, b) && j in Members(bandOf, b) :: i == j
  }

  lemma SettledEntry(a: seq<nat>, c: seq<nat>, bandOf: Bands, lowest: bool, b: nat)
    requires Visits(a, bandOf.Keys) && Visits(c, bandOf.Keys) && Settled(bandOf, lowest, b)
    ensures EntryOf(a, bandOf, lowest, b) == EntryOf(c, bandOf, lowest, b)
  {
    OnBandElements(a, bandOf, b);
    OnBandElements(c, bandOf, b);
    var u, v := OnBand(a, bandOf, b), OnBand(c, bandOf, b);
    assert forall i :: i in Members(bandOf, b) <==> i in u;
    assert forall i :: i in Members(bandOf, b) <==> i in v;
    if !lowest {
      assert u != [] ==> u[|u| - 1] in v;
      assert v != [] ==> v[|v| - 1] in u;
    } else if 0 !in Members(bandOf, b) {
      EntryIsLeast(a, bandOf, b);
      EntryIsLeast(c, bandOf, b);
      LeastIsUnique(EntryOf(a, bandOf, true, b), EntryOf(c, bandOf, true, b), Members(bandOf, b));
    } else {
      AllZeros(u);
      AllZeros(v);
    }
  }

  lemma VisitsAround(keys: set<nat>, i: nat, rest: seq<nat>)
    requires i in keys && Visits(rest, keys - {i})
    ensures Visits([i] + rest, keys) && Visits(rest + [i], keys)
  {
    assert forall k | k in rest :: k != i;
    assert forall j | 0 <= j < |rest| :: rest[j] in rest;
  }

  lemma OnBandAround(bandOf: Bands, i: nat, rest: seq<nat>, b: nat)
    requires i in bandOf && bandOf[i] == b
    ensures OnBand([i] + rest, bandOf, b) == [i] + OnBand(rest, bandOf, b)
    ensures OnBand(rest + [i], bandOf, b) == OnBand(rest, bandOf, b) + [i]
  {
    OnBandConcat([i], rest, bandOf, b);
    OnBandConcat(rest, [i], bandOf, b);
    assert OnBand([i], bandOf, b) == [] + [i];
  }

  lemma OthersOnBand(bandOf: Bands, i: nat, rest: seq<nat>, b: nat)
    requires Visits(rest, bandOf.Keys - {i})
    ensures Elements(OnBand(rest, bandOf, b)) == Members(bandOf, b) - {i}
  {
    OnBandElements(rest, bandOf, b);
  }

  /** An instance may be visited before or after all others of its band. */
  lemma FirstOrLast(bandOf: Bands, i: nat) returns (a: seq<nat>, c: seq<nat>, others: seq<nat>)
    requires i in bandOf
    ensures Visits(a, bandOf.Keys) && Visits(c, bandOf.Keys)
    ensures OnBand(a, bandOf, bandOf[i]) == [i] + others && OnBand(c, bandOf, bandOf[i]) == others + [i]
    ensures Elements(others) == Members(bandOf, bandOf[i]) - {i}
  {
    var rest := SomeOrder(bandOf.Keys - {i});
    VisitsAround(bandOf.Keys, i, rest);
    OnBandAround(bandOf, i, rest, bandOf[i]);
    OthersOnBand(bandOf, i, rest, bandOf[i]);
    a, c, others := [i] + rest, rest + [i], OnBand(rest, bandOf, bandOf[i]);
  }

  /** Visiting one instance of the band first and last gives different entries. */
  lemma UnsettledEntry(bandOf: Bands, lowest: bool, b: nat) returns (a: seq<nat>, c: seq<nat>)
    requires !Settled(bandOf, lowest, b)
    ensures Visits(a, bandOf.Keys) && Visits(c, bandOf.Keys)
    ensures EntryOf(a, bandOf, lowest, b) != EntryOf(c, bandOf, lowest, b)
  {
    var others: seq<nat>;
    if lowest {
      var j :| j in Members(bandOf, b) && j != 0;
      a, c, others := FirstOrLast(bandOf, 0);
      assert j in Elements(others) && 0 !in Elements(others);
      ZerosFirst([0], others);
      ZerosLast(others, [0]);
      LowestIsLeast(others);
    } else {
      var i, j :| i in Members(bandOf, b) && j in Members(bandOf, b) && i != j;
      a, c, others := FirstOrLast(bandOf, i);
      assert j in Elements(others) && i !in Elements(others);
      assert ([i] + others)[|others|] in others;
    }
  }

  function TableIn(order: seq<nat>, bandOf: Bands, lowest: bool, n: nat): (table: seq<nat>)
    ensures |table| == n && forall b | 0 <= b < n :: table[b] == EntryOf(order, bandOf, lowest, b)
  {
    seq(n, b requires 0 <= b => EntryOf(order, bandOf, lowest, b))
  }

  ghost predicate OneTable(bandOf: Bands, lowest: bool, n: nat) {
    forall t, u | Filled(t, bandOf, lowest) && Filled(u, bandOf, lowest) && |t| == n && |u| == n :: t == u
  }

  /** A table does not depend on the visiting order if and only if every band of it is settled: for SSIDs and
      access points no instance 0 among others, for radios at most one to a band. */
  lemma OneTableIff(bandOf: Bands, lowest: bool, n: nat)
    ensures OneTable(bandOf, lowest, n) <==> forall b | 0 <= b < n :: Settled(bandOf, lowest, b)
  {
    if forall b | 0 <= b < n :: Settled(bandOf, lowest, b) {
      forall t, u | Filled(t, bandOf, lowest) && Filled(u, bandOf, lowest) && |t| == n && |u| == n ensures t == u {
        var a :| Visits(a, bandOf.Keys) && FilledBy(t, bandOf, lowest, a);
        var c :| Visits(c, bandOf.Keys) && FilledBy(u, bandOf, lowest, c);
        forall b | 0 <= b < n ensures t[b] == u[b] {
          SettledEntry(a, c, bandOf, lowest, b);
        }
      }
    } else {
      var b :| 0 <= b < n && !Settled(bandOf, lowest, b);
      var a, c := UnsettledEntry(bandOf, lowest, b);
      var t, u := TableIn(a, bandOf, lowest, n), TableIn(c, bandOf, lowest, n);
      assert FilledBy(t, bandOf, lowest, a) && FilledBy(u, bandOf, lowest, c);
      assert t[b] != u[b];
    }
  }

  /** The loop over an instance-to-band map that fills a zeroed table in place. */
  method Fill(table: array<nat>, bandOf: Bands, lowest: bool)
    requires forall b | 0 <= b < table.Length :: table[b] == 0
    modifies table
    ensures Filled(table[..], bandOf, lowest)
  {
    var todo := bandOf.Keys;
    ghost var order := [];
    while todo != {}
      invariant todo <= bandOf.Keys
      invariant Visits(order, bandOf.Keys - todo)
      invariant FilledBy(table[..], bandOf, lowest, order)
      decreases |todo|
    {
      var i :| i in todo;
      FillOne(table, bandOf, i, lowest, order);
      order := order + [i];
      todo := todo - {i};
    }
    assert bandOf.Keys - todo == bandOf.Keys;
  }

  /** The body of the loop: instances on bands beyond the table are dropped. */
  method FillOne(table: array<nat>, bandOf: Bands, i: nat, lowest: bool, ghost order: seq<nat>)
    requires i in bandOf && FilledBy(table[..], bandOf, lowest, order)
    modifies table
    ensures FilledBy(table[..], bandOf, lowest, order + [i])
  {
    ghost var before := table[..];
    var band := bandOf[i];
    if band < table.Length && (!lowest || table[band] == 0 || i < table[band]) {
      table[band] := i;
    }
    forall b | 0 <= b < table.Length ensures table[b] == EntryOf(order + [i], bandOf, lowest, b) {
      assert before[b] == EntryOf(order, bandOf, lowest, b);
      EntryStep(order, bandOf, i, lowest, b);
    }
  }

  lemma EntryStep(order: seq<nat>, bandOf: Bands, i: nat, lowest: bool, b: nat)
    requires i in bandOf
    ensures EntryOf(order + [i], bandOf, lowest, b) ==
            var was := EntryOf(order, bandOf, lowest, b);
            if bandOf[i] != b then was else if lowest then Lower(was, i) else i
  {
    assert (order + [i])[..|order|] == order;
    var visits := OnBand(order, bandOf, b);
    assert (visits + [i])[..|visits|] == visits;
    assert visits + [] == visits;
  }

  method MaxBand(bandOf: Bands, atLeast: nat) returns (max: nat)
    ensures max >= atLeast && forall i | i in bandOf :: bandOf[i] <= max
    ensures max == atLeast || exists i | i in bandOf :: bandOf[i] == max
  {
    max := atLeast;
    var todo := bandOf.Keys;
    while todo != {}
      invariant todo <= bandOf.Keys
      invariant max >= atLeast && forall i | i in bandOf && i !in todo :: bandOf[i] <= max
      invariant max == atLeast || exists i | i in bandOf :: bandOf[i] == max
      decreases |todo|
    {
      var i :| i in todo;
      if bandOf[i] > max { max := bandOf[i]; }
      todo := todo - {i};
    }
  }

  /** The last part of discoverTR181WiFi: the SSID, radio and access point tables. */
  method BuildWifiTables(ssidToBand: Bands, radioToBand: Bands, apToBand: Bands)
    returns (ssids: array<nat>, radios: array<nat>, aps: array<nat>)
    ensures fresh(ssids) && Filled(ssids[..], ssidToBand, true)
    ensures fresh(radios) && Filled(radios[..], radioToBand, false)
    ensures fresh(aps) && Filled(aps[..], apToBand, true)
    ensures ssids.Length == radios.Length == aps.Length
    ensures forall i | i in ssidToBand :: ssidToBand[i] < ssids.Length
    ensures forall i | i in radioToBand :: radioToBand[i] < radios.Length
  {
    var maxBand := MaxBand(ssidToBand, 0);
    maxBand := MaxBand(radioToBand, maxBand);
    ssids := new nat[maxBand + 1](_ => 0);
    radios := new nat[maxBand + 1](_ => 0);
    aps := new nat[maxBand + 1](_ => 0);
    Fill(ssids, ssidToBand, true);
    Fill(radios, radioToBand, false);
    Fill(aps, apToBand, true);
  }

  /** Every instance on a band of the table leaves a positive entry there, no higher than itself. */
  lemma EntryIsPrimary(table: seq<nat>, bandOf: Bands, i: nat)
    requires 0 !in bandOf && LeastTable(table, bandOf) && i in bandOf && bandOf[i] < |table|
    ensures 0 < table[bandOf[i]] <= i && bandOf[table[bandOf[i]]] == bandOf[i]
  {
    assert i in Members(bandOf, bandOf[i]);
  }

  /** A band without an instance has entry 0, whatever the order and the rule. */
  lemma EmptyBandIsZero(table: seq<nat>, bandOf: Bands, lowest: bool, b: nat)
    requires Filled(table, bandOf, lowest) && b < |table| && forall i | i in bandOf :: bandOf[i] != b
    ensures table[b] == 0
  {
    var order :| Visits(order, bandOf.Keys) && FilledBy(table, bandOf, lowest, order);
    NothingOnBand(order, bandOf, b);
  }

  lemma {:induction false} NothingOnBand(order: seq<nat>, bandOf: Bands, b: nat)
    requires forall i | i in bandOf :: bandOf[i] != b
    ensures OnBand(order, bandOf, b) == []
  {
    if order != [] { NothingOnBand(order[..|order| - 1], bandOf, b); }
  }

  // ---- TR-098 WLAN configurations ----

  function Known(seen: set<nat>, bandForIdx: Bands): Bands {
    map i | i in bandForIdx && i in seen :: bandForIdx[i]
  }

  function Within(seen: set<nat>, lo: nat, hi: nat): set<nat> {
    set i | i in seen && lo <= i <= hi
  }

  /** A least-instance table that is exactly long enough for the bands in use. */
  ghost predicate TightTable(table: seq<nat>, bandOf: Bands) {
    && LeastTable(table, bandOf) && table != [] && Members(bandOf, |table| - 1) != {}
    && forall i | i in bandOf :: bandOf[i] < |table|
  }

  /** What discoverTR098WLAN must store: the bands when any is known, else the 1-4 / 5-8 split, else all in order. */
  ghost predicate WlanTable(table: seq<nat>, seen: set<nat>, bandForIdx: Bands) {
    if Known(seen, bandForIdx) != map[] then TightTable(table, Known(seen, bandForIdx))
    else if Within(seen, 1, 4) != {} && Within(seen, 5, 8) != {} then
      |table| == 2 && IsLeast(table[0], Within(seen, 1, 4)) && IsLeast(table[1], Within(seen, 5, 8))
    else Ordered(table, (a, b) => a < b) && forall i :: i in table <==> i in seen
  }

  /** When no band is known, instances 1 to 4 stand for the first band and 5 to 8 for the second one; otherwise all
      instances are listed in order. */
  lemma UnknownBands(table: seq<nat>, seen: set<nat>, bandForIdx: Bands)
    requires WlanTable(table, seen, bandForIdx) && forall i | i in seen :: i !in bandForIdx
    ensures (exists i | i in seen :: 1 <= i <= 4) && (exists i | i in seen :: 5 <= i <= 8) ==>
      && |table| == 2 && table[0] in seen && 1 <= table[0] <= 4 && table[1] in seen && 5 <= table[1] <= 8
      && forall i | i in seen :: (1 <= i <= 4 ==> table[0] <= i) && (5 <= i <= 8 ==> table[1] <= i)
    ensures !(exists i | i in seen :: 1 <= i <= 4) || !(exists i | i in seen :: 5 <= i <= 8) ==>
      Ordered(table, (a, b) => a < b) && forall i :: i in table <==> i in seen
  {
    assert Known(seen, bandForIdx) == map[];
    var first, second := Within(seen, 1, 4), Within(seen, 5, 8);
    assert forall i :: i in first <==> i in seen && 1 <= i <= 4;
    assert forall i :: i in second <==> i in seen && 5 <= i <= 8;
  }

  /** primary holds the lowest visited instance of every band among done. */
  ghost predicate PrimaryOf(primary: map<nat, nat>, done: Bands) {
    && (forall b :: b in primary <==> Members(done, b) != {})
    && (forall b | b in primary :: IsLeast(primary[b], Members(done, b)))
  }

  lemma PrimaryStep(primary: map<nat, nat>, done: Bands, i: nat, band: nat)
    requires PrimaryOf(primary, done) && i !in done
    ensures PrimaryOf(if band !in primary || i < primary[band] then primary[band := i] else primary, done[i := band])
  {
    var now := done[i := band];
    forall b ensures Members(now, b) == if b == band then Members(done, b) + {i} else Members(done, b) {
      assert forall x :: x in Members(now, b) <==> x in Members(done, b) || (x == i && b == band);
    }
  }

  method Primaries(seen: set<nat>, bandForIdx: Bands) returns (primary: map<nat, nat>)
    ensures PrimaryOf(primary, Known(seen, bandForIdx))
  {
    primary := map[];
    var todo := seen;
    ghost var done: Bands := map[];
    while todo != {}
      invariant todo <= seen
      invariant done == Known(seen - todo, bandForIdx)
      invariant PrimaryOf(primary, done)
      decreases |todo|
    {
      var i :| i in todo;
      if i in bandForIdx {
        PrimaryStep(primary, done, i, bandForIdx[i]);
        if bandForIdx[i] !in primary || i < primary[bandForIdx[i]] {
          primary := primary[bandForIdx[i] := i];
        }
        done := done[i := bandForIdx[i]];
      }
      todo := todo - {i};
      assert done == Known(seen - todo, bandForIdx);
    }
    assert seen - todo == seen;
  }

  /** make([]int, maxBand+1) and the copy loop. */
  method TableOf(primary: map<nat, nat>, ghost bandOf: Bands) returns (table: seq<nat>)
    requires PrimaryOf(primary, bandOf) && bandOf != map[]
    ensures TightTable(table, bandOf)
  {
    ghost var some :| some in bandOf;
    assert some in Members(bandOf, bandOf[some]) && bandOf[some] in primary;
    var maxBand := 0;
    var todo := primary.Keys;
    while todo != {}
      invariant todo <= primary.Keys
      invariant forall b | b in primary && b !in todo :: b <= maxBand
      invariant maxBand in primary || maxBand == 0
      decreases |todo|
    {
      var b :| b in todo;
      if b > maxBand { maxBand := b; }
      todo := todo - {b};
    }
    table := seq(maxBand + 1, b => if b in primary then primary[b] else 0);
    forall i | i in bandOf ensures bandOf[i] < |table| {
      assert i in Members(bandOf, bandOf[i]);
    }
    assert bandOf[some] <= maxBand && maxBand in primary;
  }

  lemma IntOrderIsTotal()
    ensures StrictTotal((a: nat, b: nat) => a < b)
  {
  }

  method SortInts(seen: set<nat>) returns (indices: seq<nat>)
    ensures Ordered(indices, (a, b) => a < b) && forall i :: i in indices <==> i in seen
  {
    var collected: seq<nat>, todo := [], seen;
    while todo != {}
      invariant todo <= seen && forall i :: i in collected <==> i in seen && i !in todo
      decreases |todo|
    {
      var i :| i in todo;
      collected, todo := collected + [i], todo - {i};
    }
    IntOrderIsTotal();
    SortSorts(collected, (a, b) => a < b);
    indices := Sort(collected, (a, b) => a < b);
  }

  /** The first index of a sorted list that falls in a range, or 0. */
  method FirstWithin(indices: seq<nat>, lo: nat, hi: nat, ghost seen: set<nat>) returns (first: nat)
    requires lo > 0 && Ordered(indices, (a, b) => a < b) && forall i :: i in indices <==> i in seen
    ensures IsLeast(first, Within(seen, lo, hi)) && (first == 0 <==> Within(seen, lo, hi) == {})
  {
    first := 0;
    for k := 0 to |indices|
      invariant forall j | 0 <= j < k :: first != 0 || !(lo <= indices[j] <= hi)
      invariant first != 0 ==> first in seen && lo <= first <= hi && forall i | i in indices && lo <= i <= hi ::
        first <= i
    {
      if first == 0 && lo <= indices[k] <= hi {
        first := indices[k];
        assert first in indices;
        forall i | i in indices && lo <= i <= hi ensures first <= i {
          var j :| 0 <= j < |indices| && indices[j] == i;
        }
      }
    }
    if first == 0 {
      forall i | i in seen ensures !(lo <= i <= hi) {
        assert i in indices;
      }
      assert Within(seen, lo, hi) == {};
    } else {
      assert first in Within(seen, lo, hi);
    }
  }

  lemma SomeBandHasMembers(bandOf: Bands)
    ensures bandOf == map[] <==> forall b :: Members(bandOf, b) == {}
  {
    if bandOf != map[] {
      var i :| i in bandOf;
      assert i in Members(bandOf, bandOf[i]);
    }
  }

  /** discoverTR098WLAN once the instances and their bands are collected. */
  method DiscoverWlan(seen: set<nat>, bandForIdx: Bands) returns (table: seq<nat>)
    ensures WlanTable(table, seen, bandForIdx)
  {
    var primary := Primaries(seen, bandForIdx);
    ghost var known := Known(seen, bandForIdx);
    if primary != map[] {
      ghost var b :| b in primary;
      assert Members(known, b) != {};
      table := TableOf(primary, known);
      return;
    }
    SomeBandHasMembers(known);
    var indices := SortInts(seen);
    var first2G := FirstWithin(indices, 1, 4, seen);
    var first5G := FirstWithin(indices, 5, 8, seen);
    if first2G != 0 && first5G != 0 {
      return [first2G, first5G];
    }
    return indices;
  }
}
