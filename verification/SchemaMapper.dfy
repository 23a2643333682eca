/** The placeholder table of the schema mapper. */
module SchemaMapper {
  import opened GoStrings
  import opened Templates

  /** The instance numbers a device reported; 0, or a missing entry, means not discovered. */
  datatype Discovered = Discovered(ssids: seq<int>, radios: seq<int>, aps: seq<int>, wan: int, lan: int, ppp: int,
                                   wanDev: int,
                                     wanConn: int, wanIpConn: int, wanPppConn: int, lanDev: int, wlans: seq<int>)

  /** The number safeIdx prints. */
  function SafeIdx(slice: seq<int>, idx: nat, fallback: int): (n: int)
    ensures fallback > 0 ==> n > 0
    ensures idx < |slice| && slice[idx] > 0 ==> n == slice[idx]
  {
    if idx < |slice| && slice[idx] > 0 then slice[idx] else fallback
  }

  /** The number safeInt prints. */
  function SafeInt(v: int, fallback: int): (n: int)
    ensures fallback > 0 ==> n > 0
    ensures v > 0 ==> n == v
  {
    if v > 0 then v else fallback
  }

  /** The sixteen placeholders, in argument order. */
  function PlaceholderNames(): seq<string> {
    ["ssid_0", "ssid_1", "radio_0", "radio_1", "ap_0", "ap_1", "wan", "lan", "ppp", "wan_dev", "wan_conn",
     "wan_ip_conn", "wan_ppp_conn", "lan_dev", "wlan_0", "wlan_1"]
  }

  /** The instance number printed for each placeholder. */
  function Numbers(im: Discovered): (ns: seq<int>)
    ensures |ns| == 16 && forall n | n in ns :: n > 0
  {
    [SafeIdx(im.ssids, 0, 1), SafeIdx(im.ssids, 1, 2), SafeIdx(im.radios, 0, 1), SafeIdx(im.radios, 1, 2),
     SafeIdx(im.aps, 0, 1), SafeIdx(im.aps, 1, 2), SafeInt(im.wan, 1), SafeInt(im.lan, 2), SafeInt(im.ppp, 1),
     SafeInt(im.wanDev, 1), SafeInt(im.wanConn, 1), SafeInt(im.wanIpConn, 1), SafeInt(im.wanPppConn, 1),
     SafeInt(im.lanDev, 1), SafeIdx(im.wlans, 0, 1), SafeIdx(im.wlans, 1, 2)]
  }

  predicate BraceFree(s: string) {
    '{' !in s && '}' !in s
  }

  /** Length, first and last character tell the sixteen names apart. */
  function Mark(name: string): (int, char, char) {
    (|name|, if name == "" then ' ' else name[0], if name == "" then ' ' else name[|name| - 1])
  }

  lemma NamesAreDistinct()
    ensures |PlaceholderNames()| == 16
    ensures forall i, j | 0 <= i < j < 16 :: PlaceholderNames()[i] != PlaceholderNames()[j]
  {
    var ns := PlaceholderNames();
    assert Mark(ns[0]) == (6, 's', '0') && Mark(ns[1]) == (6, 's', '1') && Mark(ns[2]) == (7, 'r', '0')
      && Mark(ns[3]) == (7, 'r', '1');
    assert Mark(ns[4]) == (4, 'a', '0') && Mark(ns[5]) == (4, 'a', '1') && Mark(ns[6]) == (3, 'w', 'n')
      && Mark(ns[7]) == (3, 'l', 'n');
    assert Mark(ns[8]) == (3, 'p', 'p') && Mark(ns[9]) == (7, 'w', 'v') && Mark(ns[10]) == (8, 'w', 'n')
      && Mark(ns[11]) == (11, 'w', 'n');
    assert Mark(ns[12]) == (12, 'w', 'n') && Mark(ns[13]) == (7, 'l', 'v') && Mark(ns[14]) == (6, 'w', '0')
      && Mark(ns[15]) == (6, 'w', '1');
  }

  lemma NamesAreBraceFree()
    ensures forall n | n in PlaceholderNames() :: BraceFree(n)
  {
  }

  // ---- the replacer's arguments ----

  function Pairs(names: seq<string>, numbers: seq<int>): (args: Bindings)
    requires |names| == |numbers|
    ensures |args| == |names| && forall i | 0 <= i < |args| :: args[i].0 == names[i] && args[i].1 == Itoa(numbers[i])
  {
    if names == [] then [] else [(names[0], Itoa(numbers[0]))] + Pairs(names[1..], numbers[1..])
  }

  function TableOf(args: Bindings): Vars {
    if args == [] then map[] else TableOf(args[1..])[args[0].0 := args[0].1]
  }

  predicate DistinctNames(args: Bindings) {
    forall i, j | 0 <= i < j < |args| :: args[i].0 != args[j].0
  }

  /** The table holds each argument under its name. */
  lemma {:induction false} TableHoldsArgs(args: Bindings, i: nat)
    requires DistinctNames(args) && i < |args|
    ensures args[i].0 in TableOf(args) && TableOf(args)[args[i].0] == args[i].1
  {
    if i > 0 {
      assert args[1..][i - 1] == args[i];
      TableHoldsArgs(args[1..], i - 1);
    }
  }

  /** Nothing else is in the table. */
  lemma {:induction false} EntryOf(args: Bindings, n: string) returns (i: nat)
    requires n in TableOf(args)
    ensures i < |args| && args[i].0 == n && TableOf(args)[n] == args[i].1
  {
    if n == args[0].0 {
      i := 0;
    } else {
      i := EntryOf(args[1..], n);
      assert args[1..][i] == args[i + 1];
      i := i + 1;
    }
  }

  lemma TableListsArgs(args: Bindings)
    requires DistinctNames(args)
    ensures Lists(args, TableOf(args))
  {
    forall i | 0 <= i < |args| ensures args[i].0 in TableOf(args) && TableOf(args)[args[i].0] == args[i].1 {
      TableHoldsArgs(args, i);
    }
    forall n | n in TableOf(args) ensures Names(args, n) {
      var i := EntryOf(args, n);
    }
  }

  function Args(im: Discovered): Bindings {
    NamesAreDistinct();
    Pairs(PlaceholderNames(), Numbers(im))
  }

  /** The variable table of the mapper. */
  function Table(im: Discovered): Vars {
    TableOf(Args(im))
  }

  /** SchemaMapper.substitute. */
  function Substitute(tpl: string, im: Discovered): string {
    Replacer(tpl, Args(im))
  }

  /** The i-th placeholder, and no other text, stands for the i-th number: the discovered instance, or its default. */
  lemma ValuesArePositive(im: Discovered)
    ensures |PlaceholderNames()| == |Numbers(im)| == 16
    ensures forall n :: n in Table(im) <==> n in PlaceholderNames()
    ensures forall i | 0 <= i < 16 ::
      PlaceholderNames()[i] in Table(im) && Table(im)[PlaceholderNames()[i]] == Itoa(Numbers(im)[i])
    ensures forall i | 0 <= i < 16 :: Numbers(im)[i] > 0 && Atoi(Itoa(Numbers(im)[i])) == Some(Numbers(im)[i])
  {
    NamesAreDistinct();
    var args, names := Args(im), PlaceholderNames();
    forall i | 0 <= i < 16 ensures names[i] in Table(im) && Table(im)[names[i]] == Itoa(Numbers(im)[i]) {
      TableHoldsArgs(args, i);
    }
    forall n ensures n in Table(im) <==> n in names {
      if n in Table(im) {
        var i := EntryOf(args, n);
        assert names[i] == n;
      }
    }
    forall i | 0 <= i < 16 ensures Numbers(im)[i] > 0 && Atoi(Itoa(Numbers(im)[i])) == Some(Numbers(im)[i]) {
      assert Numbers(im)[i] in Numbers(im);
      AtoiOfItoa(Numbers(im)[i]);
    }
  }

  function NumberAt(slice: seq<int>, idx: nat, fallback: int): string {
    Itoa(if idx < |slice| && slice[idx] > 0 then slice[idx] else fallback)
  }

  predicate Prints(im: Discovered, name: string, text: string) {
    name in Table(im) && Table(im)[name] == text
  }

  lemma PrintedAt(im: Discovered, i: nat)
    requires i < 16
    ensures |PlaceholderNames()| == |Numbers(im)| == 16 && Prints(im, PlaceholderNames()[i], Itoa(Numbers(im)[i]))
  {
    ValuesArePositive(im);
  }

  /** The wireless placeholders: the discovered instance of the first and the second band, else 1 and 2. */
  lemma BandsByName(im: Discovered)
    ensures Prints(im, "ssid_0", NumberAt(im.ssids, 0, 1)) && Prints(im, "ssid_1", NumberAt(im.ssids, 1, 2))
    ensures Prints(im, "radio_0", NumberAt(im.radios, 0, 1)) && Prints(im, "radio_1", NumberAt(im.radios, 1, 2))
    ensures Prints(im, "ap_0", NumberAt(im.aps, 0, 1)) && Prints(im, "ap_1", NumberAt(im.aps, 1, 2))
    ensures Prints(im, "wlan_0", NumberAt(im.wlans, 0, 1)) && Prints(im, "wlan_1", NumberAt(im.wlans, 1, 2))
  {
    PrintedAt(im, 0);
    PrintedAt(im, 1);
    PrintedAt(im, 2);
    PrintedAt(im, 3);
    PrintedAt(im, 4);
    PrintedAt(im, 5);
    PrintedAt(im, 14);
    PrintedAt(im, 15);
  }

  function NumberOr(v: int, fallback: int): string {
    Itoa(if v > 0 then v else fallback)
  }

  /** The other placeholders: the discovered instance, else 1, but 2 for the LAN interface. */
  lemma InterfacesByName(im: Discovered)
    ensures Prints(im, "wan", NumberOr(im.wan, 1)) && Prints(im, "lan", NumberOr(im.lan, 2))
      && Prints(im, "ppp", NumberOr(im.ppp, 1))
    ensures Prints(im, "wan_dev", NumberOr(im.wanDev, 1)) && Prints(im, "wan_conn", NumberOr(im.wanConn, 1))
    ensures Prints(im, "wan_ip_conn", NumberOr(im.wanIpConn, 1))
      && Prints(im, "wan_ppp_conn", NumberOr(im.wanPppConn, 1))
    ensures Prints(im, "lan_dev", NumberOr(im.lanDev, 1))
  {
    PrintedAt(im, 6);
    PrintedAt(im, 7);
    PrintedAt(im, 8);
    PrintedAt(im, 9);
    PrintedAt(im, 10);
    PrintedAt(im, 11);
    PrintedAt(im, 12);
    PrintedAt(im, 13);
  }

  lemma PrintedTableIsSafe(names: seq<string>, numbers: seq<int>)
    requires |names| == |numbers| && forall i | 0 <= i < |names| :: BraceFree(names[i])
    ensures SafeTable(TableOf(Pairs(names, numbers)))
  {
    var args := Pairs(names, numbers);
    var table := TableOf(args);
    forall n | n in table ensures '}' !in n && '{' !in table[n] {
      var i := EntryOf(args, n);
      ItoaChars(numbers[i]);
    }
  }

  lemma TableIsSafe(im: Discovered)
    ensures Lists(Args(im), Table(im)) && SafeTable(Table(im))
  {
    NamesAreDistinct();
    NamesAreBraceFree();
    TableListsArgs(Args(im));
    PrintedTableIsSafe(PlaceholderNames(), Numbers(im));
  }

  /** The mapper substitutes all placeholders at once: no printed number is substituted again, the argument
      order does not matter, and on templates without nested braces exactly the sixteen known
      placeholders disappear, as they would under the provisioning executor. */
  lemma SubstituteIsSimultaneous(tpl: string, im: Discovered, order: Bindings)
    requires Lists(order, Table(im))
    ensures Substitute(tpl, im) == Simultaneous(tpl, Table(im)) == Replacer(tpl, order)
    ensures Flat(tpl) ==> Substitute(tpl, im) == ReplaceInOrder(tpl, order)
    ensures Flat(tpl) ==> Holes(Substitute(tpl, im)) == Holes(tpl) - (set n | n in PlaceholderNames())
  {
    TableIsSafe(im);
    ReplacerIsSimultaneous(tpl, Args(im), Table(im));
    ReplacerIsSimultaneous(tpl, order, Table(im));
    if Flat(tpl) {
      ExecutorAgreesWithMapper(tpl, order, Args(im), Table(im));
      HolesLeft(tpl, Table(im));
      ValuesArePositive(im);
      assert Table(im).Keys == (set n | n in PlaceholderNames());
    }
  }
}
