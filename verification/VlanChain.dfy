/** The VLAN of a PPPoE connection: the LowerLayers chain of a stored snapshot, and the same VLAN
    as instance discovery finds it. */
module VlanChain {
  import opened GoStrings
  import opened WanDiscovery

  type Snapshot = map<string, string>

  // ---- one object of the chain ----

  function Node(raw: string): string {
    TrimSuffix(raw, ".")
  }

  predicate IsTermination(node: string) {
    Contains(ToLower(node), "vlantermination")
  }

  /** The first entry of the object's own LowerLayers, or "". */
  function Below(snapshot: Snapshot, node: string): string {
    var key := node + ".LowerLayers";
    var lower := if key in snapshot then snapshot[key] else "";
    TrimSpace(lower[..IndexOf(lower, ',')])
  }

  /** The number in a text when it is a positive decimal, else 0. */
  function Positive(v: string): nat {
    if Atoi(v).Or(0) > 0 then Atoi(v).Or(0) else 0
  }

  // ---- the declarative form ----

  /** The first n objects of the chain. */
  function Chain(snapshot: Snapshot, raw: string, n: nat): seq<string>
    decreases n
  {
    if n == 0 || raw == "" then [] else [Node(raw)] + Chain(snapshot, Below(snapshot, Node(raw)), n - 1)
  }

  function FirstTermination(nodes: seq<string>): Option<string> {
    if nodes == [] then None
    else if IsTermination(nodes[0]) then Some(nodes[0])
    else FirstTermination(nodes[1..])
  }

  predicate Spells(snapshot: Snapshot, key: string, k: string) {
    k in snapshot && EqualFold(k, key) && Positive(snapshot[k]) > 0
  }

  /** vid is the termination's positive VLANID under its exact name, else under any spelling of it, else 0. */
  ghost predicate Reads(vid: nat, snapshot: Snapshot, node: string) {
    var key := node + ".VLANID";
    if key in snapshot && Positive(snapshot[key]) > 0 then vid == Positive(snapshot[key])
    else if exists k :: Spells(snapshot, key, k) then
      exists k :: Spells(snapshot, key, k) && vid == Positive(snapshot[k])
    else vid == 0
  }

  /** The VLANID of the first VLANTermination among the first four objects of the chain, or 0. */
  ghost predicate Resolves(vid: nat, snapshot: Snapshot, lowerLayers: string) {
    var first := FirstTermination(Chain(snapshot, TrimSpace(lowerLayers), 4));
    if first.Some? then Reads(vid, snapshot, first.value) else vid == 0
  }

  /** Map order can only matter when two spellings of one missing VLANID carry different numbers. */
  lemma ReadsIsUniqueIff(snapshot: Snapshot, node: string)
    ensures (forall a, b | Reads(a, snapshot, node) && Reads(b, snapshot, node) :: a == b) <==>
      var key := node + ".VLANID";
      || (key in snapshot && Positive(snapshot[key]) > 0)
      || forall k, q | Spells(snapshot, key, k) && Spells(snapshot, key, q) ::
           Positive(snapshot[k]) == Positive(snapshot[q])
  {
    var key := node + ".VLANID";
    if !(key in snapshot && Positive(snapshot[key]) > 0) {
      forall k | Spells(snapshot, key, k) ensures Reads(Positive(snapshot[k]), snapshot, node) {
      }
    }
  }

  // ---- why the visited set never matters ----

  /** Every visited object is no termination and leads to another visited object, to next, or nowhere. */
  ghost predicate Closed(snapshot: Snapshot, visited: set<string>, next: string) {
    forall v {:trigger LeadsInto(snapshot, visited, next, v)} | v in visited :: LeadsInto(snapshot, visited, next, v)
  }

  predicate LeadsInto(snapshot: Snapshot, visited: set<string>, next: string, v: string) {
    var raw := Below(snapshot, v);
    !IsTermination(v) && (raw == "" || raw == next || Node(raw) in visited)
  }

  /** A chain that re-enters the visited objects never reaches a termination. */
  lemma {:induction false} CycleHasNoTermination(snapshot: Snapshot, visited: set<string>, raw: string, next: string,
                                                 n: nat)
    requires Closed(snapshot, visited, next) && (next == "" || Node(next) in visited)
    requires raw == "" || Node(raw) in visited
    ensures Target(snapshot, raw, n).None?
    decreases n
  {
    if n > 0 && raw != "" {
      var node := Node(raw);
      assert LeadsInto(snapshot, visited, next, node);
      CycleHasNoTermination(snapshot, visited, Below(snapshot, node), next, n - 1);
    }
  }

  // ---- the code ----

  /** The two lookups of a VLANTermination's VLANID. */
  method ReadVlanId(snapshot: Snapshot, node: string) returns (vid: nat)
    ensures Reads(vid, snapshot, node)
  {
    var vlanKey := node + ".VLANID";
    if vlanKey in snapshot && Positive(snapshot[vlanKey]) > 0 {
      return Positive(snapshot[vlanKey]);
    }
    var todo := snapshot.Keys;
    while todo != {}
      invariant todo <= snapshot.Keys
      invariant forall k | k in snapshot && k !in todo :: !Spells(snapshot, vlanKey, k)
      decreases |todo|
    {
      var k :| k in todo;
      if EqualFold(k, vlanKey) && Positive(snapshot[k]) > 0 {
        assert Spells(snapshot, vlanKey, k);
        return Positive(snapshot[k]);
      }
      todo := todo - {k};
    }
    return 0;
  }

  /** The first termination, hop by hop. */
  function Target(snapshot: Snapshot, raw: string, n: nat): Option<string>
    decreases n
  {
    if n == 0 || raw == "" then None
    else if IsTermination(Node(raw)) then Some(Node(raw))
    else Target(snapshot, Below(snapshot, Node(raw)), n - 1)
  }

  lemma {:induction false} TargetIsFirst(snapshot: Snapshot, raw: string, n: nat)
    ensures Target(snapshot, raw, n) == FirstTermination(Chain(snapshot, raw, n))
    decreases n
  {
    if n > 0 && raw != "" {
      var tail := Chain(snapshot, Below(snapshot, Node(raw)), n - 1);
      TargetIsFirst(snapshot, Below(snapshot, Node(raw)), n - 1);
      assert ([Node(raw)] + tail)[1..] == tail;
    }
  }

  /** The loop body: stop with the answer, or go on below with the object marked as visited. */
  method Hop(snapshot: Snapshot, visited: set<string>, raw: string, ghost n: nat)
    returns (stop: bool, found: Option<string>, marked: set<string>, next: string)
    requires n > 0 && raw != "" && Closed(snapshot, visited, raw)
    ensures stop ==> found == Target(snapshot, raw, n)
    ensures !stop ==> Closed(snapshot, marked, next) && Target(snapshot, next, n - 1) == Target(snapshot, raw, n)
  {
    var current := TrimSuffix(raw, ".");
    marked, next := visited, current;
    if current in visited {
      CycleHasNoTermination(snapshot, visited, raw, raw, n);
      return true, None, marked, next;
    }
    if IsTermination(current) {
      return true, Some(current), marked, next;
    }
    ClosedGrows(snapshot, visited, raw, Below(snapshot, current));
    return false, None, visited + {current}, Below(snapshot, current);
  }

  /** The loop of resolveVLANFromChain: the termination it stops at, or none. */
  method FollowChain(snapshot: Snapshot, start: string, hops: nat) returns (found: Option<string>)
    ensures found == Target(snapshot, start, hops)
  {
    var visited: set<string> := {};
    var current := start;
    ghost var left := hops;
    var i := 0;
    while i < hops && current != ""
      invariant 0 <= i <= hops && left == hops - i
      invariant Closed(snapshot, visited, current) && Target(snapshot, current, left) == Target(snapshot, start, hops)
    {
      var stop;
      stop, found, visited, current := Hop(snapshot, visited, current, left);
      if stop {
        return;
      }
      i, left := i + 1, left - 1;
    }
    return None;
  }

  /** resolveVLANFromChain. */
  method ResolveVlanFromChain(snapshot: Snapshot, lowerLayers: string) returns (vid: nat)
    ensures Resolves(vid, snapshot, lowerLayers)
  {
    var found := FollowChain(snapshot, TrimSpace(lowerLayers), 4);
    TargetIsFirst(snapshot, TrimSpace(lowerLayers), 4);
    if found.None? {
      return 0;
    }
    vid := ReadVlanId(snapshot, found.value);
  }

  lemma ClosedGrows(snapshot: Snapshot, visited: set<string>, raw: string, next: string)
    requires Closed(snapshot, visited, raw) && !IsTermination(Node(raw)) && next == Below(snapshot, Node(raw))
    ensures Closed(snapshot, visited + {Node(raw)}, next)
  {
    forall v | v in visited + {Node(raw)} ensures LeadsInto(snapshot, visited + {Node(raw)}, next, v) {
      if v in visited { assert LeadsInto(snapshot, visited, raw, v); }
    }
  }

  // ---- a chain of one link, in the words of the device ----

  /** No parameter of the snapshot spells the VLANID of node. */
  predicate Unspelt(snapshot: Snapshot, node: string) {
    forall k | k in snapshot :: !EqualFold(k, node + ".VLANID")
  }

  /** An object that is no termination but lies on one: the VLAN is the number that the termination reports, if it is
      positive, and none if it reports no such number under any spelling. */
  lemma LinkedVlan(snapshot: Snapshot, a: string, b: string, vid: nat)
    requires Solid(a) && Solid(b) && ',' !in b && !Contains(ToLower(a), "vlantermination")
    requires Contains(ToLower(b), "vlantermination")
    requires a + ".LowerLayers" in snapshot && snapshot[a + ".LowerLayers"] == b
    ensures
      b + ".VLANID" in snapshot && Atoi(snapshot[b + ".VLANID"]).Some? && Atoi(snapshot[b + ".VLANID"]).value > 0 ==>
      (Resolves(vid, snapshot, a) <==> vid == Atoi(snapshot[b + ".VLANID"]).value)
    ensures Unspelt(snapshot, b) ==> (Resolves(vid, snapshot, a) <==> vid == 0)
  {
    SolidNode(a);
    SolidNode(b);
    BelowIs(snapshot, a, b);
    SecondIsFirst(snapshot, a, b);
    ReadsByName(snapshot, b, vid);
  }

  lemma BelowIs(snapshot: Snapshot, a: string, b: string)
    requires Solid(b) && ',' !in b && a + ".LowerLayers" in snapshot && snapshot[a + ".LowerLayers"] == b
    ensures Below(snapshot, a) == b
  {
    SolidNode(b);
    NoComma(b);
  }

  lemma SecondIsFirst(snapshot: Snapshot, a: string, b: string)
    requires a != "" && b != "" && Node(a) == a && Node(b) == b && Below(snapshot, a) == b
    requires !IsTermination(a) && IsTermination(b)
    ensures FirstTermination(Chain(snapshot, a, 4)) == Some(b)
  {
    TargetIsFirst(snapshot, a, 4);
    assert Target(snapshot, b, 3) == Some(b);
  }

  lemma ReadsByName(snapshot: Snapshot, b: string, vid: nat)
    ensures
      b + ".VLANID" in snapshot && Atoi(snapshot[b + ".VLANID"]).Some? && Atoi(snapshot[b + ".VLANID"]).value > 0 ==>
      (Reads(vid, snapshot, b) <==> vid == Atoi(snapshot[b + ".VLANID"]).value)
    ensures Unspelt(snapshot, b) ==> (Reads(vid, snapshot, b) <==> vid == 0)
  {
    var key := b + ".VLANID";
    if Unspelt(snapshot, b) {
      assert key !in snapshot by { if key in snapshot { assert EqualFold(key, key); } }
    }
  }

  /** A text without blanks around it that does not end in a dot. */
  predicate Solid(s: string) {
    s != "" && !IsSpace(s[0]) && !IsSpace(s[|s| - 1]) && s[|s| - 1] != '.'
  }

  lemma SolidNode(s: string)
    requires Solid(s)
    ensures TrimSpace(s) == s && Node(s) == s
  {
    TrimKeepsSolid(s);
  }

  lemma {:induction false} NoComma(s: string)
    requires ',' !in s
    ensures IndexOf(s, ',') == |s| && s[..IndexOf(s, ',')] == s
  {
    IndexOfPast(s, "", ',');
    assert s + "" == s;
  }

  // ---- agreement with instance discovery ----

  lemma {:induction false} TrimKeepsSolid(s: string)
    requires s != "" && !IsSpace(s[0]) && !IsSpace(s[|s| - 1])
    ensures TrimSpace(s) == s
  {
  }

  lemma LowerConcat(s: string, t: string)
    ensures ToLower(s + t) == ToLower(s) + ToLower(t)
  {
  }

  lemma {:induction false} ContainsMiddle(a: string, b: string, c: string)
    ensures Contains(a + b + c, b)
  {
    if a == "" {
      assert b <= a + b + c;
    } else {
      assert (a + b + c)[1..] == a[1..] + b + c;
      ContainsMiddle(a[1..], b, c);
    }
  }

  lemma LowerWords()
    ensures ToLower("VLAN") == "vlan" && ToLower("Termin") == "termin" && ToLower("ation") == "ation"
  {
  }

  lemma TerminationWord()
    ensures ToLower("VLANTermination") == "vlantermination"
  {
    LowerWords();
    LowerConcat("Termin", "ation");
    LowerConcat("VLAN", "Termin" + "ation");
    assert "VLANTermination" == "VLAN" + ("Termin" + "ation");
    assert "vlantermination" == "vlan" + ("termin" + "ation");
  }

  lemma TermIsTermination(idx: nat)
    ensures IsTermination(TERM_REF + Itoa(idx))
  {
    var head, word, tail := "Device.Ethernet.", "VLANTermination", "." + Itoa(idx);
    assert TERM_REF + Itoa(idx) == head + word + tail;
    LowerConcat(head + word, tail);
    LowerConcat(head, word);
    TerminationWord();
    ContainsMiddle(ToLower(head), "vlantermination", ToLower(tail));
  }

  lemma LinkNode(idx: nat)
    ensures var link := TERM_REF + Itoa(idx) + "."; TrimSpace(link) == link && Node(link) == TERM_REF + Itoa(idx)
  {
    var link := TERM_REF + Itoa(idx) + ".";
    assert link[0] == 'D' && link[|link| - 1] == '.';
    TrimKeepsSolid(link);
    assert link[|link| - 1..] == ".";
  }

  /** On a direct link from the PPP interface to a termination with a positive VLANID, the snapshot chain
      and instance discovery find the same VLAN. */
  lemma ChainAgreesWithDiscovery(snapshot: Snapshot, ppp: nat, idx: nat)
    requires ppp != 0 && PppLower(ppp) in snapshot && snapshot[PppLower(ppp)] == TERM_REF + Itoa(idx) + "."
    requires VlanIdKey(idx) in snapshot && Positive(snapshot[VlanIdKey(idx)]) > 0
    ensures LinkedTermination(snapshot, ppp) == Some(idx)
    ensures forall vid: nat ::
      Resolves(vid, snapshot, snapshot[PppLower(ppp)]) <==> ReportedVlan(snapshot, idx) == Some(vid)
  {
    var link := snapshot[PppLower(ppp)];
    RefOfPrinted(TERM_REF, idx, "");
    assert link + "" == link;
    LinkNode(idx);
    TermIsTermination(idx);
    var nodes := Chain(snapshot, link, 4);
    assert nodes != [] && nodes[0] == TERM_REF + Itoa(idx);
    assert FirstTermination(nodes) == Some(TERM_REF + Itoa(idx));
  }
}
