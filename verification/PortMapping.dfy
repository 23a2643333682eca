/** Port forwarding rules written to a device and read back from its parameters. */
module PortMapping {
  import opened GoStrings
  import opened Ordering

  datatype Payload = Payload(enabled: Option<bool>, protocol: string, externalPort: int, internalIp: string,
                             internalPort: int,
                             description: string)

  datatype Rule = Rule(instance: int, enabled: bool, protocol: string, externalPort: int, internalIp: string,
                       internalPort: int,
                       description: string)

  type Params = map<string, string>

  function Prefix(base: string, instance: int): string {
    base + Itoa(instance) + "."
  }

  function Key(base: string, instance: int, field: string): string {
    Prefix(base, instance) + field
  }

  // ---- writing ----

  /** The map literal of buildPortMappingParams. */
  function BuildUnder(prefix: string, p: Payload): Params {
    map[prefix + "PortMappingEnabled" := if p.enabled == Some(false) then "0" else "1",
        prefix + "PortMappingProtocol" := if p.protocol == "" then "TCP" else p.protocol,
        prefix + "ExternalPort" := Itoa(p.externalPort),
        prefix + "InternalClient" := p.internalIp,
        prefix + "InternalPort" := Itoa(p.internalPort),
        prefix + "PortMappingDescription" := p.description,
        prefix + "PortMappingLeaseDuration" := "0"]
  }

  /** What is written for instances 1 to n. */
  function Built(base: string, ps: seq<Payload>, n: nat): Params
    requires n <= |ps|
  {
    if n == 0 then map[] else Built(base, ps, n - 1) + BuildUnder(Prefix(base, n), ps[n - 1])
  }

  // ---- reading ----

  /** The instance number and the field of a parameter below base, when it has both. */
  function Decode(base: string, k: string): Option<(int, string)> {
    if !HasPrefix(k, base) then None else
      var rest := k[|base|..];
      var dot := IndexOf(rest, '.');
      if dot == |rest| || Atoi(rest[..dot]).None? then None
      else Some((Atoi(rest[..dot]).value, rest[dot + 1..]))
  }

  datatype Field = Enabled | Protocol | ExternalPort | InternalClient | InternalPort | Description | Ignored

  /** The switch over the field name. */
  function FieldOf(name: string): Field {
    if name == "PortMappingEnabled" || name == "Enable" then Enabled
    else if name == "PortMappingProtocol" || name == "Protocol" then Protocol
    else if name == "ExternalPort" then ExternalPort
    else if name == "InternalClient" then InternalClient
    else if name == "InternalPort" then InternalPort
    else if name == "PortMappingDescription" || name == "Description" then Description
    else Ignored
  }

  function Put(r: Rule, f: Field, v: string): Rule {
    match f
    case Enabled => r.(enabled := EqualFold(v, "true") || v == "1")
    case Protocol => r.(protocol := v)
    case ExternalPort => r.(externalPort := Atoi(v).Or(0))
    case InternalClient => r.(internalIp := v)
    case InternalPort => r.(internalPort := Atoi(v).Or(0))
    case Description => r.(description := v)
    case Ignored => r
  }

  /** What the code makes of one parameter name: the rule it belongs to and the field it sets. */
  function Tag(base: string, k: string): Option<(int, Field)> {
    match Decode(base, k)
    case None => None
    case Some(d) => Some((d.0, FieldOf(d.1)))
  }

  type Rules = map<int, Rule>

  function BlankRule(i: int): Rule {
    Rule(i, false, "", 0, "", 0, "")
  }

  function Touch(rules: Rules, i: int, f: Field, v: string): Rules {
    rules[i := Put(if i in rules then rules[i] else BlankRule(i), f, v)]
  }

  /** The rules after the keys in done have been visited. */
  function Scan(done: seq<string>, params: Params, base: string): Rules
    requires forall k | k in done :: k in params
  {
    if done == [] then map[] else
      var n := |done| - 1;
      assert done[n] in done;
      var rules := Scan(done[..n], params, base);
      match Tag(base, done[n])
      case None => rules
      case Some(t) => Touch(rules, t.0, t.1, params[done[n]])
  }

  /** Rules 1, 2, ... up to the number of rules, skipping numbers without a rule. */
  function Listed(rules: Rules, count: nat): seq<Rule> {
    if count == 0 then [] else Listed(rules, count - 1) + if count in rules then [rules[count]] else []
  }

  // ---- a rule field by field ----

  /** The value visited last for one field of one rule. */
  function Latest(done: seq<string>, params: Params, base: string, i: int, f: Field): string
    requires forall k | k in done :: k in params
  {
    if done == [] then "" else
      var n := |done| - 1;
      assert done[n] in done;
      if Tag(base, done[n]) == Some((i, f)) then params[done[n]] else Latest(done[..n], params, base, i, f)
  }

  datatype Texts = Texts(enabled: string, protocol: string, externalPort: string, internalClient: string,
                         internalPort: string,
                         description: string)

  function TextsOf(done: seq<string>, params: Params, base: string, i: int): Texts
    requires forall k | k in done :: k in params
  {
    Texts(Latest(done, params, base, i, Enabled), Latest(done, params, base, i, Protocol),
          Latest(done, params, base, i, ExternalPort), Latest(done, params, base, i, InternalClient),
          Latest(done, params, base, i, InternalPort), Latest(done, params, base, i, Description))
  }

  function Assemble(i: int, t: Texts): Rule {
    Rule(i, EqualFold(t.enabled, "true") || t.enabled == "1", t.protocol, Atoi(t.externalPort).Or(0), t.internalClient,
         Atoi(t.internalPort).Or(0), t.description)
  }

  function SetText(t: Texts, f: Field, v: string): Texts {
    match f
    case Enabled => t.(enabled := v)
    case Protocol => t.(protocol := v)
    case ExternalPort => t.(externalPort := v)
    case InternalClient => t.(internalClient := v)
    case InternalPort => t.(internalPort := v)
    case Description => t.(description := v)
    case Ignored => t
  }

  lemma TextsStep(done: seq<string>, k: string, params: Params, base: string, i: int)
    requires k in params && forall q | q in done :: q in params
    ensures TextsOf(done + [k], params, base, i) ==
      var t := TextsOf(done, params, base, i);
      if Tag(base, k).Some? && Tag(base, k).value.0 == i then SetText(t, Tag(base, k).value.1, params[k]) else t
  {
    assert (done + [k])[..|done|] == done;
  }

  lemma PutSetsText(i: int, t: Texts, f: Field, v: string)
    ensures Put(Assemble(i, t), f, v) == Assemble(i, SetText(t, f, v))
  {
  }

  lemma BlankIsBlank(i: int)
    ensures Assemble(i, Texts("", "", "", "", "", "")) == BlankRule(i)
  {
    assert |ToLower("")| != |ToLower("true")|;
  }

  predicate Named(done: seq<string>, base: string, i: int) {
    exists k | k in done :: Tag(base, k).Some? && Tag(base, k).value.0 == i
  }

  lemma {:induction false} UnnamedIsBlank(done: seq<string>, params: Params, base: string, i: int)
    requires !Named(done, base, i) && forall k | k in done :: k in params
    ensures TextsOf(done, params, base, i) == Texts("", "", "", "", "", "")
  {
    if done != [] {
      assert done[|done| - 1] in done;
      UnnamedIsBlank(done[..|done| - 1], params, base, i);
    }
  }

  /** Rule i exists when some parameter names it, and holds the value visited last for each field. */
  lemma {:induction false} ScanBuildsRules(done: seq<string>, params: Params, base: string, i: int)
    requires forall k | k in done :: k in params
    ensures i in Scan(done, params, base) <==> Named(done, base, i)
    ensures i in Scan(done, params, base) ==> Scan(done, params, base)[i] == Assemble(i, TextsOf(done, params, base, i))
  {
    if done != [] {
      var n := |done| - 1;
      var init, k := done[..n], done[n];
      assert done == init + [k] && k in done;
      ScanBuildsRules(init, params, base, i);
      TextsStep(init, k, params, base, i);
      NamedStep(init, k, base, i);
      if Tag(base, k).Some? && Tag(base, k).value.0 == i {
        PutSetsText(i, TextsOf(init, params, base, i), Tag(base, k).value.1, params[k]);
        if !Named(init, base, i) {
          UnnamedIsBlank(init, params, base, i);
          BlankIsBlank(i);
        }
      }
    }
  }

  lemma NamedStep(init: seq<string>, k: string, base: string, i: int)
    ensures Named(init + [k], base, i) <==> Named(init, base, i) || (Tag(base, k).Some? && Tag(base, k).value.0 == i)
  {
    if Named(init, base, i) {
      var q :| q in init && Tag(base, q).Some? && Tag(base, q).value.0 == i;
      assert q in init + [k];
    }
    assert k in init + [k];
  }

  // ---- the round trip ----

  /** A built name reads back. */
  lemma DecodeKey(base: string, i: int, field: string)
    ensures Decode(base, Key(base, i, field)) == Some((i, field))
  {
    var k := Key(base, i, field);
    var rest := Itoa(i) + ("." + field);
    assert k == base + rest;
    assert k[|base|..] == rest;
    ItoaChars(i);
    IndexOfPast(Itoa(i), "." + field, '.');
    assert rest[..|Itoa(i)|] == Itoa(i) && rest[|Itoa(i)| + 1..] == field;
    AtoiOfItoa(i);
  }

  function NameOf(f: Field): string {
    match f
    case Enabled => "PortMappingEnabled"
    case Protocol => "PortMappingProtocol"
    case ExternalPort => "ExternalPort"
    case InternalClient => "InternalClient"
    case InternalPort => "InternalPort"
    case Description => "PortMappingDescription"
    case Ignored => "PortMappingLeaseDuration"
  }

  /** The value written for a field. */
  function Written(p: Payload, f: Field): string {
    match f
    case Enabled => if p.enabled == Some(false) then "0" else "1"
    case Protocol => if p.protocol == "" then "TCP" else p.protocol
    case ExternalPort => Itoa(p.externalPort)
    case InternalClient => p.internalIp
    case InternalPort => Itoa(p.internalPort)
    case Description => p.description
    case Ignored => "0"
  }

  lemma NamesReadBack(f: Field)
    ensures FieldOf(NameOf(f)) == f
  {
    assert "PortMappingEnabled"[11] == 'E' && "PortMappingProtocol"[11] == 'P' && "PortMappingDescription"[11] == 'D'
      && "PortMappingLeaseDuration"[11] == 'L';
    assert "ExternalPort"[0] == 'E' && "InternalClient"[8] == 'C' && "InternalPort"[8] == 'P';
    assert |"PortMappingLeaseDuration"| == 24 && |"ExternalPort"| == 12 && |"InternalClient"| == 14;
  }

  lemma KeyTag(base: string, i: int, f: Field)
    ensures Tag(base, Key(base, i, NameOf(f))) == Some((i, f))
  {
    DecodeKey(base, i, NameOf(f));
    NamesReadBack(f);
  }

  lemma NamesDiffer(prefix: string, f: Field, g: Field)
    requires f != g
    ensures prefix + NameOf(f) != prefix + NameOf(g)
  {
    NamesReadBack(f);
    NamesReadBack(g);
    assert (prefix + NameOf(f))[|prefix|..] == NameOf(f) && (prefix + NameOf(g))[|prefix|..] == NameOf(g);
  }

  lemma BuiltField(prefix: string, p: Payload, f: Field)
    ensures prefix + NameOf(f) in BuildUnder(prefix, p) && BuildUnder(prefix, p)[prefix + NameOf(f)] == Written(p, f)
  {
    forall g: Field | g != f ensures prefix + NameOf(f) != prefix + NameOf(g) { NamesDiffer(prefix, f, g); }
    SevenEntries(prefix + NameOf(Enabled), prefix + NameOf(Protocol), prefix + NameOf(ExternalPort),
      prefix + NameOf(InternalClient),
                 prefix + NameOf(InternalPort), prefix + NameOf(Description), prefix + NameOf(Ignored), p, f,
                   prefix + NameOf(f));
  }

  /** A map display with key k for field f, and for no other, stores that field's value. */
  lemma SevenEntries(k0: string, k1: string, k2: string, k3: string, k4: string, k5: string, k6: string, p: Payload,
                     f: Field, k: string)
    requires f == Enabled <==> k == k0
    requires f == Protocol <==> k == k1
    requires f == ExternalPort <==> k == k2
    requires f == InternalClient <==> k == k3
    requires f == InternalPort <==> k == k4
    requires f == Description <==> k == k5
    requires f == Ignored <==> k == k6
    ensures var m := map[k0 := Written(p, Enabled), k1 := Written(p, Protocol), k2 := Written(p, ExternalPort),
      k3 := Written(p, InternalClient),
                         k4 := Written(p, InternalPort), k5 := Written(p, Description), k6 := Written(p, Ignored)];
      k in m && m[k] == Written(p, f)
  {
  }

  lemma BuiltNames(prefix: string, p: Payload, k: string) returns (f: Field)
    requires k in BuildUnder(prefix, p)
    ensures k == prefix + NameOf(f)
  {
    f := if k == prefix + NameOf(Enabled) then Enabled
         else if k == prefix + NameOf(Protocol) then Protocol
         else if k == prefix + NameOf(ExternalPort) then ExternalPort
         else if k == prefix + NameOf(InternalClient) then InternalClient
         else if k == prefix + NameOf(InternalPort) then InternalPort
         else if k == prefix + NameOf(Description) then Description
         else Ignored;
  }

  /** k belongs to one of the first n rules and carries its value. */
  predicate Belongs(params: Params, base: string, ps: seq<Payload>, n: nat, k: string)
    requires n <= |ps| && k in params
  {
    match Tag(base, k)
    case None => false
    case Some(t) => 1 <= t.0 <= n && params[k] == Written(ps[t.0 - 1], t.1)
  }

  lemma BelongsLast(base: string, ps: seq<Payload>, n: nat, k: string)
    requires 0 < n <= |ps| && k in BuildUnder(Prefix(base, n), ps[n - 1])
    ensures Tag(base, k).Some? && Tag(base, k).value.0 == n
    ensures BuildUnder(Prefix(base, n), ps[n - 1])[k] == Written(ps[n - 1], Tag(base, k).value.1)
  {
    var f := BuiltNames(Prefix(base, n), ps[n - 1], k);
    BuiltField(Prefix(base, n), ps[n - 1], f);
    KeyTag(base, n, f);
  }

  /** Every parameter written belongs to its rule and carries that field's value. */
  lemma {:induction false} BuiltBelongs(base: string, ps: seq<Payload>, n: nat, k: string)
    requires n <= |ps| && k in Built(base, ps, n)
    ensures Belongs(Built(base, ps, n), base, ps, n, k)
  {
    if k in BuildUnder(Prefix(base, n), ps[n - 1]) {
      BelongsLast(base, ps, n, k);
    } else {
      BuiltBelongs(base, ps, n - 1, k);
    }
  }

  lemma {:induction false} BuiltHasKey(base: string, ps: seq<Payload>, n: nat, i: int, f: Field)
    requires 1 <= i <= n <= |ps|
    ensures Key(base, i, NameOf(f)) in Built(base, ps, n)
  {
    BuiltField(Prefix(base, n), ps[n - 1], f);
    if i < n { BuiltHasKey(base, ps, n - 1, i, f); }
  }

  /** The device reports exactly what was written for instances 1 to |ps|. */
  predicate Stores(params: Params, base: string, ps: seq<Payload>) {
    params == Built(base, ps, |ps|)
  }

  predicate Seen(done: seq<string>, base: string, i: int, f: Field) {
    done != [] && (Tag(base, done[|done| - 1]) == Some((i, f)) || Seen(done[..|done| - 1], base, i, f))
  }

  lemma {:induction false} SeenKey(done: seq<string>, base: string, i: int, f: Field, key: string)
    requires key in done && Tag(base, key) == Some((i, f))
    ensures Seen(done, base, i, f)
  {
    var n := |done| - 1;
    assert done == done[..n] + [done[n]];
    if key != done[n] { SeenKey(done[..n], base, i, f, key); }
  }

  lemma StoredValue(params: Params, base: string, ps: seq<Payload>, i: int, f: Field, k: string)
    requires Stores(params, base, ps) && k in params && 1 <= i <= |ps| && Tag(base, k) == Some((i, f))
    ensures params[k] == Written(ps[i - 1], f)
  {
    BuiltBelongs(base, ps, |ps|, k);
  }

  lemma {:induction false} LatestIsWritten(done: seq<string>, params: Params, base: string, ps: seq<Payload>, i: int,
                                           f: Field)
    requires Stores(params, base, ps) && 1 <= i <= |ps| && forall k | k in done :: k in params
    ensures Latest(done, params, base, i, f) == if Seen(done, base, i, f) then Written(ps[i - 1], f) else ""
  {
    if done != [] {
      var k := done[|done| - 1];
      assert k in done;
      LatestIsWritten(done[..|done| - 1], params, base, ps, i, f);
      if Tag(base, k) == Some((i, f)) { StoredValue(params, base, ps, i, f, k); }
    }
  }

  lemma StoredLatest(order: seq<string>, params: Params, base: string, ps: seq<Payload>, i: int, f: Field)
    requires Stores(params, base, ps) && Visits(order, params.Keys) && 1 <= i <= |ps|
    ensures Latest(order, params, base, i, f) == Written(ps[i - 1], f)
  {
    var key := StoredKey(order, params, base, ps, i, f);
    SeenKey(order, base, i, f, key);
    LatestIsWritten(order, params, base, ps, i, f);
  }

  lemma StoredKey(order: seq<string>, params: Params, base: string, ps: seq<Payload>, i: int, f: Field)
    returns (key: string)
    requires Stores(params, base, ps) && Visits(order, params.Keys) && 1 <= i <= |ps|
    ensures key in order && Tag(base, key) == Some((i, f))
  {
    key := Key(base, i, NameOf(f));
    BuiltHasKey(base, ps, |ps|, i, f);
    KeyTag(base, i, f);
  }

  /** The rule a payload stands for, with the defaults filled in. */
  function RuleOf(i: int, p: Payload): Rule {
    Rule(i, p.enabled != Some(false), if p.protocol == "" then "TCP" else p.protocol, p.externalPort, p.internalIp,
      p.internalPort,
         p.description)
  }

  lemma AssembleWritten(i: int, p: Payload)
    ensures Assemble(i, Texts(Written(p, Enabled), Written(p, Protocol), Written(p, ExternalPort),
      Written(p, InternalClient),
                              Written(p, InternalPort), Written(p, Description))) == RuleOf(i, p)
  {
    AtoiOfItoa(p.externalPort);
    AtoiOfItoa(p.internalPort);
    assert |ToLower("0")| != |ToLower("true")| && "0"[0] != "1"[0];
  }

  lemma StoredNames(order: seq<string>, params: Params, base: string, ps: seq<Payload>, i: int)
    requires Stores(params, base, ps) && Visits(order, params.Keys)
    ensures Named(order, base, i) <==> 1 <= i <= |ps|
  {
    if Named(order, base, i) {
      var k :| k in order && Tag(base, k).Some? && Tag(base, k).value.0 == i;
      BuiltBelongs(base, ps, |ps|, k);
    }
    if 1 <= i <= |ps| {
      var key := StoredKey(order, params, base, ps, i, Enabled);
    }
  }

  lemma StoredRule(order: seq<string>, params: Params, base: string, ps: seq<Payload>, i: int)
    requires Stores(params, base, ps) && Visits(order, params.Keys)
    ensures i in Scan(order, params, base) <==> 1 <= i <= |ps|
    ensures 1 <= i <= |ps| ==> Scan(order, params, base)[i] == RuleOf(i, ps[i - 1])
  {
    ScanBuildsRules(order, params, base, i);
    StoredNames(order, params, base, ps, i);
    if 1 <= i <= |ps| {
      StoredLatest(order, params, base, ps, i, Enabled);
      StoredLatest(order, params, base, ps, i, Protocol);
      StoredLatest(order, params, base, ps, i, ExternalPort);
      StoredLatest(order, params, base, ps, i, InternalClient);
      StoredLatest(order, params, base, ps, i, InternalPort);
      StoredLatest(order, params, base, ps, i, Description);
      AssembleWritten(i, ps[i - 1]);
    }
  }

  /** Numbers from 1 to n. */
  function UpTo(n: nat): (s: set<int>)
    ensures |s| == n && forall i :: i in s <==> 1 <= i <= n
  {
    if n == 0 then {} else UpTo(n - 1) + {n}
  }

  lemma SubsetOfSameSize(a: set<int>, b: set<int>)
    requires a <= b && |a| == |b|
    ensures a == b
  {
    assert b == a + (b - a);
    assert |a + (b - a)| == |a| + |b - a|;
  }

  predicate Full(rules: Rules, count: nat) {
    forall i | 1 <= i <= count :: i in rules
  }

  lemma {:induction false} ListedSize(rules: Rules, count: nat)
    ensures |Listed(rules, count)| <= count
    ensures |Listed(rules, count)| == count <==> Full(rules, count)
  {
    if count > 0 { ListedSize(rules, count - 1); }
  }

  lemma {:induction false} ListedAt(rules: Rules, count: nat, j: nat)
    requires Full(rules, count) && j < count
    ensures |Listed(rules, count)| == count && Listed(rules, count)[j] == rules[j + 1]
  {
    ListedSize(rules, count - 1);
    if j < count - 1 { ListedAt(rules, count - 1, j); }
  }

  /** No rule is lost exactly when the instance numbers have no gap and start at 1. */
  lemma ListingIsCompleteIff(rules: Rules)
    ensures |Listed(rules, |rules|)| == |rules| <==> forall i :: i in rules <==> 1 <= i <= |rules|
  {
    ListedSize(rules, |rules|);
    if Full(rules, |rules|) {
      assert |rules.Keys| == |rules|;
      SubsetOfSameSize(UpTo(|rules|), rules.Keys);
      assert forall i :: i in rules.Keys <==> i in UpTo(|rules|);
    }
  }

  lemma RangeSize(rules: Rules, n: nat)
    requires forall i :: i in rules <==> 1 <= i <= n
    ensures |rules| == n
  {
    assert rules.Keys == UpTo(n);
    assert |rules.Keys| == |rules|;
  }

  lemma ScanSize(order: seq<string>, params: Params, base: string, ps: seq<Payload>)
    requires Stores(params, base, ps) && Visits(order, params.Keys)
    ensures Full(Scan(order, params, base), |ps|) && |Scan(order, params, base)| == |ps|
  {
    forall i ensures i in Scan(order, params, base) <==> 1 <= i <= |ps| { StoredRule(order, params, base, ps, i); }
    RangeSize(Scan(order, params, base), |ps|);
  }

  /** parsePortMappingRules for one visiting order. */
  function Parse(order: seq<string>, params: Params, base: string): seq<Rule>
    requires forall k | k in order :: k in params
  {
    var rules := Scan(order, params, base);
    Listed(rules, |rules|)
  }

  /** Reading back what was written for instances 1 to n gives the n rules in order, whatever the visiting order. */
  lemma RoundTrip(order: seq<string>, params: Params, base: string, ps: seq<Payload>)
    requires Stores(params, base, ps) && Visits(order, params.Keys)
    ensures |Parse(order, params, base)| == |ps|
    ensures forall j | 0 <= j < |ps| :: Parse(order, params, base)[j] == RuleOf(j + 1, ps[j])
  {
    ScanSize(order, params, base, ps);
    ListedSize(Scan(order, params, base), |ps|);
    forall j | 0 <= j < |ps| ensures Parse(order, params, base)[j] == RuleOf(j + 1, ps[j]) {
      ParsedRule(order, params, base, ps, j);
    }
  }

  lemma ParsedRule(order: seq<string>, params: Params, base: string, ps: seq<Payload>, j: nat)
    requires Stores(params, base, ps) && Visits(order, params.Keys) && j < |ps|
    ensures |Parse(order, params, base)| == |ps| && Parse(order, params, base)[j] == RuleOf(j + 1, ps[j])
  {
    ScanSize(order, params, base, ps);
    ListedAt(Scan(order, params, base), |ps|, j);
    StoredRule(order, params, base, ps, j + 1);
  }

  // ---- names and values in the words of the device ----

  lemma StoredText(base: string, ps: seq<Payload>, i: int, f: Field)
    requires 1 <= i <= |ps|
    ensures var all := Built(base, ps, |ps|);
      Key(base, i, NameOf(f)) in all && all[Key(base, i, NameOf(f))] == Written(ps[i - 1], f)
  {
    BuiltHasKey(base, ps, |ps|, i, f);
    KeyTag(base, i, f);
    BuiltBelongs(base, ps, |ps|, Key(base, i, NameOf(f)));
  }

  predicate Holds(params: Params, k: string, v: string) {
    k in params && params[k] == v
  }

  /** What is sent for the i-th rule: switched on unless the caller says otherwise, TCP unless a protocol is given, and
      a lease that does not end. */
  lemma WrittenByName(base: string, ps: seq<Payload>, i: int)
    requires 1 <= i <= |ps|
    ensures var all, p, at := Built(base, ps, |ps|), ps[i - 1], base + Itoa(i) + ".";
      && Holds(all, at + "PortMappingEnabled", if p.enabled == Some(false) then "0" else "1")
      && Holds(all, at + "PortMappingProtocol", if p.protocol == "" then "TCP" else p.protocol)
      && Holds(all, at + "ExternalPort", Itoa(p.externalPort)) && Holds(all, at + "InternalPort", Itoa(p.internalPort))
      && Holds(all, at + "InternalClient", p.internalIp) && Holds(all, at + "PortMappingDescription", p.description)
      && Holds(all, at + "PortMappingLeaseDuration", "0")
  {
    StoredText(base, ps, i, Enabled);
    StoredText(base, ps, i, Protocol);
    StoredText(base, ps, i, ExternalPort);
    StoredText(base, ps, i, InternalPort);
    StoredText(base, ps, i, InternalClient);
    StoredText(base, ps, i, Description);
    StoredText(base, ps, i, Ignored);
  }

  /** A device that reports a single parameter of its first rule. */
  lemma ReadOne(base: string, name: string, v: string, order: seq<string>)
    requires Visits(order, {Key(base, 1, name)})
    ensures Parse(order, map[Key(base, 1, name) := v], base) == [Put(BlankRule(1), FieldOf(name), v)]
  {
    var k := Key(base, 1, name);
    var params := map[k := v];
    assert k in order;
    assert order == [k] by { OnlyOne(order, k); }
    assert order[..0] == [] && Scan([], params, base) == map[];
    DecodeKey(base, 1, name);
    assert Tag(base, k) == Some((1, FieldOf(name)));
    var rules := Scan(order, params, base);
    assert rules == Touch(map[], 1, FieldOf(name), v);
    assert rules == map[1 := Put(BlankRule(1), FieldOf(name), v)];
    assert |rules| == 1 && Listed(rules, 0) == [];
    assert Listed(rules, 1) == [] + [rules[1]];
  }

  lemma OnlyOne(order: seq<string>, k: string)
    requires Visits(order, {k})
    ensures order == [k]
  {
    assert k in order;
    var n := |order| - 1;
    assert order[n] in order && order[0] in order;
  }

  /** The long and the short names of a rule's fields, and how their values are read. */
  lemma ReadByName(base: string, name: string, v: string, order: seq<string>)
    requires Visits(order, {base + Itoa(1) + "." + name})
    ensures var rules := Parse(order, map[base + Itoa(1) + "." + name := v], base);
      && (name == "PortMappingEnabled" || name == "Enable" ==>
            rules == [Rule(1, EqualFold(v, "true") || v == "1", "", 0, "", 0, "")])
      && (name == "PortMappingProtocol" || name == "Protocol" ==> rules == [Rule(1, false, v, 0, "", 0, "")])
      && (name == "ExternalPort" ==> rules == [Rule(1, false, "", Atoi(v).Or(0), "", 0, "")])
      && (name == "InternalClient" ==> rules == [Rule(1, false, "", 0, v, 0, "")])
      && (name == "InternalPort" ==> rules == [Rule(1, false, "", 0, "", Atoi(v).Or(0), "")])
      && (name == "PortMappingDescription" || name == "Description" ==> rules == [Rule(1, false, "", 0, "", 0, v)])
  {
    ReadOne(base, name, v, order);
    NamesApart(name);
  }

  lemma NamesApart(name: string)
    ensures name == "PortMappingEnabled" || name == "Enable" ==> FieldOf(name) == Enabled
    ensures name == "PortMappingProtocol" || name == "Protocol" ==> FieldOf(name) == Protocol
    ensures name == "ExternalPort" ==> FieldOf(name) == ExternalPort
    ensures name == "InternalClient" ==> FieldOf(name) == InternalClient
    ensures name == "InternalPort" ==> FieldOf(name) == InternalPort
    ensures name == "PortMappingDescription" || name == "Description" ==> FieldOf(name) == Description
  {
    NamesReadBack(Enabled);
    NamesReadBack(Protocol);
    NamesReadBack(ExternalPort);
    NamesReadBack(InternalClient);
    NamesReadBack(InternalPort);
    NamesReadBack(Description);
    assert "Enable"[0] == 'E' && "Protocol"[1] == 'r' && "Description"[0] == 'D' && "Protocol"[0] == 'P';
    assert |"PortMappingEnabled"| == 18 && |"PortMappingProtocol"| == 19 && |"Enable"| == 6 && |"Protocol"| == 8;
  }

  // ---- the code ----

  method ScanParams(params: Params, base: string) returns (rules: Rules, ghost order: seq<string>)
    ensures Visits(order, params.Keys) && rules == Scan(order, params, base)
  {
    rules, order := map[], [];
    var todo := params.Keys;
    while todo != {}
      invariant todo <= params.Keys && forall k :: k in order <==> k in params && k !in todo
      invariant forall i, j | 0 <= i < j < |order| :: order[i] != order[j]
      invariant rules == Scan(order, params, base)
      decreases |todo|
    {
      var k :| k in todo;
      rules := VisitParam(rules, params, base, k, order);
      order := order + [k];
      todo := todo - {k};
    }
  }

  /** The body of the loop: find the rule, then set the field. */
  method VisitParam(rules: Rules, params: Params, base: string, k: string, ghost order: seq<string>)
    returns (next: Rules)
    requires k in params && (forall q | q in order :: q in params) && rules == Scan(order, params, base)
    ensures next == Scan(order + [k], params, base)
  {
    assert (order + [k])[..|order|] == order;
    var tag := Tag(base, k);
    if tag.None? {
      return rules;
    }
    next := Touch(rules, tag.value.0, tag.value.1, params[k]);
  }

  method ParsePortMappingRules(params: Params, base: string) returns (list: seq<Rule>)
    ensures exists order :: Visits(order, params.Keys) && list == Parse(order, params, base)
  {
    var rules;
    ghost var order;
    rules, order := ScanParams(params, base);
    list := [];
    for i := 1 to |rules| + 1
      invariant list == Listed(rules, i - 1)
    {
      if i in rules {
        list := list + [rules[i]];
      }
    }
  }
}
