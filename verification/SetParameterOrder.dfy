/** The order of parameters in a SetParameterValues request: disable, VLAN, credentials,
    ordinary values, mode values, and re-enable last. */
module SetParameterOrder {
  import opened GoStrings
  import opened Ordering

  // ---- the six questions the comparator asks about a parameter ----

  predicate IsDisable(name: string, value: string) {
    Leaf(name) == "Enable" && value == "0"
  }

  predicate IsVlan(name: string) {
    Contains(name, "VLANTermination") && Leaf(name) == "VLANID"
  }

  predicate IsSecure(name: string) {
    var leaf := Leaf(name);
    leaf == "Username" || leaf == "Password" || leaf == "KeyPassphrase" || leaf == "PreSharedKey"
  }

  predicate IsEnable(name: string, value: string) {
    Leaf(name) == "Enable" && value == "1"
  }

  predicate IsMode(name: string) {
    Leaf(name) == "ModeEnabled" || Leaf(name) == "EncryptionMode"
  }

  /** The comparator passed to the sort, level by level. */
  predicate Before(a: (string, string), b: (string, string)) {
    if IsDisable(a.0, a.1) != IsDisable(b.0, b.1) then IsDisable(a.0, a.1)
    else if IsVlan(a.0) != IsVlan(b.0) then IsVlan(a.0)
    else if IsSecure(a.0) != IsSecure(b.0) then IsSecure(a.0)
    else if IsEnable(a.0, a.1) != IsEnable(b.0, b.1) then !IsEnable(a.0, a.1)
    else if IsMode(a.0) != IsMode(b.0) then !IsMode(a.0)
    else StringLess(a.0, b.0)
  }

  // ---- what the order means ----

  datatype Block = Disable | Vlan | Credential | OrdinaryValue | Mode | Enable

  function BlockOf(name: string, value: string): Block {
    if IsDisable(name, value) then Disable
    else if IsVlan(name) then Vlan
    else if IsSecure(name) then Credential
    else if IsEnable(name, value) then Enable
    else if IsMode(name) then Mode
    else OrdinaryValue
  }

  function Place(b: Block): nat {
    match b
    case Disable => 0
    case Vlan => 1
    case Credential => 2
    case OrdinaryValue => 3
    case Mode => 4
    case Enable => 5
  }

  function PlaceOf(p: (string, string)): nat {
    Place(BlockOf(p.0, p.1))
  }

  lemma LeavesDiffer()
    ensures "Enable" != "VLANID" && "Enable" != "Username" && "Enable" != "Password" && "Enable" != "KeyPassphrase"
      && "Enable" != "PreSharedKey"
    ensures "VLANID" != "Username" && "VLANID" != "Password" && "VLANID" != "KeyPassphrase"
      && "VLANID" != "PreSharedKey"
    ensures "ModeEnabled" != "Enable" && "EncryptionMode" != "Enable" && "ModeEnabled" != "VLANID"
      && "EncryptionMode" != "VLANID"
    ensures "ModeEnabled" != "Username" && "ModeEnabled" != "Password" && "ModeEnabled" != "KeyPassphrase"
      && "ModeEnabled" != "PreSharedKey"
    ensures "EncryptionMode" != "Username" && "EncryptionMode" != "Password" && "EncryptionMode" != "KeyPassphrase"
      && "EncryptionMode" != "PreSharedKey"
  {
    assert "VLANID"[0] == 'V' && "Enable"[0] == 'E';
  }

  /** A parameter answers yes to at most one question. */
  lemma BlocksAreExclusive(name: string, value: string)
    ensures IsDisable(name, value) ==> !IsVlan(name) && !IsSecure(name) && !IsEnable(name, value) && !IsMode(name)
    ensures IsVlan(name) ==> !IsSecure(name) && !IsEnable(name, value) && !IsMode(name)
    ensures IsSecure(name) ==> !IsEnable(name, value) && !IsMode(name)
    ensures IsEnable(name, value) ==> !IsMode(name)
  {
    LeavesDiffer();
    assert "0" != "1";
  }

  /** The comparator is the order by block, then by name. */
  lemma BeforeIsBlockThenName(a: (string, string), b: (string, string))
    ensures Before(a, b) <==> PlaceOf(a) < PlaceOf(b) || (PlaceOf(a) == PlaceOf(b) && StringLess(a.0, b.0))
  {
    BlocksAreExclusive(a.0, a.1);
    BlocksAreExclusive(b.0, b.1);
  }

  // ---- the type each value is sent with ----

  datatype XsdType = XsdString | XsdBoolean | XsdUnsignedInt | XsdInt

  predicate IsUnsigned(leaf: string) {
    || leaf == "VLANID" || leaf == "MaxMTUSize" || leaf == "NumberOfRepetitions" || leaf == "PeriodicInformInterval"
    || leaf == "MaxMTU" || leaf == "Status" || leaf == "X_TP_VLANMode" || leaf == "Port" || leaf == "Channel"
    || leaf == "TransmitPower" || leaf == "OperatingChannelBandwidth" || leaf == "MaxBitRate" || leaf == "RSSI"
    || leaf == "X_TP_TxPower" || leaf == "AssociatedDeviceNumberOfEntries"
  }

  predicate IsSwitch(leaf: string) {
    Contains(leaf, "Enable") || leaf == "RequestAddresses" || leaf == "RequestPrefixes" || HasSuffix(leaf, "Mcast")
  }

  /** inferXSDType: only the leaf of the name decides. */
  function InferXsdType(name: string): XsdType {
    var leaf := Leaf(name);
    if leaf == "ModeEnabled" then XsdString
    else if IsSwitch(leaf) then XsdBoolean
    else if IsUnsigned(leaf) then XsdUnsignedInt
    else if leaf == "X_TP_MulticastStatus" then XsdInt
    else XsdString
  }

  lemma {:induction false} ContainedLetters(s: string, sub: string)
    ensures Contains(s, sub) ==> forall c | c in sub :: c in s
  {
    if !HasPrefix(s, sub) && s != "" {
      ContainedLetters(s[1..], sub);
    }
  }

  lemma NotASwitch(leaf: string)
    requires leaf != "" && 'b' !in leaf && leaf[|leaf| - 1] != 't' && leaf[|leaf| - 1] != 's'
    ensures !IsSwitch(leaf)
  {
    ContainedLetters(leaf, "Enable");
    assert "Enable"[3] == 'b';
    assert "Mcast"[4] == 't' && "RequestAddresses"[15] == 's' && "RequestPrefixes"[14] == 's';
  }

  lemma NotANumber(name: string)
    requires IsSecure(name) || Leaf(name) == "EncryptionMode"
    ensures !IsUnsigned(Leaf(name)) && Leaf(name) != "X_TP_MulticastStatus"
  {
    var leaf := Leaf(name);
    assert leaf[0] == 'U' || leaf[0] == 'P' || leaf[0] == 'K' || leaf[0] == 'E';
  }

  lemma SecureIsNoSwitch(name: string)
    requires IsSecure(name) || Leaf(name) == "EncryptionMode"
    ensures !IsSwitch(Leaf(name))
  {
    NotASwitch(Leaf(name));
  }

  lemma SecureIsString(name: string)
    requires IsSecure(name) || IsMode(name)
    ensures InferXsdType(name) == XsdString
  {
    if Leaf(name) != "ModeEnabled" {
      NotANumber(name);
      SecureIsNoSwitch(name);
    }
  }

  /** The type agrees with the block: switches are booleans, VLANs unsigned, credentials and modes strings. */
  lemma BlockFixesType(name: string, value: string)
    ensures IsDisable(name, value) || IsEnable(name, value) ==> InferXsdType(name) == XsdBoolean
    ensures IsVlan(name) ==> InferXsdType(name) == XsdUnsignedInt
    ensures IsSecure(name) || IsMode(name) ==> InferXsdType(name) == XsdString
  {
    if IsSecure(name) || IsMode(name) {
      SecureIsString(name);
    }
    if IsDisable(name, value) || IsEnable(name, value) {
      assert HasPrefix(Leaf(name), "Enable");
    }
    if IsVlan(name) {
      NotASwitch(Leaf(name));
    }
  }

  // the types in the words of the request

  /** A text that misses one of the letters of Enable, and the other marks of a switch, is none. */
  lemma NoSwitchLetter(leaf: string, letter: char)
    requires letter in "Enable" && letter !in leaf && !HasSuffix(leaf, "Mcast")
    requires leaf != "RequestAddresses" && leaf != "RequestPrefixes"
    ensures !IsSwitch(leaf)
  {
    ContainedLetters(leaf, "Enable");
  }

  lemma NotMcast(leaf: string)
    requires |leaf| < 5 || leaf[|leaf| - 2] != 's'
    ensures !HasSuffix(leaf, "Mcast")
  {
    if |leaf| >= 5 {
      assert leaf[|leaf| - 5..][3] == leaf[|leaf| - 2] && "Mcast"[3] == 's';
    }
  }

  lemma NumbersAreUnsigned(leaf: string)
    requires leaf == "VLANID" || leaf == "MaxMTUSize" || leaf == "MaxMTU" || leaf == "X_TP_VLANMode"
      || leaf == "Channel"
      || leaf == "MaxBitRate" || leaf == "RSSI"
    ensures !IsSwitch(leaf) && IsUnsigned(leaf) && leaf != "ModeEnabled"
  {
    NotMcast(leaf);
    assert 'b' in "Enable" by { assert "Enable"[3] == 'b'; }
    NoSwitchLetter(leaf, 'b');
    assert leaf[1] != 'o' || leaf[0] != 'M';
  }

  lemma PowersAreUnsigned(leaf: string)
    requires leaf == "TransmitPower" || leaf == "X_TP_TxPower" || leaf == "Port" || leaf == "Status"
      || leaf == "PeriodicInformInterval"
    ensures !IsSwitch(leaf) && IsUnsigned(leaf) && leaf != "ModeEnabled"
  {
    NotMcast(leaf);
    assert 'b' in "Enable" by { assert "Enable"[3] == 'b'; }
    NoSwitchLetter(leaf, 'b');
  }

  lemma CountsAreUnsigned(leaf: string)
    requires leaf == "NumberOfRepetitions" || leaf == "OperatingChannelBandwidth"
    ensures !IsSwitch(leaf) && IsUnsigned(leaf) && leaf != "ModeEnabled"
  {
    NotMcast(leaf);
    assert 'E' in "Enable" by { assert "Enable"[0] == 'E'; }
    NoSwitchLetter(leaf, 'E');
  }

  lemma EntriesAreUnsigned(leaf: string)
    requires leaf == "AssociatedDeviceNumberOfEntries"
    ensures !IsSwitch(leaf) && IsUnsigned(leaf) && leaf != "ModeEnabled"
  {
    NotMcast(leaf);
    assert 'l' in "Enable" by { assert "Enable"[4] == 'l'; }
    NoSwitchLetter(leaf, 'l');
  }

  lemma MulticastIsInt(leaf: string)
    requires leaf == "X_TP_MulticastStatus"
    ensures !IsSwitch(leaf) && !IsUnsigned(leaf) && leaf != "ModeEnabled"
  {
    NotMcast(leaf);
    assert 'b' in "Enable" by { assert "Enable"[3] == 'b'; }
    NoSwitchLetter(leaf, 'b');
  }

  /** Which names are sent as numbers. */
  predicate NamesNumber(n: string) {
    || Named(n, "VLANID") || Named(n, "MaxMTUSize") || Named(n, "NumberOfRepetitions")
    || Named(n, "PeriodicInformInterval") || Named(n, "MaxMTU") || Named(n, "Status") || Named(n, "X_TP_VLANMode")
    || Named(n, "Port") || Named(n, "Channel") || Named(n, "TransmitPower") || Named(n, "OperatingChannelBandwidth")
    || Named(n, "MaxBitRate") || Named(n, "RSSI") || Named(n, "X_TP_TxPower")
    || Named(n, "AssociatedDeviceNumberOfEntries")
  }

  lemma VlanNumbersByName(n: string)
    ensures Leaf(n) == "VLANID" <==> Named(n, "VLANID")
    ensures Leaf(n) == "MaxMTUSize" <==> Named(n, "MaxMTUSize")
    ensures Leaf(n) == "NumberOfRepetitions" <==> Named(n, "NumberOfRepetitions")
    ensures Leaf(n) == "PeriodicInformInterval" <==> Named(n, "PeriodicInformInterval")
    ensures Leaf(n) == "MaxMTU" <==> Named(n, "MaxMTU")
  {
    LeafIsNamed(n, "VLANID");
    LeafIsNamed(n, "MaxMTUSize");
    LeafIsNamed(n, "NumberOfRepetitions");
    LeafIsNamed(n, "PeriodicInformInterval");
    LeafIsNamed(n, "MaxMTU");
  }

  lemma RadioNumbersByName(n: string)
    ensures Leaf(n) == "Status" <==> Named(n, "Status")
    ensures Leaf(n) == "X_TP_VLANMode" <==> Named(n, "X_TP_VLANMode")
    ensures Leaf(n) == "Port" <==> Named(n, "Port")
    ensures Leaf(n) == "Channel" <==> Named(n, "Channel")
    ensures Leaf(n) == "TransmitPower" <==> Named(n, "TransmitPower")
  {
    LeafIsNamed(n, "Status");
    LeafIsNamed(n, "X_TP_VLANMode");
    LeafIsNamed(n, "Port");
    LeafIsNamed(n, "Channel");
    LeafIsNamed(n, "TransmitPower");
  }

  lemma RateNumbersByName(n: string)
    ensures Leaf(n) == "OperatingChannelBandwidth" <==> Named(n, "OperatingChannelBandwidth")
    ensures Leaf(n) == "MaxBitRate" <==> Named(n, "MaxBitRate")
    ensures Leaf(n) == "RSSI" <==> Named(n, "RSSI")
    ensures Leaf(n) == "X_TP_TxPower" <==> Named(n, "X_TP_TxPower")
    ensures Leaf(n) == "AssociatedDeviceNumberOfEntries" <==> Named(n, "AssociatedDeviceNumberOfEntries")
  {
    LeafIsNamed(n, "OperatingChannelBandwidth");
    LeafIsNamed(n, "MaxBitRate");
    LeafIsNamed(n, "RSSI");
    LeafIsNamed(n, "X_TP_TxPower");
    LeafIsNamed(n, "AssociatedDeviceNumberOfEntries");
  }

  lemma NumbersByName(n: string)
    ensures IsUnsigned(Leaf(n)) <==> NamesNumber(n)
  {
    VlanNumbersByName(n);
    RadioNumbersByName(n);
    RateNumbersByName(n);
  }

  lemma NumbersAreNoSwitches(leaf: string)
    requires IsUnsigned(leaf)
    ensures !IsSwitch(leaf) && leaf != "ModeEnabled"
  {
    if leaf == "TransmitPower" || leaf == "X_TP_TxPower" || leaf == "Port" || leaf == "Status"
      || leaf == "PeriodicInformInterval" {
      PowersAreUnsigned(leaf);
    } else if leaf == "NumberOfRepetitions" || leaf == "OperatingChannelBandwidth" {
      CountsAreUnsigned(leaf);
    } else if leaf == "AssociatedDeviceNumberOfEntries" {
      EntriesAreUnsigned(leaf);
    } else {
      NumbersAreUnsigned(leaf);
    }
  }

  /** The type of every parameter, read off the last segment of its name. */
  lemma TypesByName(n: string)
    ensures InferXsdType(n) == XsdUnsignedInt <==> NamesNumber(n)
    ensures InferXsdType(n) == XsdInt <==> Named(n, "X_TP_MulticastStatus")
    ensures InferXsdType(n) == XsdBoolean <==>
      !Named(n, "ModeEnabled")
      && (Contains(Leaf(n), "Enable") || Named(n, "RequestAddresses") || Named(n, "RequestPrefixes")
          || HasSuffix(Leaf(n), "Mcast"))
  {
    NumbersByName(n);
    LeafIsNamed(n, "X_TP_MulticastStatus");
    LeafIsNamed(n, "ModeEnabled");
    LeafIsNamed(n, "RequestAddresses");
    LeafIsNamed(n, "RequestPrefixes");
    if Leaf(n) == "X_TP_MulticastStatus" { MulticastIsInt(Leaf(n)); }
    if IsUnsigned(Leaf(n)) { NumbersAreNoSwitches(Leaf(n)); }
  }

  // ---- sorting the parameter names ----

  type Params = map<string, string>

  function ValueOf(params: Params, name: string): string {
    if name in params then params[name] else ""
  }

  function Pair(params: Params, name: string): (string, string) {
    (name, ValueOf(params, name))
  }

  function NameOrder(params: Params): (string, string) -> bool {
    (a: string, b: string) => Before(Pair(params, a), Pair(params, b))
  }

  lemma NameOrderMeans(params: Params, a: string, b: string)
    ensures NameOrder(params)(a, b) <==>
      var p, q := PlaceOf(Pair(params, a)), PlaceOf(Pair(params, b));
      p < q || (p == q && StringLess(a, b))
  {
    BeforeIsBlockThenName(Pair(params, a), Pair(params, b));
  }

  /** For every parameter map the comparator is a strict total order on names. */
  lemma NameOrderIsTotal(params: Params)
    ensures StrictTotal(NameOrder(params))
  {
    var less := NameOrder(params);
    forall x: string ensures !less(x, x) {
      NameOrderMeans(params, x, x);
      StringLessIrreflexive(x);
    }
    forall x, y ensures less(x, y) || x == y || less(y, x) {
      NameOrderMeans(params, x, y);
      NameOrderMeans(params, y, x);
      StringLessTotal(x, y);
    }
    forall x, y, z | less(x, y) && less(y, z) ensures less(x, z) {
      NameOrderMeans(params, x, y);
      NameOrderMeans(params, y, z);
      NameOrderMeans(params, x, z);
      if StringLess(x, y) && StringLess(y, z) { StringLessTransitive(x, y, z); }
    }
  }

  /** pvs lists the map once, block by block in the documented order and by name within a block. */
  ghost predicate Emission(pvs: seq<(string, string)>, params: Params) {
    && (forall i | 0 <= i < |pvs| :: pvs[i].0 in params && pvs[i].1 == params[pvs[i].0])
    && (forall n | n in params :: (n, params[n]) in pvs)
    && (forall i, j | 0 <= i < j < |pvs| ::
          PlaceOf(pvs[i]) < PlaceOf(pvs[j]) || (PlaceOf(pvs[i]) == PlaceOf(pvs[j]) && StringLess(pvs[i].0, pvs[j].0)))
  }

  function NamesOf(pvs: seq<(string, string)>): (names: seq<string>)
    ensures |names| == |pvs| && forall i | 0 <= i < |pvs| :: names[i] == pvs[i].0
  {
    seq(|pvs|, i requires 0 <= i < |pvs| => pvs[i].0)
  }

  lemma EmissionNames(pvs: seq<(string, string)>, params: Params)
    requires Emission(pvs, params)
    ensures Ordered(NamesOf(pvs), NameOrder(params)) && forall n :: n in NamesOf(pvs) <==> n in params
  {
    var names := NamesOf(pvs);
    forall i, j | 0 <= i < j < |names| ensures NameOrder(params)(names[i], names[j]) {
      NameOrderMeans(params, names[i], names[j]);
      assert Pair(params, names[i]) == pvs[i] && Pair(params, names[j]) == pvs[j];
    }
    forall n ensures n in names <==> n in params {
      if n in params {
        var i :| 0 <= i < |pvs| && pvs[i] == (n, params[n]);
        assert names[i] == n;
      }
    }
  }

  /** The request is determined by the parameter map alone. */
  lemma EmissionIsUnique(a: seq<(string, string)>, b: seq<(string, string)>, params: Params)
    requires Emission(a, params) && Emission(b, params)
    ensures a == b
  {
    EmissionNames(a, params);
    EmissionNames(b, params);
    NameOrderIsTotal(params);
    OrderedIsUnique(NamesOf(a), NamesOf(b), NameOrder(params));
    forall i | 0 <= i < |a| ensures a[i] == b[i] {
      assert NamesOf(a)[i] == NamesOf(b)[i];
    }
  }

  // ---- the order in the words of the request ----

  /** The special parameters, by the last segment of their names. */
  lemma BlocksByName(name: string, value: string)
    ensures IsDisable(name, value) <==> Named(name, "Enable") && value == "0"
    ensures IsEnable(name, value) <==> Named(name, "Enable") && value == "1"
    ensures IsVlan(name) <==> Named(name, "VLANID") && Contains(name, "VLANTermination")
    ensures IsSecure(name) <==>
      Named(name, "Username") || Named(name, "Password") || Named(name, "KeyPassphrase") || Named(name, "PreSharedKey")
    ensures IsMode(name) <==> Named(name, "ModeEnabled") || Named(name, "EncryptionMode")
  {
    LeafIsNamed(name, "Enable");
    LeafIsNamed(name, "VLANID");
    LeafIsNamed(name, "Username");
    LeafIsNamed(name, "Password");
    LeafIsNamed(name, "KeyPassphrase");
    LeafIsNamed(name, "PreSharedKey");
    LeafIsNamed(name, "ModeEnabled");
    LeafIsNamed(name, "EncryptionMode");
  }

  /** Names and values that go in front of those of a later group, whatever the path in front of the last segment. */
  predicate DisablesFirst(a: (string, string), b: (string, string)) {
    Named(a.0, "Enable") && a.1 == "0" && !(Named(b.0, "Enable") && b.1 == "0")
  }

  predicate EnablesLast(a: (string, string), b: (string, string)) {
    Named(b.0, "Enable") && b.1 == "1" && !(Named(a.0, "Enable") && a.1 == "1")
  }

  predicate SendsVlan(p: (string, string)) {
    Named(p.0, "VLANID") && Contains(p.0, "VLANTermination")
  }

  predicate SendsCredential(p: (string, string)) {
    Named(p.0, "Username") || Named(p.0, "Password") || Named(p.0, "KeyPassphrase") || Named(p.0, "PreSharedKey")
  }

  predicate SendsMode(p: (string, string)) {
    Named(p.0, "ModeEnabled") || Named(p.0, "EncryptionMode")
  }

  predicate SendsSwitch(p: (string, string)) {
    Named(p.0, "Enable") && (p.1 == "0" || p.1 == "1")
  }

  /** Nothing special about it. */
  predicate SendsOther(p: (string, string)) {
    !SendsVlan(p) && !SendsCredential(p) && !SendsMode(p) && !SendsSwitch(p)
  }

  /** a must be sent before b. */
  predicate MustPrecede(a: (string, string), b: (string, string)) {
    || DisablesFirst(a, b) || EnablesLast(a, b)
    || (SendsVlan(a) && (SendsCredential(b) || SendsOther(b) || SendsMode(b)))
    || (SendsCredential(a) && (SendsOther(b) || SendsMode(b)))
    || (SendsOther(a) && SendsMode(b))
  }

  lemma PrecedesByPlace(a: (string, string), b: (string, string))
    requires MustPrecede(a, b)
    ensures PlaceOf(a) < PlaceOf(b)
  {
    BlocksByName(a.0, a.1);
    BlocksByName(b.0, b.1);
    BlocksAreExclusive(a.0, a.1);
    BlocksAreExclusive(b.0, b.1);
  }

  /** Disabling comes first, then VLANs, credentials, ordinary values and modes, and re-enabling last. */
  lemma DisableModifyEnable(pvs: seq<(string, string)>, params: Params, i: nat, j: nat)
    requires Emission(pvs, params) && i < |pvs| && j < |pvs| && MustPrecede(pvs[i], pvs[j])
    ensures i < j
  {
    PrecedesByPlace(pvs[i], pvs[j]);
  }

  /** The list pvs attaches to each sorted name its value. */
  ghost predicate Attached(pvs: seq<(string, string)>, sorted: seq<string>, params: Params) {
    |pvs| == |sorted| && forall i | 0 <= i < |pvs| :: pvs[i] == Pair(params, sorted[i])
  }

  lemma SortedIsEmission(pvs: seq<(string, string)>, sorted: seq<string>, params: Params)
    requires Ordered(sorted, NameOrder(params)) && Attached(pvs, sorted, params)
    requires forall n :: n in sorted <==> n in params
    ensures Emission(pvs, params)
  {
    forall n | n in params ensures (n, params[n]) in pvs {
      var k :| 0 <= k < |sorted| && sorted[k] == n;
      assert pvs[k] == (n, params[n]);
    }
    forall i, j | 0 <= i < j < |pvs|
      ensures PlaceOf(pvs[i]) < PlaceOf(pvs[j]) || (PlaceOf(pvs[i]) == PlaceOf(pvs[j])
        && StringLess(pvs[i].0, pvs[j].0))
    {
      NameOrderMeans(params, sorted[i], sorted[j]);
    }
    forall i | 0 <= i < |pvs| ensures pvs[i].0 in params && pvs[i].1 == params[pvs[i].0] {
      assert sorted[i] in sorted;
    }
  }

  /** The names of a map, in whatever order the range statement visits them. */
  method CollectNames(params: Params) returns (names: seq<string>)
    ensures forall n :: n in names <==> n in params
  {
    var todo := params;
    names := [];
    while todo != map[]
      invariant forall n | n in todo :: n in params
      invariant forall n :: n in names <==> n in params && n !in todo
      decreases |todo|
    {
      var n :| n in todo;
      names := names + [n];
      todo := todo - {n};
    }
  }

  method SortNames(names: seq<string>, params: Params) returns (sorted: seq<string>)
    ensures Ordered(sorted, NameOrder(params))
    ensures forall n :: n in sorted <==> n in names
  {
    NameOrderIsTotal(params);
    SortSorts(names, NameOrder(params));
    sorted := Sort(names, NameOrder(params));
  }

  /** One entry of the request. */
  datatype ParameterValue = ParameterValue(name: string, data: string, xsd: XsdType)

  function PairsOf(entries: seq<ParameterValue>): (pvs: seq<(string, string)>)
    ensures |pvs| == |entries| && forall i | 0 <= i < |pvs| :: pvs[i] == (entries[i].name, entries[i].data)
  {
    seq(|entries|, i requires 0 <= i < |entries| => (entries[i].name, entries[i].data))
  }

  /** The values of the sorted names, and their types. */
  method AttachValues(sorted: seq<string>, params: Params) returns (entries: seq<ParameterValue>)
    requires forall n | n in sorted :: n in params
    ensures Attached(PairsOf(entries), sorted, params)
    ensures forall i | 0 <= i < |entries| :: entries[i].xsd == InferXsdType(entries[i].name)
  {
    entries := [];
    for i := 0 to |sorted|
      invariant |entries| == i
      invariant forall j | 0 <= j < i :: entries[j] == ParameterValue(sorted[j], ValueOf(params, sorted[j]),
        InferXsdType(sorted[j]))
    {
      assert sorted[i] in params;
      entries := entries + [ParameterValue(sorted[i], params[sorted[i]], InferXsdType(sorted[i]))];
    }
  }

  /** BuildSetParameterValues: collect the names, sort them, attach the values. */
  method BuildSetParameterValues(params: Params) returns (entries: seq<ParameterValue>)
    ensures Emission(PairsOf(entries), params)
    ensures forall i, j | 0 <= i < |entries| && 0 <= j < |entries| && MustPrecede(PairsOf(entries)[i],
      PairsOf(entries)[j]) :: i < j
    ensures forall i | 0 <= i < |entries| :: entries[i].xsd == InferXsdType(entries[i].name)
  {
    var names := CollectNames(params);
    var sorted := SortNames(names, params);
    entries := AttachValues(sorted, params);
    SortedIsEmission(PairsOf(entries), sorted, params);
    forall i, j | 0 <= i < |entries| && 0 <= j < |entries| && MustPrecede(PairsOf(entries)[i], PairsOf(entries)[j])
      ensures i < j {
      DisableModifyEnable(PairsOf(entries), params, i, j);
    }
  }
}
