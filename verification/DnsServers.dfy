/** The DNS server lists that devices report: cleaning one, and splitting it into a first and a second server. */
module DnsServers {
  import opened GoStrings

  // ---- lists in one string ----

  function Split(s: string, sep: char): (parts: seq<string>)
    ensures parts != [] && forall p | p in parts :: sep !in p
    decreases |s|
  {
    var k := IndexOf(s, sep);
    if k == |s| then [s] else [s[..k]] + Split(s[k + 1..], sep)
  }

  function Join(parts: seq<string>, sep: char): string {
    if parts == [] then ""
    else if |parts| == 1 then parts[0]
    else parts[0] + [sep] + Join(parts[1..], sep)
  }

  lemma JoinIndex(parts: seq<string>, sep: char)
    requires parts != [] && sep !in parts[0]
    ensures IndexOf(Join(parts, sep), sep) == |parts[0]|
    ensures |parts[0]| == |Join(parts, sep)| <==> |parts| == 1
  {
    if |parts| == 1 {
      IndexOfPast(parts[0], "", sep);
      assert parts[0] + "" == parts[0];
    } else {
      var rest := [sep] + Join(parts[1..], sep);
      IndexOfPast(parts[0], rest, sep);
      assert Join(parts, sep) == parts[0] + rest;
    }
  }

  /** Splitting undoes joining for parts without separators. */
  lemma {:induction false} SplitOfJoin(parts: seq<string>, sep: char)
    requires parts != [] && forall p | p in parts :: sep !in p
    ensures Split(Join(parts, sep), sep) == parts
  {
    JoinIndex(parts, sep);
    if |parts| > 1 {
      var s := Join(parts, sep);
      assert s[..|parts[0]|] == parts[0] && s[|parts[0]| + 1..] == Join(parts[1..], sep);
      SplitOfJoin(parts[1..], sep);
    }
  }

  // ---- trimming ----

  predicate Tight(s: string) {
    s == "" || (!IsSpace(s[0]) && !IsSpace(s[|s| - 1]))
  }

  lemma {:induction false} TrimLeftKeeps(s: string)
    ensures TrimLeft(s) == "" || !IsSpace(TrimLeft(s)[0])
    ensures s == "" || !IsSpace(s[0]) ==> TrimLeft(s) == s
    ensures forall c | c in TrimLeft(s) :: c in s
  {
    if s != "" && IsSpace(s[0]) { TrimLeftKeeps(s[1..]); }
  }

  lemma {:induction false} TrimRightKeeps(s: string)
    ensures TrimRight(s) == "" || (TrimRight(s)[0] == s[0] && !IsSpace(TrimRight(s)[|TrimRight(s)| - 1]))
    ensures s == "" || !IsSpace(s[|s| - 1]) ==> TrimRight(s) == s
    ensures TrimRight(s) <= s
  {
    if s != "" && IsSpace(s[|s| - 1]) { TrimRightKeeps(s[..|s| - 1]); }
  }

  lemma TrimIsTight(s: string)
    ensures Tight(TrimSpace(s)) && forall c | c in TrimSpace(s) :: c in s
    ensures Tight(s) ==> TrimSpace(s) == s
  {
    TrimLeftKeeps(s);
    TrimRightKeeps(TrimLeft(s));
  }

  // ---- the addresses of a list ----

  function Dots(s: string): nat {
    if s == "" then 0 else Dots(s[1..]) + if s[0] == '.' then 1 else 0
  }

  predicate IsAddress(s: string) {
    && s != "" && s != "0.0.0.0" && s != "0.0.0.0.0.0" && s != "::"
    && (Dots(s) >= 3 || ':' in s)
  }

  /** The first full stop of a text, when it has one. */
  lemma {:induction false} FirstDot(s: string) returns (k: nat)
    requires Dots(s) > 0
    ensures k < |s| && s[k] == '.' && Dots(s[k + 1..]) == Dots(s) - 1
  {
    if s[0] == '.' {
      k := 0;
    } else {
      k := FirstDot(s[1..]);
      assert s[1..][k + 1..] == s[k + 2..];
      k := k + 1;
    }
  }

  lemma {:induction false} DotsPast(s: string, k: nat)
    requires k < |s| && s[k] == '.'
    ensures Dots(s) >= 1 + Dots(s[k + 1..])
  {
    if k > 0 {
      DotsPast(s[1..], k - 1);
      assert s[1..][k..] == s[k + 1..];
    }
  }

  predicate ThreeDots(s: string) {
    exists i, j, k :: 0 <= i < j < k < |s| && s[i] == '.' && s[j] == '.' && s[k] == '.'
  }

  /** A text counts as an address if and only if it is none of the four empty ones and has three full stops
      or a colon. */
  lemma AddressIff(s: string)
    ensures IsAddress(s) <==>
      s !in ["", "0.0.0.0", "0.0.0.0.0.0", "::"] && (':' in s || ThreeDots(s))
  {
    if Dots(s) >= 3 {
      var i := FirstDot(s);
      var j := FirstDot(s[i + 1..]);
      assert s[i + 1..][j + 1..] == s[i + j + 2..];
      var k := FirstDot(s[i + j + 2..]);
      assert s[i] == '.' && s[i + 1 + j] == '.' && s[i + j + 2 + k] == '.';
    }
    if ThreeDots(s) {
      var i, j, k :| 0 <= i < j < k < |s| && s[i] == '.' && s[j] == '.' && s[k] == '.';
      DotsPast(s, i);
      DotsPast(s[i + 1..], j - i - 1);
      assert s[i + 1..][j - i..] == s[j + 1..];
      DotsPast(s[j + 1..], k - j - 1);
    }
  }

  /** The entries of a list that count as addresses, without the spaces around them. */
  function Addresses(parts: seq<string>): seq<string> {
    if parts == [] then [] else
      var p := TrimSpace(parts[|parts| - 1]);
      Addresses(parts[..|parts| - 1]) + if IsAddress(p) then [p] else []
  }

  function Servers(raw: string): seq<string> {
    Addresses(Split(raw, ','))
  }

  function Clean(raw: string): string {
    Join(Servers(raw), ',')
  }

  predicate CleanParts(parts: seq<string>) {
    forall p | p in parts :: IsAddress(p) && Tight(p) && ',' !in p
  }

  lemma {:induction false} AddressesAreClean(parts: seq<string>)
    requires forall p | p in parts :: ',' !in p
    ensures CleanParts(Addresses(parts))
  {
    if parts != [] {
      var last := parts[|parts| - 1];
      assert last in parts && forall p | p in parts[..|parts| - 1] :: p in parts;
      AddressesAreClean(parts[..|parts| - 1]);
      TrimIsTight(last);
    }
  }

  lemma {:induction false} CleanPartsStay(parts: seq<string>)
    requires CleanParts(parts)
    ensures Addresses(parts) == parts
  {
    if parts != [] {
      var last := parts[|parts| - 1];
      assert last in parts && forall p | p in parts[..|parts| - 1] :: p in parts;
      CleanPartsStay(parts[..|parts| - 1]);
      TrimIsTight(last);
      assert parts == parts[..|parts| - 1] + [last];
    }
  }

  /** A cleaned list reads back as the addresses it was made of, so cleaning twice changes nothing. */
  lemma CleanIsIdempotent(raw: string)
    ensures Servers(Clean(raw)) == Servers(raw) && Clean(Clean(raw)) == Clean(raw)
  {
    AddressesAreClean(Split(raw, ','));
    if Servers(raw) == [] {
      assert Split("", ',') == [""];
      TrimIsTight("");
      assert Addresses([""]) == [];
    } else {
      SplitOfJoin(Servers(raw), ',');
      CleanPartsStay(Servers(raw));
    }
  }

  /** Splitting loses nothing. */
  lemma {:induction false} JoinOfSplit(s: string, sep: char)
    ensures Join(Split(s, sep), sep) == s
    decreases |s|
  {
    var k := IndexOf(s, sep);
    if k < |s| {
      JoinOfSplit(s[k + 1..], sep);
      assert s == s[..k] + [sep] + s[k + 1..];
      assert Split(s, sep)[1..] == Split(s[k + 1..], sep);
    }
  }

  lemma {:induction false} InAddressesIff(parts: seq<string>, a: string)
    ensures a in Addresses(parts) <==> IsAddress(a) && exists p :: p in parts && TrimSpace(p) == a
  {
    if parts != [] {
      var rest := parts[..|parts| - 1];
      InAddressesIff(rest, a);
      assert parts == rest + [parts[|parts| - 1]];
    }
  }

  /** A text is listed as a server if and only if it is what an entry between commas says without the spaces
      around it, is none of the four empty texts, and has three full stops or a colon. */
  lemma ServerIff(raw: string, a: string)
    ensures Join(Split(raw, ','), ',') == raw
    ensures a in Servers(raw) <==>
      && (exists p :: p in Split(raw, ',') && TrimSpace(p) == a)
      && a !in ["", "0.0.0.0", "0.0.0.0.0.0", "::"] && (':' in a || ThreeDots(a))
  {
    JoinOfSplit(raw, ',');
    InAddressesIff(Split(raw, ','), a);
    AddressIff(a);
  }

  // ---- the two fields shown ----

  /** What SplitN(clean, ",", 2) and the trimming leave. */
  function Pair(raw: string): (string, string) {
    var clean := Clean(raw);
    var k := IndexOf(clean, ',');
    if clean == "" then ("", "")
    else if k == |clean| then (TrimSpace(clean), "")
    else (TrimSpace(clean[..k]), TrimSpace(clean[k + 1..]))
  }

  lemma {:induction false} JoinIsTight(parts: seq<string>)
    requires CleanParts(parts)
    ensures Tight(Join(parts, ',')) && (Join(parts, ',') == "" <==> parts == [])
  {
    if parts != [] {
      assert parts[0] in parts && forall p | p in parts[1..] :: p in parts;
      JoinIsTight(parts[1..]);
    }
  }

  /** The first field is the first address. The second one holds all the others, joined again, so it is
      a single address exactly when the list has two. */
  lemma PairIsFirstAndRest(raw: string)
    ensures var s := Servers(raw);
      Pair(raw) == if s == [] then ("", "") else (s[0], Join(s[1..], ','))
  {
    var s := Servers(raw);
    AddressesAreClean(Split(raw, ','));
    JoinIsTight(s);
    if s != [] {
      assert s[0] in s && forall p | p in s[1..] :: p in s;
      JoinIndex(s, ',');
      JoinIsTight(s[1..]);
      TrimIsTight(s[0]);
      TrimIsTight(Join(s[1..], ','));
      if |s| > 1 {
        assert Clean(raw)[..|s[0]|] == s[0] && Clean(raw)[|s[0]| + 1..] == Join(s[1..], ',');
      }
    }
  }

  lemma SecondIsAnAddressIff(raw: string)
    ensures IsAddress(Pair(raw).1) && ',' !in Pair(raw).1 <==> |Servers(raw)| == 2
  {
    var s := Servers(raw);
    PairIsFirstAndRest(raw);
    AddressesAreClean(Split(raw, ','));
    if |s| == 2 {
      assert s[1] in s && s[1..] == [s[1]];
    } else if |s| > 2 {
      var rest := s[1..];
      assert Join(rest, ',') == rest[0] + [','] + Join(rest[1..], ',');
      assert Join(rest, ',')[|rest[0]|] == ',';
    }
  }

  // ---- the code ----

  method CleanDnsServers(raw: string) returns (clean: string)
    ensures clean == Clean(raw)
  {
    var parts, valid := Split(raw, ','), [];
    for i := 0 to |parts|
      invariant valid == Addresses(parts[..i])
    {
      var part := TrimSpace(parts[i]);
      assert parts[..i + 1][..i] == parts[..i];
      if part == "" || part == "0.0.0.0" || part == "0.0.0.0.0.0" || part == "::" {
        continue;
      }
      if Dots(part) >= 3 || ':' in part {
        valid := valid + [part];
      }
    }
    assert parts[..|parts|] == parts;
    clean := Join(valid, ',');
  }

  method FirstAndSecond(raw: string) returns (dns1: string, dns2: string)
    ensures (dns1, dns2) == Pair(raw)
  {
    dns1, dns2 := "", "";
    var clean := CleanDnsServers(raw);
    if clean != "" {
      var k := IndexOf(clean, ',');
      dns1 := TrimSpace(clean[..k]);
      if k < |clean| {
        dns2 := TrimSpace(clean[k + 1..]);
      }
    }
    assert clean[..|clean|] == clean;
  }
}
