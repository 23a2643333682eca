/** Vendor slugs: the longest known prefix of the manufacturer's name, or else its first word. */
module VendorResolver {
  import opened GoStrings

  /** normaliseVendor either returns a slug or panics on an empty field list. */
  datatype Outcome = Slug(slug: string) | Panics

  predicate IsSeparator(c: char) {
    c == ' ' || c == ',' || c == '.' || c == '/' || c == '\\'
  }

  predicate OnlySeparators(s: string) {
    forall c | c in s :: IsSeparator(c)
  }

  /** The characters before the first separator. */
  function Word(s: string): (w: string)
    ensures w <= s && forall c | c in w :: !IsSeparator(c)
    ensures |w| < |s| ==> IsSeparator(s[|w|])
  {
    if s == "" || IsSeparator(s[0]) then "" else [s[0]] + Word(s[1..])
  }

  /** The first element of FieldsFunc, which does not exist when every character separates. */
  function FirstField(s: string): Outcome {
    if s == "" then Panics
    else if IsSeparator(s[0]) then FirstField(s[1..])
    else Slug(Word(s))
  }

  /** w is the word at position k, and only separators come before it. */
  predicate WordAt(s: string, k: nat, w: string)
    requires k < |s|
  {
    !IsSeparator(s[k]) && OnlySeparators(s[..k]) && w == Word(s[k..])
  }

  lemma WordAtShift(s: string, k: nat, w: string)
    requires k + 1 < |s| && IsSeparator(s[0]) && WordAt(s[1..], k, w)
    ensures WordAt(s, k + 1, w)
  {
    assert s[..k + 1] == [s[0]] + s[1..][..k];
    assert s[1..][k..] == s[k + 1..];
  }

  /** The first field is a whole word with only separators before it. */
  lemma {:induction false} FirstFieldIsAWord(s: string) returns (k: nat)
    ensures FirstField(s).Panics? <==> OnlySeparators(s)
    ensures FirstField(s).Slug? ==> k < |s| && WordAt(s, k, FirstField(s).slug)
  {
    k := 0;
    if s != "" && IsSeparator(s[0]) {
      var tail := FirstFieldIsAWord(s[1..]);
      assert s == [s[0]] + s[1..];
      if FirstField(s).Slug? {
        WordAtShift(s, tail, FirstField(s).slug);
        k := tail + 1;
      }
    } else if s != "" {
      assert s[0] in s && s[0..] == s;
    }
  }

  // ---- the longest known prefix ----

  type Vendors = map<string, string>

  ghost predicate Longest(p: string, s: string, known: Vendors) {
    p in known && HasPrefix(s, p) && forall q | q in known && HasPrefix(s, q) :: |q| <= |p|
  }

  ghost predicate Known(s: string, known: Vendors) {
    exists p | p in known :: HasPrefix(s, p)
  }

  /** Two prefixes of one string with the same length are equal, so map order cannot matter. */
  lemma LongestIsUnique(p: string, q: string, s: string, known: Vendors)
    requires Longest(p, s, known) && Longest(q, s, known)
    ensures p == q
  {
    assert |p| == |q| && p == s[..|p|] && q == s[..|q|];
  }

  /** What the resolver must answer, without reference to any order of the vendors. */
  ghost predicate Answers(r: Outcome, manufacturer: string, known: Vendors) {
    var s := ToLower(TrimSpace(manufacturer));
    if s == "" then r == Slug("")
    else if Known(s, known) then exists p | Longest(p, s, known) :: r == Slug(known[p])
    else r == FirstField(s)
  }

  /** The answer depends only on the name and the table. */
  lemma AnswerIsUnique(a: Outcome, b: Outcome, manufacturer: string, known: Vendors)
    requires Answers(a, manufacturer, known) && Answers(b, manufacturer, known)
    ensures a == b
  {
    var s := ToLower(TrimSpace(manufacturer));
    if s != "" && Known(s, known) {
      var p :| Longest(p, s, known) && a == Slug(known[p]);
      var q :| Longest(q, s, known) && b == Slug(known[q]);
      LongestIsUnique(p, q, s, known);
    }
  }

  /** Exactly when normaliseVendor panics: a non-blank name of separators only that starts with no known prefix. */
  lemma PanicsIff(r: Outcome, manufacturer: string, known: Vendors)
    requires Answers(r, manufacturer, known)
    ensures r.Panics? <==>
      var s := ToLower(TrimSpace(manufacturer));
      s != "" && OnlySeparators(s) && !Known(s, known)
  {
    var k := FirstFieldIsAWord(ToLower(TrimSpace(manufacturer)));
  }

  // ---- the code ----

  predicate LengthDescending(xs: seq<string>) {
    forall i, j | 0 <= i < j < |xs| :: |xs[j]| <= |xs[i]|
  }

  method Swap(a: array<string>, i: nat, j: nat)
    requires i < j < a.Length
    modifies a
    ensures a[..] == old(a[..][i := a[j]][j := a[i]])
    ensures multiset(a[..]) == multiset(old(a[..]))
  {
    a[i], a[j] := a[j], a[i];
  }

  /** No element of xs[lo..hi] is longer than s. */
  predicate NoneLonger(xs: seq<string>, lo: nat, hi: nat, s: string) {
    forall q | lo <= q < hi && q < |xs| :: |xs[q]| <= |s|
  }

  /** The first i elements are in place. */
  predicate Settled(xs: seq<string>, i: nat) {
    forall p | 0 <= p < i && p < |xs| :: NoneLonger(xs, p + 1, |xs|, xs[p])
  }

  lemma SwapKeepsSettled(xs: seq<string>, i: nat, j: nat)
    requires i < j < |xs| && Settled(xs, i)
    ensures Settled(xs[i := xs[j]][j := xs[i]], i)
  {
    var ys := xs[i := xs[j]][j := xs[i]];
    forall p | 0 <= p < i ensures NoneLonger(ys, p + 1, |ys|, ys[p]) {
      assert NoneLonger(xs, p + 1, |xs|, xs[p]);
    }
  }

  /** The inner loop: bring the longest remaining element to position i. */
  method Select(a: array<string>, i: nat)
    requires i < a.Length && Settled(a[..], i)
    modifies a
    ensures Settled(a[..], i + 1)
    ensures multiset(a[..]) == multiset(old(a[..]))
  {
    for j := i + 1 to a.Length
      invariant multiset(a[..]) == multiset(old(a[..]))
      invariant Settled(a[..], i) && NoneLonger(a[..], i + 1, j, a[i])
    {
      if |a[i]| < |a[j]| {
        SwapKeepsSettled(a[..], i, j);
        Swap(a, i, j);
      }
    }
  }

  /** The hand-written exchange sort. */
  method SortByLength(a: array<string>)
    modifies a
    ensures multiset(a[..]) == multiset(old(a[..]))
    ensures LengthDescending(a[..])
  {
    for i := 0 to a.Length
      invariant multiset(a[..]) == multiset(old(a[..]))
      invariant Settled(a[..], i)
    {
      Select(a, i);
    }
    SettledIsDescending(a[..]);
  }

  lemma SettledIsDescending(xs: seq<string>)
    requires Settled(xs, |xs|)
    ensures LengthDescending(xs)
  {
    forall i, j | 0 <= i < j < |xs| ensures |xs[j]| <= |xs[i]| {
      assert NoneLonger(xs, i + 1, |xs|, xs[i]);
    }
  }

  method CollectPrefixes(known: Vendors) returns (prefixes: seq<string>)
    ensures forall p :: p in prefixes <==> p in known
  {
    var todo := known;
    prefixes := [];
    while todo != map[]
      invariant forall p | p in todo :: p in known
      invariant forall p :: p in prefixes <==> p in known && p !in todo
      decreases |todo|
    {
      var p :| p in todo;
      prefixes := prefixes + [p];
      todo := todo - {p};
    }
  }

  /** The vendor table with its keys sorted by length. */
  method SortedPrefixes(known: Vendors) returns (prefixes: seq<string>)
    ensures LengthDescending(prefixes)
    ensures forall p :: p in prefixes <==> p in known
  {
    var collected := CollectPrefixes(known);
    var a := new string[|collected|](i requires 0 <= i < |collected| => collected[i]);
    assert a[..] == collected;
    SortByLength(a);
    prefixes := a[..];
    assert forall p :: p in prefixes <==> p in multiset(prefixes);
  }

  method NormaliseVendor(manufacturer: string, known: Vendors) returns (r: Outcome)
    ensures Answers(r, manufacturer, known)
  {
    var s := ToLower(TrimSpace(manufacturer));
    if s == "" {
      return Slug("");
    }
    var prefixes := SortedPrefixes(known);
    for i := 0 to |prefixes|
      invariant forall k | 0 <= k < i :: !HasPrefix(s, prefixes[k])
    {
      assert prefixes[i] in prefixes;
      if HasPrefix(s, prefixes[i]) {
        FirstMatchIsLongest(prefixes, i, s, known);
        return Slug(known[prefixes[i]]);
      }
    }
    return FirstField(s);
  }

  lemma FirstMatchIsLongest(prefixes: seq<string>, i: nat, s: string, known: Vendors)
    requires LengthDescending(prefixes) && forall p :: p in prefixes <==> p in known
    requires i < |prefixes| && HasPrefix(s, prefixes[i])
    requires forall k | 0 <= k < i :: !HasPrefix(s, prefixes[k])
    ensures Longest(prefixes[i], s, known)
  {
    forall q | q in known && HasPrefix(s, q) ensures |q| <= |prefixes[i]| {
      var k :| 0 <= k < |prefixes| && prefixes[k] == q;
    }
  }

  /** Resolve: the vendor's own schema when registered, else the generic one for the data model. */
  method Resolve(manufacturer: string, dataModel: string, known: Vendors, registered: set<string>)
    returns (name: Option<string>)
    ensures name.None? <==> Answers(Panics, manufacturer, known)
    ensures name.Some? ==> exists slug | Answers(Slug(slug), manufacturer, known) ::
      var candidate := "vendor/" + slug + "/" + dataModel;
      name.value == if slug != "" && candidate in registered then candidate else if dataModel == "" then "tr098"
        else dataModel
  {
    var vendor := NormaliseVendor(manufacturer, known);
    if vendor.Panics? {
      return None;
    }
    assert forall r | Answers(r, manufacturer, known) :: r == vendor by {
      forall r | Answers(r, manufacturer, known) ensures r == vendor {
        AnswerIsUnique(r, vendor, manufacturer, known);
      }
    }
    if vendor.slug != "" {
      var candidate := "vendor/" + vendor.slug + "/" + dataModel;
      if candidate in registered {
        return Some(candidate);
      }
    }
    name := Some(if dataModel == "" then "tr098" else dataModel);
    assert Answers(Slug(vendor.slug), manufacturer, known);
  }

  // ---- the table that ships ----

  const KNOWN_VENDORS: Vendors := map[
    "huawei" := "huawei", "zte" := "zte", "tp-link" := "tplink", "tp link" := "tplink", "tplink" := "tplink",
    "fiberhome" := "fiberhome", "intelbras" := "intelbras", "datacom" := "datacom", "nokia" := "nokia",
    "ericsson" := "ericsson", "sagemcom" := "sagemcom", "technicolor" := "technicolor", "arcadyan" := "arcadyan",
    "sercomm" := "sercomm", "askey" := "askey", "zteg" := "cdata", "c-data" := "cdata", "cdata" := "cdata",
    "cdtc" := "cdata", "mtn" := "ruijie", "ruijie" := "ruijie"]

  /** Every slug is known as a name too, and stands for itself. */
  lemma SlugsAreNames(p: string)
    requires p in KNOWN_VENDORS
    ensures KNOWN_VENDORS[p] in KNOWN_VENDORS && KNOWN_VENDORS[KNOWN_VENDORS[p]] == KNOWN_VENDORS[p]
  {
  }

  /** The fifteen vendors, and the other names that three of them go by. */
  lemma ShippedVendors(p: string)
    ensures p in {"huawei", "zte", "tplink", "fiberhome", "intelbras", "datacom", "nokia", "ericsson", "sagemcom",
                  "technicolor", "arcadyan", "sercomm", "askey", "cdata", "ruijie"} ==>
      p in KNOWN_VENDORS && KNOWN_VENDORS[p] == p
    ensures p in {"tp-link", "tp link"} ==> p in KNOWN_VENDORS && KNOWN_VENDORS[p] == "tplink"
    ensures p in {"zteg", "c-data", "cdtc"} ==> p in KNOWN_VENDORS && KNOWN_VENDORS[p] == "cdata"
    ensures p == "mtn" ==> p in KNOWN_VENDORS && KNOWN_VENDORS[p] == "ruijie"
  {
  }

  lemma NoOtherVendors(p: string)
    requires p in KNOWN_VENDORS
    ensures KNOWN_VENDORS[p] == p || p in {"tp-link", "tp link", "zteg", "c-data", "cdtc", "mtn"}
  {
  }

  lemma ShippedPrefixesStartWithALetter(p: string)
    requires p in KNOWN_VENDORS
    ensures p != "" && !IsSeparator(p[0])
  {
  }

  /** With the shipped table the panic needs no more than a non-blank name of separators only. */
  lemma ShippedTablePanicsIff(r: Outcome, manufacturer: string)
    requires Answers(r, manufacturer, KNOWN_VENDORS)
    ensures r.Panics? <==>
      var s := ToLower(TrimSpace(manufacturer));
      s != "" && OnlySeparators(s)
  {
    var s := ToLower(TrimSpace(manufacturer));
    PanicsIff(r, manufacturer, KNOWN_VENDORS);
    if Known(s, KNOWN_VENDORS) {
      var p :| p in KNOWN_VENDORS && HasPrefix(s, p);
      ShippedPrefixesStartWithALetter(p);
      assert p[0] == s[0] && s[0] in s;
    }
  }
}
