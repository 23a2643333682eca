/** Global default parameters: expanding virtual entries for a device and pushing what differs. */
module GlobalDefaults {
  import opened GoStrings
  import opened Ordering

  /** A stored default. spec is what its text decodes to as JSON, when it does. */
  datatype Default = Default(text: string, spec: Option<Spec>)

  datatype Spec = Spec(value: string, candidates: seq<string>)

  type Defaults = map<string, Default>

  type Params = map<string, string>

  const IGD := "InternetGatewayDevice."

  const DEVICE := "Device."

  /** The data-model root of the device, from the parameters it reports. */
  predicate IsIgd(current: Params) {
    exists k | k in current :: HasPrefix(k, IGD)
  }

  // ---- expansion ----

  predicate IsVirtual(key: string) {
    HasPrefix(key, "_vp.")
  }

  predicate Selected(path: string, existing: set<string>, igd: bool) {
    (igd && HasPrefix(path, IGD)) || (!igd && HasPrefix(path, DEVICE)) || path in existing
  }

  function Picks(candidates: seq<string>, value: string, existing: set<string>, igd: bool): Params {
    map p | p in candidates && Selected(p, existing, igd) :: value
  }

  /** The paths one entry writes. */
  function Contribution(raw: Defaults, key: string, existing: set<string>, igd: bool): Params
    requires key in raw
  {
    if !IsVirtual(key) then map[key := raw[key].text]
    else match raw[key].spec
      case None => map[]
      case Some(s) => if s.value == "" then map[] else Picks(s.candidates, s.value, existing, igd)
  }

  /** expandVirtualParams for one visiting order: later entries overwrite earlier ones. */
  function Expand(order: seq<string>, raw: Defaults, existing: set<string>, igd: bool): Params
    requires forall k | k in order :: k in raw
  {
    if order == [] then map[] else
      var n := |order| - 1;
      assert order[n] in order;
      Expand(order[..n], raw, existing, igd) + Contribution(raw, order[n], existing, igd)
  }

  predicate Writes(raw: Defaults, key: string, existing: set<string>, igd: bool, path: string) {
    key in raw && path in Contribution(raw, key, existing, igd)
  }

  /** A path is expanded when some entry writes it, with the value of such an entry. */
  lemma {:induction false} ExpandedByWriter(order: seq<string>, raw: Defaults, existing: set<string>, igd: bool,
                                            path: string)
    returns (key: string)
    requires forall k | k in order :: k in raw
    ensures path in Expand(order, raw, existing, igd) <==> exists k | k in order :: Writes(raw, k, existing, igd, path)
    ensures path in Expand(order, raw, existing, igd) ==>
      key in order && Writes(raw, key, existing, igd, path)
      && Expand(order, raw, existing, igd)[path] == Contribution(raw, key, existing, igd)[path]
  {
    key := "";
    if order != [] {
      var n := |order| - 1;
      assert order == order[..n] + [order[n]] && order[n] in order;
      if Writes(raw, order[n], existing, igd, path) {
        key := order[n];
      } else {
        key := ExpandedByWriter(order[..n], raw, existing, igd, path);
      }
    }
  }

  /** Some visiting order lets a given writer win. */
  lemma OrderFor(raw: Defaults, key: string) returns (order: seq<string>)
    requires key in raw
    ensures Visits(order, raw.Keys)
    ensures forall existing, igd, path | Writes(raw, key, existing, igd, path) ::
      path in Expand(order, raw, existing, igd) && Expand(order, raw, existing, igd)[path] == Contribution(raw, key,
        existing, igd)[path]
  {
    var init := SomeOrder(raw.Keys - {key});
    order := init + [key];
    assert order[..|init|] == init;
  }

  ghost predicate WritersAgree(raw: Defaults, existing: set<string>, igd: bool) {
    forall p, k, q | Writes(raw, k, existing, igd, p) && Writes(raw, q, existing, igd, p) ::
      Contribution(raw, k, existing, igd)[p] == Contribution(raw, q, existing, igd)[p]
  }

  lemma AgreementFixesExpansion(o: seq<string>, q: seq<string>, raw: Defaults, existing: set<string>, igd: bool)
    requires WritersAgree(raw, existing, igd) && Visits(o, raw.Keys) && Visits(q, raw.Keys)
    ensures Expand(o, raw, existing, igd) == Expand(q, raw, existing, igd)
  {
    forall p ensures p in Expand(o, raw, existing, igd) <==> p in Expand(q, raw, existing, igd) {
      var k := ExpandedByWriter(o, raw, existing, igd, p);
      var l := ExpandedByWriter(q, raw, existing, igd, p);
    }
    forall p | p in Expand(o, raw, existing, igd) ensures Expand(o, raw, existing, igd)[p] == Expand(q, raw, existing,
      igd)[p] {
      var k := ExpandedByWriter(o, raw, existing, igd, p);
      var l := ExpandedByWriter(q, raw, existing, igd, p);
    }
  }

  /** The expansion is a function of the map exactly when all writers of a path agree. */
  lemma ExpansionIgnoresOrderIff(raw: Defaults, existing: set<string>, igd: bool)
    ensures (forall o, q | Visits(o, raw.Keys) && Visits(q, raw.Keys) ::
               Expand(o, raw, existing, igd) == Expand(q, raw, existing, igd))
            <==> WritersAgree(raw, existing, igd)
  {
    if WritersAgree(raw, existing, igd) {
      forall o, q | Visits(o, raw.Keys) && Visits(q, raw.Keys)
        ensures Expand(o, raw, existing, igd) == Expand(q, raw, existing, igd) {
        AgreementFixesExpansion(o, q, raw, existing, igd);
      }
    } else {
      var p, k, q :| Writes(raw, k, existing, igd, p) && Writes(raw, q, existing, igd, p)
        && Contribution(raw, k, existing, igd)[p] != Contribution(raw, q, existing, igd)[p];
      var o := OrderFor(raw, k);
      var r := OrderFor(raw, q);
      assert Expand(o, raw, existing, igd)[p] != Expand(r, raw, existing, igd)[p];
    }
  }

  // ---- the difference to push ----

  /** Internal keys and the other data model's paths are never pushed. */
  predicate Pushable(path: string, igd: bool) {
    !HasPrefix(path, "_") && !(igd && HasPrefix(path, DEVICE)) && !(!igd && HasPrefix(path, IGD))
  }

  function Get(m: Params, path: string): string {
    if path in m then m[path] else ""
  }

  predicate Differs(current: Params, path: string, want: string) {
    TrimSpace(Get(current, path)) != TrimSpace(want)
  }

  function Diff(expanded: Params, current: Params, igd: bool): Params {
    map p | p in expanded && Pushable(p, igd) && Differs(current, p, expanded[p]) :: expanded[p]
  }

  /** What one pass over the defaults pushes. */
  function Push(order: seq<string>, raw: Defaults, current: Params): Params
    requires forall k | k in order :: k in raw
  {
    Diff(Expand(order, raw, current.Keys, IsIgd(current)), current, IsIgd(current))
  }

  /** The device applied the pushed parameters exactly. */
  function Applied(order: seq<string>, raw: Defaults, current: Params): Params
    requires forall k | k in order :: k in raw
  {
    current + Push(order, raw, current)
  }

  /** Applying a push leaves the data-model verdict alone. */
  lemma RootIsKept(order: seq<string>, raw: Defaults, current: Params)
    requires forall k | k in order :: k in raw
    ensures IsIgd(Applied(order, raw, current)) == IsIgd(current)
  {
    var after := Applied(order, raw, current);
    if IsIgd(current) {
      var k :| k in current && HasPrefix(k, IGD);
      assert k in after;
    } else {
      assert forall k | k in Push(order, raw, current) :: Pushable(k, false);
    }
  }

  // ---- in the words of the two data models ----

  /** A device of the old data model reports some path below InternetGatewayDevice. */
  lemma OldModelIff(current: Params)
    ensures IsIgd(current) <==> exists k | k in current :: HasPrefix(k, "InternetGatewayDevice.")
  {
  }

  /** What one entry writes. An entry whose key begins with _vp. stands for a list of paths: it gives its value, if it
      has one, to those of the device's data model and to those the device reports. Any other entry is a path itself. */
  lemma WrittenByEntry(raw: Defaults, key: string, current: Params, path: string, value: string)
    requires key in raw
    ensures var c := Contribution(raw, key, current.Keys, IsIgd(current));
      var root := if exists k | k in current :: HasPrefix(k, "InternetGatewayDevice.") then "InternetGatewayDevice."
        else "Device.";
      (path in c && c[path] == value) <==>
        if HasPrefix(key, "_vp.") then
          && raw[key].spec.Some? && value != "" && value == raw[key].spec.value.value
          && path in raw[key].spec.value.candidates && (HasPrefix(path, root) || path in current)
        else path == key && value == raw[key].text
  {
    OldModelIff(current);
  }

  /** A path is pushed exactly when the expansion has it, the device does not, and it is neither internal nor of the
      other data model. */
  lemma PushedIff(order: seq<string>, raw: Defaults, current: Params, path: string)
    requires forall k | k in order :: k in raw
    ensures var expanded := Expand(order, raw, current.Keys, IsIgd(current));
      var other := if exists k | k in current :: HasPrefix(k, "InternetGatewayDevice.") then "Device."
        else "InternetGatewayDevice.";
      && (path in Push(order, raw, current) <==>
            && path in expanded && !HasPrefix(path, "_") && !HasPrefix(path, other)
            && TrimSpace(expanded[path]) != TrimSpace(if path in current then current[path] else ""))
      && (path in Push(order, raw, current) ==> Push(order, raw, current)[path] == expanded[path])
  {
    OldModelIff(current);
  }

  // ---- one pass reaches a fixed point ----

  /** Paths the device will report once its plain defaults are in place. */
  function Eventually(raw: Defaults, current: Params): set<string> {
    current.Keys + set k | k in raw && !IsVirtual(k) && TrimSpace(raw[k].text) != ""
  }

  /** Any two entries that write one pushable path carry the same value up to surrounding blanks. */
  ghost predicate Harmonious(raw: Defaults, current: Params) {
    var igd, seen := IsIgd(current), Eventually(raw, current);
    forall p, k, q | Pushable(p, igd) && Writes(raw, k, seen, igd, p) && Writes(raw, q, seen, igd, p) ::
      TrimSpace(Contribution(raw, k, seen, igd)[p]) == TrimSpace(Contribution(raw, q, seen, igd)[p])
  }

  /** Whatever the visiting orders, a second pass over an updated device pushes nothing. */
  ghost predicate Settles(raw: Defaults, current: Params) {
    forall o, q | Visits(o, raw.Keys) && Visits(q, raw.Keys) :: Push(q, raw, Applied(o, raw, current)) == map[]
  }

  /** An entry writes a path with the same value wherever the path is selected. */
  lemma WritesWhereSelected(raw: Defaults, key: string, a: set<string>, b: set<string>, igd: bool, path: string)
    requires Writes(raw, key, a, igd, path) && (Selected(path, a, igd) ==> Selected(path, b, igd))
    ensures Writes(raw, key, b, igd, path)
    ensures Contribution(raw, key, a, igd)[path] == Contribution(raw, key, b, igd)[path]
  {
  }

  /** A path the updated device reports was there before, or will be because of a plain default, or is selected by its
      root. */
  lemma AppliedPaths(order: seq<string>, raw: Defaults, current: Params, path: string)
    requires Visits(order, raw.Keys) && path in Applied(order, raw, current)
    ensures Selected(path, Eventually(raw, current), IsIgd(current))
  {
    if path !in current {
      var k := ExpandedByWriter(order, raw, current.Keys, IsIgd(current), path);
      assert TrimSpace("") == "";
    }
  }

  /** After a pass every pushable expanded path holds its value up to blanks. */
  lemma AppliedValue(order: seq<string>, raw: Defaults, current: Params, path: string)
    requires Visits(order, raw.Keys) && Pushable(path, IsIgd(current))
    requires path in Expand(order, raw, current.Keys, IsIgd(current))
    ensures TrimSpace(Get(Applied(order, raw, current), path)) ==
      TrimSpace(Expand(order, raw, current.Keys, IsIgd(current))[path])
  {
    if Differs(current, path, Expand(order, raw, current.Keys, IsIgd(current))[path]) {
      assert path in Push(order, raw, current);
    }
  }

  lemma HarmonySettlesPath(o: seq<string>, q: seq<string>, raw: Defaults, current: Params, path: string)
    requires Visits(o, raw.Keys) && Visits(q, raw.Keys) && Harmonious(raw, current)
    ensures path !in Push(q, raw, Applied(o, raw, current))
  {
    var igd, after, seen := IsIgd(current), Applied(o, raw, current), Eventually(raw, current);
    RootIsKept(o, raw, current);
    var second := Expand(q, raw, after.Keys, igd);
    if path in second && Pushable(path, igd) {
      var k := ExpandedByWriter(q, raw, after.Keys, igd, path);
      if path in after { AppliedPaths(o, raw, current, path); }
      WritesWhereSelected(raw, k, after.Keys, seen, igd, path);
      if Selected(path, current.Keys, igd) || path !in after {
        WritesWhereSelected(raw, k, after.Keys, current.Keys, igd, path);
      }
      var l := ExpandedByWriter(o, raw, current.Keys, igd, path);
      WritesWhereSelected(raw, l, current.Keys, seen, igd, path);
      AppliedValue(o, raw, current, path);
    }
  }

  /** Two discordant entries on a selected path undo each other. */
  lemma SelectedDiscordShows(raw: Defaults, current: Params, path: string, k: string, q: string)
    requires var igd, seen := IsIgd(current), Eventually(raw, current);
      && Selected(path, current.Keys, igd)
      && Pushable(path, igd) && Writes(raw, k, seen, igd, path) && Writes(raw, q, seen, igd, path)
      && TrimSpace(Contribution(raw, k, seen, igd)[path]) != TrimSpace(Contribution(raw, q, seen, igd)[path])
    ensures !Settles(raw, current)
  {
    var igd, seen := IsIgd(current), Eventually(raw, current);
    var o := OrderFor(raw, k);
    var r := OrderFor(raw, q);
    var after := Applied(o, raw, current);
    RootIsKept(o, raw, current);
    WritesWhereSelected(raw, k, seen, current.Keys, igd, path);
    AppliedValue(o, raw, current, path);
    WritesWhereSelected(raw, q, seen, after.Keys, igd, path);
    assert path in Push(r, raw, after);
  }

  /** A plain default brings its path into being, and a virtual one then overrules it. */
  lemma PlainDiscordShows(raw: Defaults, current: Params, path: string, q: string)
    requires var igd, seen := IsIgd(current), Eventually(raw, current);
      && !Selected(path, current.Keys, igd) && path in raw && !IsVirtual(path) && TrimSpace(raw[path].text) != ""
      && Pushable(path, igd) && Writes(raw, q, seen, igd, path)
      && TrimSpace(Contribution(raw, q, seen, igd)[path]) != TrimSpace(raw[path].text)
    ensures !Settles(raw, current)
  {
    var igd, seen := IsIgd(current), Eventually(raw, current);
    var o := OrderFor(raw, path);
    var r := OrderFor(raw, q);
    var after := Applied(o, raw, current);
    RootIsKept(o, raw, current);
    assert Writes(raw, path, current.Keys, igd, path);
    AppliedValue(o, raw, current, path);
    assert TrimSpace("") == "";
    assert path in Push(o, raw, current) && path in after;
    WritesWhereSelected(raw, q, seen, after.Keys, igd, path);
    assert path in Push(r, raw, after);
  }

  lemma DiscordShows(raw: Defaults, current: Params, path: string, k: string, q: string)
    requires var igd, seen := IsIgd(current), Eventually(raw, current);
      && Pushable(path, igd) && Writes(raw, k, seen, igd, path) && Writes(raw, q, seen, igd, path)
      && TrimSpace(Contribution(raw, k, seen, igd)[path]) != TrimSpace(Contribution(raw, q, seen, igd)[path])
    ensures !Settles(raw, current)
  {
    var igd, seen := IsIgd(current), Eventually(raw, current);
    if Selected(path, current.Keys, igd) {
      SelectedDiscordShows(raw, current, path, k, q);
    } else if TrimSpace(Contribution(raw, k, seen, igd)[path]) != TrimSpace(raw[path].text) {
      PlainDiscordShows(raw, current, path, k);
    } else {
      PlainDiscordShows(raw, current, path, q);
    }
  }

  /** One pass over the defaults reaches a fixed point, for all visiting orders, exactly when no two entries fight
      over a pushable path. */
  lemma SettlesIff(raw: Defaults, current: Params)
    ensures Settles(raw, current) <==> Harmonious(raw, current)
  {
    if Harmonious(raw, current) {
      forall o, q | Visits(o, raw.Keys) && Visits(q, raw.Keys) ensures Push(q, raw, Applied(o, raw, current)) == map[] {
        forall p ensures p !in Push(q, raw, Applied(o, raw, current)) {
          HarmonySettlesPath(o, q, raw, current, p);
        }
      }
    } else {
      var igd, seen := IsIgd(current), Eventually(raw, current);
      var p, k, q :| Pushable(p, igd) && Writes(raw, k, seen, igd, p) && Writes(raw, q, seen, igd, p)
        && TrimSpace(Contribution(raw, k, seen, igd)[p]) != TrimSpace(Contribution(raw, q, seen, igd)[p]);
      DiscordShows(raw, current, p, k, q);
    }
  }

  // ---- the code ----

  method DetectIgd(current: Params) returns (igd: bool)
    ensures igd == IsIgd(current)
  {
    var todo := current.Keys;
    while todo != {}
      invariant todo <= current.Keys
      invariant forall k | k in current && k !in todo :: !HasPrefix(k, IGD)
      decreases |todo|
    {
      var k :| k in todo;
      if HasPrefix(k, IGD) {
        return true;
      }
      todo := todo - {k};
    }
    return false;
  }

  lemma PicksNext(out: Params, candidates: seq<string>, i: nat, value: string, existing: set<string>, igd: bool)
    requires i < |candidates|
    ensures out + Picks(candidates[..i + 1], value, existing, igd) ==
      var before := out + Picks(candidates[..i], value, existing, igd);
      if Selected(candidates[i], existing, igd) then before[candidates[i] := value] else before
  {
    assert candidates[..i + 1] == candidates[..i] + [candidates[i]];
    assert Picks(candidates[..i + 1], value, existing, igd) ==
      if Selected(candidates[i], existing, igd) then Picks(candidates[..i], value, existing,
        igd)[candidates[i] := value]
      else Picks(candidates[..i], value, existing, igd);
  }

  /** The loop over a virtual entry's candidates. */
  method AddCandidates(out: Params, candidates: seq<string>, value: string, current: Params, igd: bool)
    returns (next: Params)
    ensures next == out + Picks(candidates, value, current.Keys, igd)
  {
    next := out;
    for i := 0 to |candidates|
      invariant next == out + Picks(candidates[..i], value, current.Keys, igd)
    {
      PicksNext(out, candidates, i, value, current.Keys, igd);
      next := AddCandidate(next, candidates[i], value, current, igd);
    }
    assert candidates[..|candidates|] == candidates;
  }

  method AddCandidate(out: Params, c: string, value: string, current: Params, igd: bool) returns (next: Params)
    ensures next == if Selected(c, current.Keys, igd) then out[c := value] else out
  {
    next := out;
    if igd && HasPrefix(c, IGD) {
      next := next[c := value];
    } else if !igd && HasPrefix(c, DEVICE) {
      next := next[c := value];
    }
    if c in current {
      next := next[c := value];
    }
  }

  /** The body of the loop over the defaults. */
  method AddContribution(out: Params, raw: Defaults, key: string, current: Params, igd: bool) returns (next: Params)
    requires key in raw
    ensures next == out + Contribution(raw, key, current.Keys, igd)
  {
    if !IsVirtual(key) {
      return out[key := raw[key].text];
    }
    var spec := raw[key].spec;
    if spec.None? || spec.value.value == "" || spec.value.candidates == [] {
      return out;
    }
    next := AddCandidates(out, spec.value.candidates, spec.value.value, current, igd);
  }

  method ExpandVirtualParams(raw: Defaults, current: Params, igd: bool) returns (out: Params, ghost order: seq<string>)
    ensures Visits(order, raw.Keys) && out == Expand(order, raw, current.Keys, igd)
  {
    out, order := map[], [];
    var todo := raw.Keys;
    while todo != {}
      invariant todo <= raw.Keys && forall k :: k in order <==> k in raw && k !in todo
      invariant forall i, j | 0 <= i < j < |order| :: order[i] != order[j]
      invariant out == Expand(order, raw, current.Keys, igd)
      decreases |todo|
    {
      var k :| k in todo;
      assert (order + [k])[..|order|] == order;
      out := AddContribution(out, raw, k, current, igd);
      order := order + [k];
      todo := todo - {k};
    }
  }

  lemma DiffNext(expanded: Params, done: set<string>, current: Params, igd: bool, p: string)
    requires p in expanded && p !in done
    ensures Diff(map q | q in expanded && q in done + {p} :: expanded[q], current, igd) ==
      var before := Diff(map q | q in expanded && q in done :: expanded[q], current, igd);
      if Pushable(p, igd) && Differs(current, p, expanded[p]) then before[p := expanded[p]] else before
  {
  }

  method BuildDiff(expanded: Params, current: Params, igd: bool) returns (toSet: Params)
    ensures toSet == Diff(expanded, current, igd)
  {
    toSet := map[];
    var todo := expanded.Keys;
    ghost var done: set<string> := {};
    while todo != {}
      invariant done + todo == expanded.Keys && done !! todo
      invariant toSet == Diff(map q | q in expanded && q in done :: expanded[q], current, igd)
      decreases |todo|
    {
      var p :| p in todo;
      DiffNext(expanded, done, current, igd, p);
      done, todo := done + {p}, todo - {p};
      if HasPrefix(p, "_") || (igd && HasPrefix(p, DEVICE)) || (!igd && HasPrefix(p, IGD)) {
        continue;
      }
      if Differs(current, p, expanded[p]) {
        toSet := toSet[p := expanded[p]];
      }
    }
    assert expanded == map q | q in expanded && q in done :: expanded[q];
  }

  /** The parameters injectGlobalDefaultParams pushes: no internal key, none of the other data model's paths. */
  method GlobalDefaultsToPush(raw: Defaults, current: Params) returns (toSet: Params)
    ensures exists order :: Visits(order, raw.Keys) && toSet == Push(order, raw, current)
    ensures forall p | p in toSet :: !HasPrefix(p, "_") && !HasPrefix(p, if IsIgd(current) then DEVICE else IGD)
  {
    var igd := DetectIgd(current);
    var expanded;
    ghost var order;
    expanded, order := ExpandVirtualParams(raw, current, igd);
    toSet := BuildDiff(expanded, current, igd);
  }
}
