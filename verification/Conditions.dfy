/** Which steps of a flow a run visits: what each kind of condition means in terms of the driver's features and the
    variables a provision starts with. */
module Conditions {
  import opened GoStrings
  import opened Templates
  import opened Provisioning

  // ---- one condition ----

  /** Whether a step that carries the condition runs; blanks around the condition do not matter. */
  predicate RunsWhen(cond: string, flags: map<string, bool>, vars: Vars) {
    EvalCondition(cond, FeaturesOf(flags, vars))
  }

  lemma ActiveMeans(step: Step, flags: map<string, bool>, vars: Vars)
    ensures Active(step, FeaturesOf(flags, vars)) <==> RunsWhen(TrimSpace(step.when), flags, vars)
  {
    TrimTwice(step.when);
    if step.when == "" { assert TrimSpace("") == ""; }
  }

  lemma {:induction false} TrimLeftTwice(s: string)
    ensures TrimLeft(TrimLeft(s)) == TrimLeft(s)
  {
    if s != "" && IsSpace(s[0]) { TrimLeftTwice(s[1..]); }
  }

  lemma {:induction false} TrimRightKeepsHead(s: string)
    ensures TrimRight(TrimRight(s)) == TrimRight(s)
    ensures TrimLeft(s) == s ==> TrimLeft(TrimRight(s)) == TrimRight(s)
  {
    if s != "" && IsSpace(s[|s| - 1]) {
      if TrimLeft(s) == s && |s| > 1 { TrimmedHead(s); }
      TrimRightKeepsHead(s[..|s| - 1]);
    }
  }

  lemma {:induction false} TrimLeftShrinks(s: string)
    ensures |TrimLeft(s)| <= |s|
  {
    if s != "" && IsSpace(s[0]) { TrimLeftShrinks(s[1..]); }
  }

  lemma TrimmedHead(s: string)
    requires TrimLeft(s) == s && |s| > 1
    ensures !IsSpace(s[0]) && TrimLeft(s[..|s| - 1]) == s[..|s| - 1]
  {
    if IsSpace(s[0]) { TrimLeftShrinks(s[1..]); }
  }

  lemma TrimTwice(s: string)
    ensures TrimSpace(TrimSpace(s)) == TrimSpace(s)
  {
    TrimLeftTwice(s);
    TrimRightKeepsHead(TrimLeft(s));
  }

  /** A step without a condition, or with a blank one, runs. */
  lemma BlankRuns(step: Step, flags: map<string, bool>, vars: Vars)
    requires TrimSpace(step.when) == ""
    ensures Active(step, FeaturesOf(flags, vars))
  {
  }

  /** Without an exclamation mark a condition is looked up. */
  lemma LookedUp(step: Step, features: Features)
    requires var c := TrimSpace(step.when); c != "" && c[0] != '!'
    ensures var c := TrimSpace(step.when); Active(step, features) <==> c in features && features[c]
  {
  }

  // the three kinds of features begin differently

  lemma DriverFlagAt(flags: map<string, bool>, k: string)
    ensures var c, f := "feature_" + k, DriverFlags(flags);
      (c in f <==> k in flags) && (c in f ==> f[c] == flags[k])
  {
    var c, f := "feature_" + k, DriverFlags(flags);
    if c in f {
      var a :| a in flags && "feature_" + a == c && f[c] == flags[a];
      SamePrefix("feature_", a, k);
    }
    if k in flags { assert "feature_" + k in f; }
  }

  lemma NoDriverFlag(flags: map<string, bool>, c: string)
    requires c != "" && c[0] != 'f'
    ensures c !in DriverFlags(flags)
  {
  }

  lemma VariableFlagAt(vars: Vars, k: string)
    ensures var c, f := "has_" + k, VariableFlags(vars);
      (c in f <==> k in vars && TrimSpace(vars[k]) != "" && vars[k] != "0") && (c in f ==> f[c])
  {
    var c, f := "has_" + k, VariableFlags(vars);
    if c in f {
      var a :| a in vars && TrimSpace(vars[a]) != "" && vars[a] != "0" && "has_" + a == c;
      SamePrefix("has_", a, k);
    }
    if k in vars && TrimSpace(vars[k]) != "" && vars[k] != "0" { assert "has_" + k in f; }
  }

  lemma NoVariableFlag(vars: Vars, c: string)
    requires c != "" && c[0] != 'h'
    ensures c !in VariableFlags(vars)
  {
  }

  lemma GponFlagAt(vars: Vars)
    ensures var f, given := GponFlags(vars), "gpon_idx" in vars && vars["gpon_idx"] != "" && vars["gpon_idx"] != "0";
      && "gpon_reuse" in f && "gpon_create" in f && f["gpon_reuse"] == given && f["gpon_create"] == !given
      && f.Keys == {"gpon_reuse", "gpon_create"}
  {
    assert "gpon_reuse"[5] != "gpon_create"[5];
  }

  lemma GponFeatures(flags: map<string, bool>, vars: Vars)
    ensures var f, given := FeaturesOf(flags, vars),
      "gpon_idx" in vars && vars["gpon_idx"] != "" && vars["gpon_idx"] != "0";
      && "gpon_reuse" in f && "gpon_create" in f && f["gpon_reuse"] == given && f["gpon_create"] == !given
  {
    GponFlagAt(vars);
    NoVariableFlag(vars, "gpon_reuse");
    NoVariableFlag(vars, "gpon_create");
  }

  lemma DriverFeature(flags: map<string, bool>, vars: Vars, k: string)
    ensures var f, c := FeaturesOf(flags, vars), "feature_" + k;
      (c in f && f[c]) <==> (k in flags && flags[k])
  {
    var c := "feature_" + k;
    assert c[0] == 'f';
    GponFlagAt(vars);
    assert "gpon_reuse"[0] == 'g' && "gpon_create"[0] == 'g';
    NoVariableFlag(vars, c);
    DriverFlagAt(flags, k);
  }

  lemma VariableFeature(flags: map<string, bool>, vars: Vars, k: string)
    ensures var f, c := FeaturesOf(flags, vars), "has_" + k;
      (c in f && f[c]) <==> (k in vars && TrimSpace(vars[k]) != "" && vars[k] != "0")
  {
    var c := "has_" + k;
    assert c[0] == 'h';
    GponFlagAt(vars);
    assert "gpon_reuse"[0] == 'g' && "gpon_create"[0] == 'g';
    NoDriverFlag(flags, c);
    VariableFlagAt(vars, k);
  }

  lemma NoFeature(flags: map<string, bool>, vars: Vars, c: string)
    requires c != "" && c != "gpon_reuse" && c != "gpon_create" && !HasPrefix(c, "feature_") && !HasPrefix(c, "has_")
    ensures c !in FeaturesOf(flags, vars)
  {
    GponFlagAt(vars);
  }

  /** gpon_reuse holds exactly when gpon_idx is bound to a text other than "" and "0", gpon_create exactly otherwise. */
  lemma GponConditions(step: Step, flags: map<string, bool>, vars: Vars)
    ensures TrimSpace(step.when) == "gpon_reuse" ==>
      (Active(step, FeaturesOf(flags, vars)) <==>
        "gpon_idx" in vars && vars["gpon_idx"] != "" && vars["gpon_idx"] != "0")
    ensures TrimSpace(step.when) == "gpon_create" ==>
      (Active(step, FeaturesOf(flags, vars)) <==>
        "gpon_idx" !in vars || vars["gpon_idx"] == "" || vars["gpon_idx"] == "0")
  {
    GponFeatures(flags, vars);
    var c := TrimSpace(step.when);
    if c == "gpon_reuse" || c == "gpon_create" { LookedUp(step, FeaturesOf(flags, vars)); }
  }

  /** feature_k holds exactly when the driver sets k. */
  lemma FeatureCondition(step: Step, flags: map<string, bool>, vars: Vars, k: string)
    requires TrimSpace(step.when) == "feature_" + k
    ensures Active(step, FeaturesOf(flags, vars)) <==> k in flags && flags[k]
  {
    DriverFeature(flags, vars, k);
    LookedUp(step, FeaturesOf(flags, vars));
  }

  /** has_k holds exactly when k is bound to a text that is neither blank nor "0". */
  lemma HasCondition(step: Step, flags: map<string, bool>, vars: Vars, k: string)
    requires TrimSpace(step.when) == "has_" + k
    ensures Active(step, FeaturesOf(flags, vars)) <==> k in vars && TrimSpace(vars[k]) != "" && vars[k] != "0"
  {
    VariableFeature(flags, vars, k);
    LookedUp(step, FeaturesOf(flags, vars));
  }

  /** Any other text holds for no step. */
  lemma UnknownConditionFails(step: Step, flags: map<string, bool>, vars: Vars)
    requires var c := TrimSpace(step.when);
      c != "" && c[0] != '!' && c != "gpon_reuse" && c != "gpon_create"
      && !HasPrefix(c, "feature_") && !HasPrefix(c, "has_")
    ensures !Active(step, FeaturesOf(flags, vars))
  {
    NoFeature(flags, vars, TrimSpace(step.when));
    LookedUp(step, FeaturesOf(flags, vars));
  }

  /** An exclamation mark negates a condition. */
  lemma NegationMeans(step: Step, plain: Step, flags: map<string, bool>, vars: Vars)
    requires plain.when != "" && plain.when[0] != '!' && TrimSpace(plain.when) == plain.when
    requires TrimSpace(step.when) == "!" + plain.when
    ensures Active(step, FeaturesOf(flags, vars)) <==> !Active(plain, FeaturesOf(flags, vars))
  {
    assert ("!" + plain.when)[1..] == plain.when;
  }

  // ---- which steps a run visits ----

  /** After some of the replies the step at position i is the one due. */
  ghost predicate Visited(e0: Exec, replies: seq<string>, i: nat) {
    exists n: nat :: n <= |replies| && DueAt(e0, replies[..n], i)
  }

  predicate DueAt(e0: Exec, replies: seq<string>, i: nat) {
    !After(e0, replies).Done() && After(e0, replies).cur == i
  }

  /** A run with as many replies as there are active steps visits exactly the active ones. */
  lemma VisitedIff(flow: Flow, on: seq<bool>, vars: Vars, replies: seq<string>, i: nat)
    requires |on| == |flow| && i < |flow| && |replies| >= |ActiveFrom(on, 0)|
    ensures Visited(Start(flow, on, vars), replies, i) <==> on[i]
  {
    var e0, a := Start(flow, on, vars), ActiveFrom(on, 0);
    ActiveFromMember(on, 0, i);
    if on[i] {
      var n :| 0 <= n < |a| && a[n] == i;
      ExecutesActiveSubsequence(flow, on, vars, replies[..n]);
      assert DueAt(e0, replies[..n], i);
    }
    if Visited(e0, replies, i) {
      var n: nat :| n <= |replies| && DueAt(e0, replies[..n], i);
      ExecutesActiveSubsequence(flow, on, vars, replies[..n]);
    }
  }

  /** The initial state of an executor for the flow; inputs override the driver's configuration. */
  function StartWith(flow: Flow, driver: Option<Driver>, inputs: Vars): Exec {
    var vars := ConfigOf(driver) + inputs;
    Start(flow, Mask(flow, FeaturesOf(FlagsOf(driver), vars)), vars)
  }

  /** Every run of an executor that gets enough replies visits a step that creates a GPON link exactly when no link is
      given, and one that reuses a link exactly when one is. */
  lemma GponStepsVisited(flow: Flow, driver: Option<Driver>, inputs: Vars, replies: seq<string>, i: nat)
    requires i < |flow| && |replies| >= |flow|
    ensures var vars := ConfigOf(driver) + inputs;
      var given := "gpon_idx" in vars && vars["gpon_idx"] != "" && vars["gpon_idx"] != "0";
      && (flow[i].when == "gpon_create" ==> (Visited(StartWith(flow, driver, inputs), replies, i) <==> !given))
      && (flow[i].when == "gpon_reuse" ==> (Visited(StartWith(flow, driver, inputs), replies, i) <==> given))
      && (flow[i].when == "" ==> Visited(StartWith(flow, driver, inputs), replies, i))
  {
    StepVisitedIff(flow, driver, inputs, replies, i);
    SolidWords();
    GponConditions(flow[i], FlagsOf(driver), ConfigOf(driver) + inputs);
  }

  lemma SolidWords()
    ensures TrimSpace("gpon_create") == "gpon_create" && TrimSpace("gpon_reuse") == "gpon_reuse"
  {
    assert "gpon_create"[10] == 'e' && "gpon_reuse"[9] == 'e';
  }

  lemma {:induction false} FewActive(on: seq<bool>, i: nat)
    requires i <= |on|
    ensures |ActiveFrom(on, i)| <= |on| - i
    decreases |on| - i
  {
    if i < |on| { FewActive(on, i + 1); }
  }

  /** A step is visited exactly when its condition holds of the driver's features and the initial variables. */
  lemma StepVisitedIff(flow: Flow, driver: Option<Driver>, inputs: Vars, replies: seq<string>, i: nat)
    requires i < |flow| && |replies| >= |flow|
    ensures Visited(StartWith(flow, driver, inputs), replies, i) <==>
      Active(flow[i], FeaturesOf(FlagsOf(driver), ConfigOf(driver) + inputs))
  {
    var vars := ConfigOf(driver) + inputs;
    var on := Mask(flow, FeaturesOf(FlagsOf(driver), vars));
    FewActive(on, 0);
    VisitedIff(flow, on, vars, replies, i);
  }
}
