/** The step-by-step provisioning executor: a flow of conditional AddObject, Set and
    Delete steps whose templates are filled from variables that AddObject replies bind. */
module Provisioning {
  import opened GoStrings
  import opened Templates

  datatype StepKind = AddObject | SetParams | DeleteObject

  /** bind names the variable that receives an AddObject instance number ("" for none). */
  datatype Step = Step(kind: StepKind, when: string, path: string, bind: string, params: map<string, string>)

  type Flow = seq<Step>

  type Features = map<string, bool>

  datatype Driver = Driver(config: Vars, features: map<string, bool>)

  datatype ResolvedStep = ResolvedStep(kind: StepKind, path: string, params: map<string, string>)

  // ---- conditions ----

  predicate EvalCondition(cond: string, features: Features) {
    var c := TrimSpace(cond);
    if c == "" then true
    else if HasPrefix(c, "!") then !(c[1..] in features && features[c[1..]])
    else c in features && features[c]
  }

  predicate Active(step: Step, features: Features) {
    step.when == "" || EvalCondition(step.when, features)
  }

  predicate ReusesGpon(vars: Vars) {
    "gpon_idx" in vars && vars["gpon_idx"] != "" && vars["gpon_idx"] != "0"
  }

  lemma SamePrefix(p: string, a: string, b: string)
    ensures p + a == p + b ==> a == b
  {
    assert (p + a)[|p|..] == a && (p + b)[|p|..] == b;
  }

  function DriverFlags(driverFeatures: map<string, bool>): Features {
    assert forall a: string, b: string :: "feature_" + a == "feature_" + b ==> a == b by {
      forall a: string, b: string { SamePrefix("feature_", a, b); }
    }
    map k | k in driverFeatures :: "feature_" + k := driverFeatures[k]
  }

  function GponFlags(vars: Vars): Features {
    map["gpon_reuse" := ReusesGpon(vars), "gpon_create" := !ReusesGpon(vars)]
  }

  function VariableFlags(vars: Vars): Features {
    map k | k in vars && TrimSpace(vars[k]) != "" && vars[k] != "0" :: "has_" + k := true
  }

  /** Conditions available to a flow, evaluated once from the driver and the initial variables. */
  function FeaturesOf(driverFeatures: map<string, bool>, vars: Vars): Features {
    DriverFlags(driverFeatures) + GponFlags(vars) + VariableFlags(vars)
  }

  /** Which steps of a flow run: fixed once the features are known. */
  function Mask(flow: Flow, features: Features): (on: seq<bool>)
    ensures |on| == |flow|
    ensures forall i | 0 <= i < |flow| :: on[i] == Active(flow[i], features)
  {
    seq(|flow|, i requires 0 <= i < |flow| => Active(flow[i], features))
  }

  lemma UnconditionalStepsRun(flow: Flow, features: Features, i: nat)
    requires i < |flow| && flow[i].when == ""
    ensures Mask(flow, features)[i]
  {
  }

  // ---- the executor as a state machine ----

  datatype Exec = Exec(flow: Flow, on: seq<bool>, vars: Vars, cur: nat) {
    predicate Done() {
      cur >= |flow|
    }

    /** The cursor rests on an active step or at the end. */
    predicate AtRest() {
      |on| == |flow| && cur <= |flow| && (cur < |flow| ==> on[cur])
    }

    function Current(): Step
      requires !Done()
    {
      flow[cur]
    }

    function Advance(): Exec {
      if Done() then this else this.(cur := NextActive(on, cur + 1))
    }

    /** instance is the decimal text of the instance number. */
    function AdvanceAddObject(instance: string): Exec {
      if Done() then this
      else if Current().bind != "" then this.(vars := vars[Current().bind := instance]).Advance()
      else Advance()
    }

    /** The transition taken on the CPE's reply to the current step; the instance number
        only matters when that step is an AddObject. */
    function OnReply(instance: string): Exec {
      if !Done() && Current().kind == AddObject then AdvanceAddObject(instance) else Advance()
    }
  }

  /** Least active position from i on, or the length of the flow. */
  function NextActive(on: seq<bool>, i: nat): (j: nat)
    ensures i <= j && (i <= |on| ==> j <= |on|)
    ensures j < |on| ==> on[j]
    decreases |on| - i
  {
    if i >= |on| || on[i] then i else NextActive(on, i + 1)
  }

  function Start(flow: Flow, on: seq<bool>, vars: Vars): Exec {
    Exec(flow, on, vars, NextActive(on, 0))
  }

  lemma StartRests(flow: Flow, on: seq<bool>, vars: Vars)
    requires |on| == |flow|
    ensures Start(flow, on, vars).AtRest()
  {
  }

  /** State after answering the first |replies| requested steps. */
  function After(e: Exec, replies: seq<string>): Exec
    decreases |replies|
  {
    if replies == [] then e else After(e.OnReply(replies[0]), replies[1..])
  }

  // ---- which steps are executed ----

  /** The active positions from i on, in flow order. */
  function ActiveFrom(on: seq<bool>, i: nat): seq<nat>
    decreases |on| - i
  {
    if i >= |on| then []
    else if on[i] then [i] + ActiveFrom(on, i + 1)
    else ActiveFrom(on, i + 1)
  }

  /** Every active position is listed and nothing else is. */
  lemma {:induction false} ActiveFromMember(on: seq<bool>, i: nat, k: nat)
    ensures k in ActiveFrom(on, i) <==> i <= k < |on| && on[k]
    decreases |on| - i
  {
    if i < |on| {
      ActiveFromMember(on, i + 1, k);
    }
  }

  /** The list is strictly increasing, so each position is listed once. */
  lemma {:induction false} ActiveFromIncreasing(on: seq<bool>, i: nat, m: nat, n: nat)
    requires m < n < |ActiveFrom(on, i)|
    ensures i <= ActiveFrom(on, i)[m] < ActiveFrom(on, i)[n]
    decreases |on| - i
  {
    var a, rest := ActiveFrom(on, i), ActiveFrom(on, i + 1);
    if !on[i] {
      ActiveFromIncreasing(on, i + 1, m, n);
    } else if m > 0 {
      ActiveFromIncreasing(on, i + 1, m - 1, n - 1);
    } else {
      assert a[n] == rest[n - 1];
      ActiveFromMember(on, i + 1, a[n]);
    }
  }

  lemma {:induction false} ActiveFromNext(on: seq<bool>, i: nat)
    requires i <= |on|
    ensures var j := NextActive(on, i);
      ActiveFrom(on, i) == if j < |on| then [j] + ActiveFrom(on, j + 1) else []
    decreases |on| - i
  {
    if i < |on| && !on[i] {
      ActiveFromNext(on, i + 1);
    }
  }

  /** One step moves to the next active position and keeps flow and activity. */
  lemma OnReplyStep(e: Exec, instance: string)
    requires e.AtRest()
    ensures var e' := e.OnReply(instance);
      e'.flow == e.flow && e'.on == e.on && e'.cur == (if e.Done() then e.cur else NextActive(e.on, e.cur + 1))
        && e'.AtRest()
  {
  }

  /** The position of the n-th active step, or the end when there are fewer. */
  function Entry(on: seq<bool>, n: nat): int {
    var a := ActiveFrom(on, 0);
    if n < |a| then a[n] else |on|
  }

  lemma {:induction false} SuffixFromEntry(on: seq<bool>, n: nat)
    requires n < |ActiveFrom(on, 0)|
    ensures var a := ActiveFrom(on, 0); a[n] < |on| && on[a[n]] && ActiveFrom(on, a[n]) == a[n..]
  {
    if n == 0 {
      ActiveFromNext(on, 0);
      assert ActiveFrom(on, 0)[0..] == ActiveFrom(on, 0);
      ListHead(on, 0);
    } else {
      SuffixFromEntry(on, n - 1);
      SuffixStep(on, ActiveFrom(on, 0), n - 1);
    }
  }

  lemma ListHead(on: seq<bool>, i: nat)
    requires i <= |on| && ActiveFrom(on, i) != []
    ensures var k := ActiveFrom(on, i)[0];
      k < |on| && on[k] && ActiveFrom(on, i) == ActiveFrom(on, k) == [k] + ActiveFrom(on, k + 1)
  {
    ActiveFromNext(on, i);
  }

  lemma SuffixStep(on: seq<bool>, a: seq<nat>, k: nat)
    requires k + 1 < |a| && a[k] < |on| && on[a[k]] && ActiveFrom(on, a[k]) == a[k..]
    ensures a[k + 1] < |on| && on[a[k + 1]] && ActiveFrom(on, a[k + 1]) == a[k + 1..]
  {
    TailFollows(on, a, k);
    ListHead(on, a[k] + 1);
  }

  lemma TailFollows(on: seq<bool>, a: seq<nat>, k: nat)
    requires k < |a| && a[k] < |on| && on[a[k]] && ActiveFrom(on, a[k]) == a[k..]
    ensures ActiveFrom(on, a[k] + 1) == a[k + 1..]
  {
    assert a[k..] == [a[k]] + a[k + 1..];
  }

  lemma NextEntry(on: seq<bool>, n: nat)
    requires n < |ActiveFrom(on, 0)|
    ensures NextActive(on, Entry(on, n) + 1) == Entry(on, n + 1)
  {
    var a := ActiveFrom(on, 0);
    SuffixFromEntry(on, n);
    ActiveFromNext(on, a[n] + 1);
    assert a[n + 1..] == a[n..][1..] == ActiveFrom(on, a[n] + 1);
    if n + 1 < |a| { assert a[n + 1..][0] == a[n + 1]; }
  }

  lemma StepKeepsPlace(e: Exec, n: nat, instance: string)
    requires e.AtRest() && e.cur == Entry(e.on, n)
    ensures var e' := e.OnReply(instance);
      e'.flow == e.flow && e'.on == e.on && e'.AtRest() && e'.cur == Entry(e.on, n + 1)
  {
    OnReplyStep(e, instance);
    if n < |ActiveFrom(e.on, 0)| {
      SuffixFromEntry(e.on, n);
      NextEntry(e.on, n);
    }
  }

  lemma {:induction false} RunKeepsPlace(e: Exec, n: nat, replies: seq<string>)
    requires e.AtRest() && e.cur == Entry(e.on, n)
    ensures var e' := After(e, replies);
      e'.flow == e.flow && e'.on == e.on && e'.AtRest() && e'.cur == Entry(e.on, n + |replies|)
    decreases |replies|
  {
    if replies != [] {
      StepKeepsPlace(e, n, replies[0]);
      RunKeepsPlace(e.OnReply(replies[0]), n + 1, replies[1..]);
    }
  }

  /** In every run, whatever instance numbers the CPE returns, the n-th request is the n-th
      active step of the flow and the run is done exactly after the last of them. */
  lemma ExecutesActiveSubsequence(flow: Flow, on: seq<bool>, vars: Vars, replies: seq<string>)
    requires |on| == |flow|
    ensures var e := After(Start(flow, on, vars), replies);
      && e.flow == flow && e.on == on && e.AtRest() && e.cur == Entry(on, |replies|)
      && (e.Done() <==> |ActiveFrom(on, 0)| <= |replies|)
  {
    ActiveFromNext(on, 0);
    RunKeepsPlace(Start(flow, on, vars), 0, replies);
    if |replies| < |ActiveFrom(on, 0)| { SuffixFromEntry(on, |replies|); }
  }

  /** Every answered request shortens what is left to do by one step. */
  lemma RemainingDecreases(e: Exec, instance: string)
    requires e.AtRest() && !e.Done()
    ensures |ActiveFrom(e.on, e.OnReply(instance).cur)| == |ActiveFrom(e.on, e.cur)| - 1
  {
    OnReplyStep(e, instance);
    ActiveFromNext(e.on, e.cur + 1);
  }

  // ---- resolving templates ----

  /** r is what substitute(s) may return: the result for some iteration order. */
  ghost predicate Substituted(s: string, vars: Vars, r: string) {
    exists order :: Lists(order, vars) && r == ReplaceInOrder(s, order)
  }

  /** The pair (key, value) is what the template t of raw may resolve to. */
  ghost predicate PairFrom(raw: map<string, string>, t: string, vars: Vars, key: string, value: string) {
    t in raw && Substituted(t, vars, key) && Substituted(raw[t], vars, value)
  }

  ghost predicate Justified(raw: map<string, string>, vars: Vars, key: string, value: string) {
    value != "" && exists t :: PairFrom(raw, t, vars, key, value)
  }

  ghost predicate Delivered(raw: map<string, string>, t: string, vars: Vars, keys: set<string>) {
    exists k, v :: PairFrom(raw, t, vars, k, v) && (v != "" ==> k in keys)
  }

  /** out is what resolveParams(raw) may return. Pairs with an empty value are dropped. */
  ghost predicate ResolvedParams(raw: map<string, string>, vars: Vars, out: map<string, string>) {
    && (forall k | k in out :: Justified(raw, vars, k, out[k]))
    && (forall t | t in raw :: Delivered(raw, t, vars, out.Keys))
  }

  ghost predicate Resolves(step: Step, vars: Vars, r: ResolvedStep) {
    && r.kind == step.kind
    && Substituted(step.path, vars, r.path)
    && ResolvedParams(step.params, vars, r.params)
  }

  // ---- definite assignment ----

  predicate Bound(s: string, names: set<string>) {
    Flat(s) && Holes(s) <= names
  }

  predicate StepBound(step: Step, names: set<string>) {
    && Bound(step.path, names)
    && (forall k | k in step.params :: Bound(k, names) && Bound(step.params[k], names))
    && '}' !in step.bind
  }

  function Binds(step: Step): set<string> {
    if step.kind == AddObject && step.bind != "" then {step.bind} else {}
  }

  /** Every placeholder of every active step from i on is in names or bound by an earlier
      active AddObject. */
  predicate Assigned(flow: Flow, on: seq<bool>, names: set<string>, i: nat)
    requires |on| == |flow|
    decreases |flow| - i
  {
    i < |flow| ==>
      if on[i] then StepBound(flow[i], names) && Assigned(flow, on, names + Binds(flow[i]), i + 1)
      else Assigned(flow, on, names, i + 1)
  }

  lemma {:induction false} AssignedNext(flow: Flow, on: seq<bool>, names: set<string>, i: nat)
    requires |on| == |flow| && Assigned(flow, on, names, i)
    ensures Assigned(flow, on, names, NextActive(on, i))
    decreases |flow| - i
  {
    if i < |flow| && !on[i] {
      AssignedNext(flow, on, names, i + 1);
    }
  }

  lemma ReplyBinds(e: Exec, instance: string)
    requires e.AtRest() && !e.Done() && SafeTable(e.vars) && '}' !in e.Current().bind && '{' !in instance
    ensures SafeTable(e.OnReply(instance).vars)
    ensures e.OnReply(instance).vars.Keys == e.vars.Keys + Binds(e.Current())
  {
  }

  /** Names bound so far cover every placeholder that is still to come. */
  predicate Covered(e: Exec) {
    e.AtRest() && SafeTable(e.vars) && Assigned(e.flow, e.on, e.vars.Keys, e.cur)
  }

  lemma CoveredStep(e: Exec, instance: string)
    requires Covered(e) && '{' !in instance
    ensures Covered(e.OnReply(instance))
  {
    OnReplyStep(e, instance);
    if !e.Done() {
      ReplyBinds(e, instance);
      AssignedNext(e.flow, e.on, e.OnReply(instance).vars.Keys, e.cur + 1);
    }
  }

  lemma {:induction false} CoveredRun(e: Exec, replies: seq<string>)
    requires Covered(e) && forall r | r in replies :: '{' !in r
    ensures Covered(After(e, replies))
    decreases |replies|
  {
    if replies != [] {
      CoveredStep(e, replies[0]);
      CoveredRun(e.OnReply(replies[0]), replies[1..]);
    }
  }

  lemma SubstitutedIsSimultaneous(s: string, vars: Vars, r: string)
    requires SafeTable(vars) && Flat(s) && Substituted(s, vars, r)
    ensures r == Simultaneous(s, vars)
  {
    var order :| Lists(order, vars) && r == ReplaceInOrder(s, order);
    SubstitutionIsConfluent(s, order, vars);
  }

  lemma BoundLeavesNoHole(s: string, vars: Vars, r: string)
    requires SafeTable(vars) && Bound(s, vars.Keys) && Substituted(s, vars, r)
    ensures r == Simultaneous(s, vars) && Holes(r) == {}
  {
    SubstitutedIsSimultaneous(s, vars, r);
    NoHoleLeftIff(s, vars);
  }

  /** Instance numbers as the executor stores them. */
  function Decimals(instances: seq<int>): (texts: seq<string>)
    ensures |texts| == |instances|
  {
    seq(|instances|, i requires 0 <= i < |instances| => Itoa(instances[i]))
  }

  lemma DecimalsOpenNothing(instances: seq<int>)
    ensures forall r | r in Decimals(instances) :: '{' !in r
  {
    forall i | 0 <= i < |instances| ensures '{' !in Decimals(instances)[i] {
      ItoaChars(instances[i]);
    }
  }

  /** out holds exactly the simultaneous resolutions of raw with a non-empty value. */
  ghost predicate ResolvedExactly(raw: map<string, string>, vars: Vars, out: map<string, string>) {
    && (forall k | k in out :: exists t ::
          t in raw && k == Simultaneous(t, vars) && out[k] == Simultaneous(raw[t], vars) && out[k] != "")
    && (forall t | t in raw && Simultaneous(raw[t], vars) != "" :: Simultaneous(t, vars) in out)
  }

  predicate HoleFree(out: map<string, string>) {
    forall k | k in out :: Holes(k) == {} && Holes(out[k]) == {}
  }

  lemma PairBound(raw: map<string, string>, t: string, vars: Vars, key: string, value: string)
    requires SafeTable(vars) && PairFrom(raw, t, vars, key, value)
    requires Bound(t, vars.Keys) && Bound(raw[t], vars.Keys)
    ensures key == Simultaneous(t, vars) && Holes(key) == {}
    ensures value == Simultaneous(raw[t], vars) && Holes(value) == {}
  {
    BoundLeavesNoHole(t, vars, key);
    BoundLeavesNoHole(raw[t], vars, value);
  }

  lemma EntryBound(raw: map<string, string>, vars: Vars, out: map<string, string>, k: string)
    requires SafeTable(vars) && ResolvedParams(raw, vars, out) && k in out
    requires forall t | t in raw :: Bound(t, vars.Keys) && Bound(raw[t], vars.Keys)
    ensures exists t :: t in raw && k == Simultaneous(t, vars) && out[k] == Simultaneous(raw[t], vars) && out[k] != ""
    ensures Holes(k) == {} && Holes(out[k]) == {}
  {
    assert Justified(raw, vars, k, out[k]);
    var t :| PairFrom(raw, t, vars, k, out[k]);
    PairBound(raw, t, vars, k, out[k]);
  }

  lemma TemplateDelivered(raw: map<string, string>, vars: Vars, out: map<string, string>, t: string)
    requires SafeTable(vars) && ResolvedParams(raw, vars, out) && t in raw
    requires Bound(t, vars.Keys) && Bound(raw[t], vars.Keys)
    ensures Simultaneous(raw[t], vars) != "" ==> Simultaneous(t, vars) in out
  {
    assert Delivered(raw, t, vars, out.Keys);
    var k, v :| PairFrom(raw, t, vars, k, v) && (v != "" ==> k in out.Keys);
    PairBound(raw, t, vars, k, v);
  }

  lemma ParamsBound(raw: map<string, string>, vars: Vars, out: map<string, string>)
    requires SafeTable(vars) && ResolvedParams(raw, vars, out)
    requires forall t | t in raw :: Bound(t, vars.Keys) && Bound(raw[t], vars.Keys)
    ensures ResolvedExactly(raw, vars, out) && HoleFree(out)
  {
    forall k | k in out ensures Holes(k) == {} && Holes(out[k]) == {} {
      EntryBound(raw, vars, out, k);
    }
    ParamsExact(raw, vars, out);
  }

  lemma ParamsExact(raw: map<string, string>, vars: Vars, out: map<string, string>)
    requires SafeTable(vars) && ResolvedParams(raw, vars, out)
    requires forall t | t in raw :: Bound(t, vars.Keys) && Bound(raw[t], vars.Keys)
    ensures ResolvedExactly(raw, vars, out)
  {
    forall k | k in out
      ensures exists t :: t in raw && k == Simultaneous(t, vars) && out[k] == Simultaneous(raw[t], vars) && out[k] != ""
    {
      EntryBound(raw, vars, out, k);
    }
    forall t | t in raw && Simultaneous(raw[t], vars) != "" ensures Simultaneous(t, vars) in out {
      TemplateDelivered(raw, vars, out, t);
    }
  }

  /** Definite assignment is sound: in every run of a checked flow, for all instance numbers
      and all map-iteration orders, no path, key or value sent to the CPE still holds a
      placeholder, and the resolution is the simultaneous one. */
  lemma DefiniteAssignmentIsSound(flow: Flow, on: seq<bool>, vars: Vars, instances: seq<int>, r: ResolvedStep)
    requires |on| == |flow| && SafeTable(vars) && Assigned(flow, on, vars.Keys, 0)
    requires var e := After(Start(flow, on, vars), Decimals(instances)); !e.Done() && Resolves(e.Current(), e.vars, r)
    ensures var e := After(Start(flow, on, vars), Decimals(instances));
      && r.path == Simultaneous(e.Current().path, e.vars) && Holes(r.path) == {}
      && ResolvedExactly(e.Current().params, e.vars, r.params) && HoleFree(r.params)
  {
    DecimalsOpenNothing(instances);
    AssignedNext(flow, on, vars.Keys, 0);
    CoveredRun(Start(flow, on, vars), Decimals(instances));
    var e := After(Start(flow, on, vars), Decimals(instances));
    assert StepBound(e.Current(), e.vars.Keys);
    BoundLeavesNoHole(e.Current().path, e.vars, r.path);
    ParamsBound(e.Current().params, e.vars, r.params);
  }

  /** One unassigned placeholder in an active step is enough to leak: the check is exact for
      each template. */
  lemma UnboundTemplateLeaks(s: string, vars: Vars, r: string)
    requires SafeTable(vars) && Flat(s) && Substituted(s, vars, r)
    ensures Holes(r) == {} <==> Holes(s) <= vars.Keys
  {
    SubstitutedIsSimultaneous(s, vars, r);
    NoHoleLeftIff(s, vars);
  }

  // ---- the executor object ----

  function ConfigOf(driver: Option<Driver>): Vars {
    if driver.Some? then driver.value.config else map[]
  }

  function FlagsOf(driver: Option<Driver>): map<string, bool> {
    if driver.Some? then driver.value.features else map[]
  }

  class ProvisionExecutor {
    const flow: Flow
    const features: Features
    var vars: Vars
    var cur: nat

    ghost function State(): Exec
      reads this
    {
      Exec(flow, Mask(flow, features), vars, cur)
    }

    constructor (flow: Flow, driver: Option<Driver>, inputVars: Vars)
      ensures features == FeaturesOf(FlagsOf(driver), ConfigOf(driver) + inputVars)
      ensures State() == Start(flow, Mask(flow, features), ConfigOf(driver) + inputVars)
      ensures State().AtRest()
    {
      var merged := ConfigOf(driver) + inputVars;
      this.flow := flow;
      features := FeaturesOf(FlagsOf(driver), merged);
      vars := merged;
      cur := 0;
      new;
      StartRests(flow, Mask(flow, features), vars);
      SkipInactive();
    }

    predicate Done()
      reads this
    {
      cur >= |flow|
    }

    /** The resolved current step, or None once every step has been executed. */
    method CurrentStep() returns (r: Option<ResolvedStep>)
      ensures r.None? <==> State().Done()
      ensures r.Some? ==> Resolves(State().Current(), vars, r.value)
    {
      if Done() {
        return None;
      }
      var s := flow[cur];
      var path := Substitute(s.path);
      var params := ResolveParams(s.params);
      return Some(ResolvedStep(s.kind, path, params));
    }

    method Advance()
      modifies this
      ensures State() == old(State()).Advance()
      ensures !old(State()).Done() ==> State().AtRest()
    {
      if !Done() {
        MoveOn();
      }
    }

    method MoveOn()
      requires !State().Done()
      modifies this`cur
      ensures State() == old(State()).Advance() && State().AtRest()
    {
      cur := cur + 1;
      SkipInactive();
    }

    method AdvanceAddObject(instance: int)
      modifies this
      ensures State() == old(State()).AdvanceAddObject(Itoa(instance))
      ensures !old(State()).Done() ==> State().AtRest()
    {
      AdvanceBinding(Itoa(instance));
    }

    method AdvanceBinding(text: string)
      modifies this
      ensures State() == old(State()).AdvanceAddObject(text)
      ensures !old(State()).Done() ==> State().AtRest()
    {
      if Done() {
        return;
      }
      var s := flow[cur];
      if s.bind != "" {
        vars := vars[s.bind := text];
        assert State() == old(State()).(vars := old(vars)[s.bind := text]);
      }
      MoveOn();
    }

    method SkipInactive()
      requires cur <= |flow|
      modifies this`cur
      ensures cur == NextActive(Mask(flow, features), old(cur))
    {
      while cur < |flow|
        invariant cur <= |flow|
        invariant NextActive(Mask(flow, features), cur) == NextActive(Mask(flow, features), old(cur))
      {
        var s := flow[cur];
        if s.when == "" || EvalCondition(s.when, features) {
          return;
        }
        cur := cur + 1;
      }
    }

    /** One ReplaceAll per variable, in whatever order the map yields them. */
    method Substitute(s: string) returns (r: string)
      ensures Substituted(s, vars, r)
    {
      r := s;
      var todo := vars;
      ghost var order: Bindings := [];
      while todo != map[]
        invariant Processed(order, todo, vars)
        invariant r == ReplaceInOrder(s, order)
        decreases |todo|
      {
        var name :| name in todo;
        r := ReplaceAll(r, Placeholder(name), todo[name]);
        ReplaceOneMore(s, order, (name, todo[name]));
        ProcessOne(order, todo, vars, name);
        order := order + [(name, todo[name])];
        todo := todo - {name};
      }
      assert vars - todo.Keys == vars;
    }

    method ResolveParams(raw: map<string, string>) returns (out: map<string, string>)
      ensures ResolvedParams(raw, vars, out)
    {
      out := map[];
      var todo := raw;
      while todo != map[]
        invariant forall t | t in todo :: t in raw && raw[t] == todo[t]
        invariant forall k | k in out :: Justified(raw, vars, k, out[k])
        invariant forall t | t in raw && t !in todo :: Delivered(raw, t, vars, out.Keys)
        decreases |todo|
      {
        var t :| t in todo;
        var key := Substitute(t);
        var value := Substitute(todo[t]);
        assert PairFrom(raw, t, vars, key, value);
        ghost var keys := out.Keys;
        todo := todo - {t};
        if value != "" {
          out := out[key := value];
        }
        forall u | u in raw && u !in todo ensures Delivered(raw, u, vars, out.Keys) {
          if u != t { MoreKeys(raw, u, vars, keys, out.Keys); }
        }
      }
    }
  }

  lemma MoreKeys(raw: map<string, string>, t: string, vars: Vars, keys: set<string>, more: set<string>)
    requires Delivered(raw, t, vars, keys) && keys <= more
    ensures Delivered(raw, t, vars, more)
  {
    var k, v :| PairFrom(raw, t, vars, k, v) && (v != "" ==> k in keys);
    assert PairFrom(raw, t, vars, k, v) && (v != "" ==> k in more);
  }

  predicate Processed(order: Bindings, todo: Vars, vars: Vars) {
    && (forall n | n in todo :: n in vars && vars[n] == todo[n])
    && Lists(order, vars - todo.Keys)
  }

  lemma ProcessOne(order: Bindings, todo: Vars, vars: Vars, name: string)
    requires Processed(order, todo, vars) && name in todo
    ensures Processed(order + [(name, todo[name])], todo - {name}, vars)
  {
    var more := order + [(name, todo[name])];
    assert more[|order|].0 == name;
    forall n | n in vars - (todo - {name}).Keys ensures Names(more, n) {
      if n != name {
        assert Names(order, n);
        var i :| 0 <= i < |order| && order[i].0 == n;
        assert more[i].0 == n;
      }
    }
  }

  lemma {:induction false} ReplaceOneMore(s: string, order: Bindings, b: (string, string))
    ensures ReplaceInOrder(s, order + [b]) == ReplaceAll(ReplaceInOrder(s, order), Placeholder(b.0), b.1)
    decreases |order|
  {
    if order == [] {
      assert order + [b] == [b] && [b][1..] == [];
    } else {
      assert (order + [b])[1..] == order[1..] + [b];
      ReplaceOneMore(ReplaceAll(s, Placeholder(order[0].0), order[0].1), order[1..], b);
    }
  }
}
