/** When a provisioning flow never sends an unfilled placeholder. */
module DefiniteAssignment {
  import opened GoStrings
  import opened Templates
  import opened Provisioning

  predicate WellFormed(step: Step) {
    && Flat(step.path) && '}' !in step.bind
    && forall t | t in step.params :: Flat(t) && Flat(step.params[t])
  }

  /** Every placeholder that reaches the device is bound. Parameters whose value resolves to nothing are not sent. */
  predicate StepClean(step: Step, vars: Vars) {
    && Holes(step.path) <= vars.Keys
    && forall t | t in step.params && Simultaneous(step.params[t], vars) != "" ::
         Holes(t) + Holes(step.params[t]) <= vars.Keys
  }

  /** One pass over the flow, as if every new object got instance number 1. */
  predicate Clean(e: Exec)
    decreases |e.flow| - e.cur
  {
    e.Done() || (StepClean(e.Current(), e.vars) && Clean(e.OnReply("1")))
  }

  // ---- the instance numbers do not matter ----

  predicate AlikeVars(u: Vars, v: Vars) {
    u.Keys == v.Keys && forall n | n in u :: u[n] == "" <==> v[n] == ""
  }

  predicate Alike(e: Exec, f: Exec) {
    e.flow == f.flow && e.on == f.on && e.cur == f.cur && AlikeVars(e.vars, f.vars)
  }

  lemma {:induction false} EmptyAlike(s: string, u: Vars, v: Vars)
    requires AlikeVars(u, v)
    ensures Simultaneous(s, u) == "" <==> Simultaneous(s, v) == ""
    decreases |s|
  {
    if s != "" && HoleAt(s) && HoleName(s) in u {
      EmptyAlike(PastHole(s), u, v);
    }
  }

  lemma StepCleanAlike(step: Step, u: Vars, v: Vars)
    requires AlikeVars(u, v) && StepClean(step, u)
    ensures StepClean(step, v)
  {
    forall t | t in step.params && Simultaneous(step.params[t], v) != ""
      ensures Holes(t) + Holes(step.params[t]) <= v.Keys
    {
      EmptyAlike(step.params[t], u, v);
    }
  }

  lemma {:induction false} CleanAlike(e: Exec, f: Exec)
    requires Alike(e, f) && Clean(e)
    ensures Clean(f)
    decreases |e.flow| - e.cur
  {
    if !e.Done() {
      StepCleanAlike(e.Current(), e.vars, f.vars);
      CleanAlike(e.OnReply("1"), f.OnReply("1"));
    }
  }

  lemma {:induction false} CleanAfter(e: Exec, replies: seq<string>)
    requires Clean(e) && forall r | r in replies :: r != ""
    ensures Clean(After(e, replies))
    decreases |replies|
  {
    if replies != [] {
      assert replies[0] in replies && forall r | r in replies[1..] :: r in replies;
      CleanAlike(e.OnReply("1"), e.OnReply(replies[0]));
      CleanAfter(e.OnReply(replies[0]), replies[1..]);
    }
  }

  lemma {:induction false} SafeAfter(e: Exec, replies: seq<string>)
    requires SafeTable(e.vars) && (forall i | 0 <= i < |e.flow| :: '}' !in e.flow[i].bind) && forall r | r in replies ::
      '{' !in r
    ensures After(e, replies).flow == e.flow && SafeTable(After(e, replies).vars)
    decreases |replies|
  {
    if replies != [] {
      assert replies[0] in replies && forall r | r in replies[1..] :: r in replies;
      SafeAfter(e.OnReply(replies[0]), replies[1..]);
    }
  }

  function Ones(n: nat): seq<int> {
    if n == 0 then [] else [1] + Ones(n - 1)
  }

  lemma OnesTail(n: nat)
    requires n > 0
    ensures Decimals(Ones(n))[0] == "1" && Decimals(Ones(n))[1..] == Decimals(Ones(n - 1))
  {
    assert Itoa(1) == "1" by { assert NatToString(1) == "1"; }
  }

  /** A flow that fails the pass has a run that reaches the failing step. */
  lemma {:induction false} UncleanIsReached(e: Exec) returns (n: nat)
    requires !Clean(e)
    ensures var f := After(e, Decimals(Ones(n))); !f.Done() && !StepClean(f.Current(), f.vars)
    decreases |e.flow| - e.cur
  {
    n := 0;
    if StepClean(e.Current(), e.vars) {
      var m := UncleanIsReached(e.OnReply("1"));
      n := m + 1;
      OnesTail(n);
    }
  }

  // ---- what a step can send ----

  lemma SimultaneousIsPossible(s: string, vars: Vars)
    requires Flat(s) && SafeTable(vars)
    ensures Substituted(s, vars, Simultaneous(s, vars))
  {
    var order := SomeListing(vars);
    SubstitutionIsConfluent(s, order, vars);
  }

  predicate Sent(raw: map<string, string>, vars: Vars, t: string) {
    t in raw && Simultaneous(raw[t], vars) != ""
  }

  ghost function TemplateOf(raw: map<string, string>, vars: Vars, k: string): (t: string)
    requires exists t :: Sent(raw, vars, t) && Simultaneous(t, vars) == k
    ensures Sent(raw, vars, t) && Simultaneous(t, vars) == k
  {
    var t :| Sent(raw, vars, t) && Simultaneous(t, vars) == k;
    t
  }

  ghost function AllSent(raw: map<string, string>, vars: Vars): (out: map<string, string>)
    ensures forall k :: k in out <==> exists t :: Sent(raw, vars, t) && Simultaneous(t, vars) == k
    ensures forall k | k in out :: exists t ::
      Sent(raw, vars, t) && Simultaneous(t, vars) == k && out[k] == Simultaneous(raw[t], vars)
  {
    map k | k in (set t | t in raw && Sent(raw, vars, t) :: Simultaneous(t, vars)) ::
      Simultaneous(raw[TemplateOf(raw, vars, k)], vars)
  }

  predicate FlatParams(raw: map<string, string>) {
    forall t | t in raw :: Flat(t) && Flat(raw[t])
  }

  lemma PairIsPossible(raw: map<string, string>, vars: Vars, t: string)
    requires FlatParams(raw) && SafeTable(vars) && t in raw
    ensures PairFrom(raw, t, vars, Simultaneous(t, vars), Simultaneous(raw[t], vars))
  {
    SimultaneousIsPossible(t, vars);
    SimultaneousIsPossible(raw[t], vars);
  }

  lemma SentIsPossible(raw: map<string, string>, vars: Vars, out: map<string, string>)
    requires FlatParams(raw) && SafeTable(vars)
    requires forall k | k in out :: exists t ::
      Sent(raw, vars, t) && Simultaneous(t, vars) == k && out[k] == Simultaneous(raw[t], vars)
    requires forall t | Sent(raw, vars, t) :: Simultaneous(t, vars) in out
    ensures ResolvedParams(raw, vars, out)
  {
    forall k | k in out ensures Justified(raw, vars, k, out[k]) {
      var t :| Sent(raw, vars, t) && Simultaneous(t, vars) == k && out[k] == Simultaneous(raw[t], vars);
      PairIsPossible(raw, vars, t);
    }
    forall t | t in raw ensures Delivered(raw, t, vars, out.Keys) {
      PairIsPossible(raw, vars, t);
    }
  }

  /** Each parameter that is sent can be the one that wins its key. */
  lemma CanWin(raw: map<string, string>, vars: Vars, t: string) returns (out: map<string, string>)
    requires FlatParams(raw) && SafeTable(vars) && Sent(raw, vars, t)
    ensures ResolvedParams(raw, vars, out)
    ensures Simultaneous(t, vars) in out && out[Simultaneous(t, vars)] == Simultaneous(raw[t], vars)
  {
    var all := AllSent(raw, vars);
    out := all[Simultaneous(t, vars) := Simultaneous(raw[t], vars)];
    SentIsPossible(raw, vars, out);
  }

  predicate Filled(r: ResolvedStep) {
    Holes(r.path) == {} && HoleFree(r.params)
  }

  lemma SomeParams(raw: map<string, string>, vars: Vars) returns (out: map<string, string>)
    requires FlatParams(raw) && SafeTable(vars)
    ensures ResolvedParams(raw, vars, out)
  {
    out := AllSent(raw, vars);
    SentIsPossible(raw, vars, out);
  }

  lemma LeakyParams(raw: map<string, string>, vars: Vars, t: string) returns (out: map<string, string>)
    requires FlatParams(raw) && SafeTable(vars) && Sent(raw, vars, t) && !(Holes(t) + Holes(raw[t]) <= vars.Keys)
    ensures ResolvedParams(raw, vars, out) && !HoleFree(out)
  {
    out := CanWin(raw, vars, t);
    NoHoleLeftIff(t, vars);
    NoHoleLeftIff(raw[t], vars);
  }

  lemma UncleanLeaks(step: Step, vars: Vars) returns (r: ResolvedStep)
    requires WellFormed(step) && SafeTable(vars) && !StepClean(step, vars)
    ensures Resolves(step, vars, r) && !Filled(r)
  {
    var params;
    if Holes(step.path) <= vars.Keys {
      var t :| Sent(step.params, vars, t) && !(Holes(t) + Holes(step.params[t]) <= vars.Keys);
      params := LeakyParams(step.params, vars, t);
    } else {
      params := SomeParams(step.params, vars);
    }
    SimultaneousIsPossible(step.path, vars);
    NoHoleLeftIff(step.path, vars);
    r := ResolvedStep(step.kind, Simultaneous(step.path, vars), params);
  }

  lemma CleanIsFilled(step: Step, vars: Vars, r: ResolvedStep)
    requires WellFormed(step) && SafeTable(vars) && StepClean(step, vars) && Resolves(step, vars, r)
    ensures Filled(r)
  {
    BoundLeavesNoHole(step.path, vars, r.path);
    forall k | k in r.params ensures Holes(k) == {} && Holes(r.params[k]) == {} {
      assert Justified(step.params, vars, k, r.params[k]);
      var t :| PairFrom(step.params, t, vars, k, r.params[k]);
      SubstitutedIsSimultaneous(step.params[t], vars, r.params[k]);
      PairBound(step.params, t, vars, k, r.params[k]);
    }
  }

  // ---- the check is exact ----

  /** r is what some run may send after the given replies. */
  ghost predicate MaySend(flow: Flow, on: seq<bool>, vars: Vars, instances: seq<int>, r: ResolvedStep) {
    var e := After(Start(flow, on, vars), Decimals(instances));
    !e.Done() && Resolves(e.Current(), e.vars, r)
  }

  lemma DecimalsAreNotEmpty(instances: seq<int>)
    ensures forall r | r in Decimals(instances) :: r != ""
  {
    forall i | 0 <= i < |instances| ensures Decimals(instances)[i] != "" {
      ItoaIsNotEmpty(instances[i]);
    }
  }

  lemma ItoaIsNotEmpty(n: int)
    ensures Itoa(n) != ""
  {
    AtoiOfItoa(n);
    assert Atoi("").None?;
  }

  lemma RunIsFilled(flow: Flow, on: seq<bool>, vars: Vars, instances: seq<int>, r: ResolvedStep)
    requires |on| == |flow| && SafeTable(vars) && forall i | 0 <= i < |flow| :: WellFormed(flow[i])
    requires Clean(Start(flow, on, vars)) && MaySend(flow, on, vars, instances, r)
    ensures Filled(r)
  {
    DecimalsOpenNothing(instances);
    DecimalsAreNotEmpty(instances);
    CleanAfter(Start(flow, on, vars), Decimals(instances));
    SafeAfter(Start(flow, on, vars), Decimals(instances));
    var e := After(Start(flow, on, vars), Decimals(instances));
    CleanIsFilled(e.Current(), e.vars, r);
  }

  lemma SomeRunLeaks(flow: Flow, on: seq<bool>, vars: Vars) returns (instances: seq<int>, r: ResolvedStep)
    requires |on| == |flow| && SafeTable(vars) && forall i | 0 <= i < |flow| :: WellFormed(flow[i])
    requires !Clean(Start(flow, on, vars))
    ensures MaySend(flow, on, vars, instances, r) && !Filled(r)
  {
    var n := UncleanIsReached(Start(flow, on, vars));
    instances := Ones(n);
    DecimalsOpenNothing(instances);
    SafeAfter(Start(flow, on, vars), Decimals(instances));
    var e := After(Start(flow, on, vars), Decimals(instances));
    r := UncleanLeaks(e.Current(), e.vars);
  }

  lemma BoundIsClean(step: Step, vars: Vars)
    requires StepBound(step, vars.Keys)
    ensures StepClean(step, vars)
  {
    assert forall t | t in step.params :: Bound(t, vars.Keys) && Bound(step.params[t], vars.Keys);
  }

  /** Definite assignment implies the check; the two differ only in parameters that are not sent. */
  lemma {:induction false} AssignedIsClean(e: Exec)
    requires Covered(e)
    ensures Clean(e)
    decreases |e.flow| - e.cur
  {
    if !e.Done() {
      BoundIsClean(e.Current(), e.vars);
      ItoaChars(1);
      assert Itoa(1) == "1" by { assert NatToString(1) == "1"; }
      CoveredStep(e, "1");
      AssignedIsClean(e.OnReply("1"));
    }
  }

  /** No run sends a placeholder, whatever the instance numbers and the visiting orders, if and only if the
      flow passes the check with every instance number 1. */
  lemma NoRunLeaksIff(flow: Flow, on: seq<bool>, vars: Vars)
    requires |on| == |flow| && SafeTable(vars) && forall i | 0 <= i < |flow| :: WellFormed(flow[i])
    ensures (forall instances, r | MaySend(flow, on, vars, instances, r) :: Filled(r)) <==> Clean(Start(flow, on, vars))
  {
    if Clean(Start(flow, on, vars)) {
      forall instances, r | MaySend(flow, on, vars, instances, r) ensures Filled(r) {
        RunIsFilled(flow, on, vars, instances, r);
      }
    } else {
      var instances, r := SomeRunLeaks(flow, on, vars);
    }
  }
}
