/** The CWMP session object and its request handlers, proved against the session
    specification. Every handler ends by writing exactly one HTTP reply. */
module CwmpSession {
  import opened GoStrings
  import opened Templates
  import opened Provisioning
  import opened CwmpSpec
  import opened Tasks

  // ---- the provisioning flow in progress ----

  datatype Progress = Next(request: Reply) | Finished | Rejected

  class WanProvision {
    const exe: ProvisionExecutor

    constructor (flow: Flow, driver: Option<Driver>, vars: Vars)
      ensures fresh(exe) && exe.State() == StartOf(flow, driver, vars)
    {
      exe := new ProvisionExecutor(flow, driver, vars);
    }

    /** The request for the current step, with a body that resolves it. */
    method BuildCurrentXml() returns (p: Progress, body: Option<ResolvedStep>)
      ensures p == if exe.State().Done() then Rejected else Next(Ask(exe.State()))
      ensures body.Some? <==> !exe.State().Done()
      ensures body.Some? ==> Resolves(exe.State().Current(), exe.vars, body.value)
    {
      body := exe.CurrentStep();
      if body.None? {
        return Rejected, body;
      }
      p := Next(StepRequest(exe.flow[exe.cur], exe.vars));
    }

    method OnAddObject(instance: int) returns (p: Progress)
      modifies exe
      ensures var e := old(exe.State());
        if e.Done() || e.Current().kind != AddObject then p == Rejected && exe.State() == e
        else exe.State() == e.AdvanceAddObject(Itoa(instance)) && p == Reached(exe.State())
    {
      if exe.Done() || exe.flow[exe.cur].kind != AddObject {
        return Rejected;
      }
      exe.AdvanceAddObject(instance);
      p := Following();
    }

    method OnSetParams() returns (p: Progress)
      modifies exe
      ensures exe.State() == old(exe.State()).Advance() && p == Reached(exe.State())
    {
      if exe.Done() {
        return Finished;
      }
      exe.Advance();
      p := Following();
    }

    method OnDeleteObject() returns (p: Progress)
      modifies exe
      ensures exe.State() == old(exe.State()).Advance() && p == Reached(exe.State())
    {
      if exe.Done() {
        return Finished;
      }
      exe.Advance();
      p := Following();
    }

    method Following() returns (p: Progress)
      ensures p == Reached(exe.State())
    {
      if exe.Done() {
        return Finished;
      }
      var body;
      p, body := BuildCurrentXml();
    }
  }

  function StartOf(flow: Flow, driver: Option<Driver>, vars: Vars): Exec {
    var merged := ConfigOf(driver) + vars;
    Start(flow, Mask(flow, FeaturesOf(FlagsOf(driver), merged)), merged)
  }

  function Reached(e: Exec): Progress {
    if e.Done() then Finished else Next(Ask(e))
  }

  // ---- the outside ----

  /** What a handler hands out: HTTP replies, and queue and store writes. */
  class Wire {
    var sent: seq<Reply>
    var writes: seq<Write>

    constructor ()
      ensures sent == [] && writes == []
    {
      sent, writes := [], [];
    }
  }

  /** The part of executeTask that depends on payload, mapper and driver. */
  datatype Plan =
    | PlanFails
    | PlanSends(setParams: Option<map<string, string>>, creds: Option<map<string, string>>)
    | PlanProvisions(flow: Flow, driver: Option<Driver>, vars: Vars, wanCreds: map<string, string>)
    | PlanAddsThenSets

  function Built(p: Plan): Build {
    match p
    case PlanFails => BuildFails
    case PlanSends(ps, creds) => Sends(ps, creds)
    case PlanProvisions(flow, driver, vars, creds) => Provisions(StartOf(flow, driver, vars), creds)
    case PlanAddsThenSets => AddsThenSets
  }

  /** A world together with the plans its builds come from. */
  datatype Outside = Outside(world: World, plans: Gear -> ((Task, nat) -> Plan), plan: (Task, nat) -> Plan) {
    ghost predicate Consistent() {
      && (forall t, n {:trigger plan(t, n)} :: world.build(t, n) == Built(plan(t, n)))
      && (forall g, t, n {:trigger plans(g)(t, n)} :: world.built(g)(t, n) == Built(plans(g)(t, n)))
    }

    function Facing(gear: Gear): (o: Outside)
      ensures o.world == CwmpSpec.Facing(world, gear)
    {
      this.(world := CwmpSpec.Facing(world, gear), plan := plans(gear))
    }
  }

  lemma StaysConsistent(o: Outside, gear: Gear)
    requires o.Consistent()
    ensures o.Facing(gear).Consistent()
  {
  }

  /** A provision the session did not own before is a new object. */
  twostate predicate Owned(before: WanProvision?, new after: WanProvision?) {
    after != null && after != before ==> fresh(after) && fresh(after.exe)
  }

  lemma WritesAssociate(a: seq<Write>, b: seq<Write>, c: seq<Write>)
    ensures (a + b) + c == a + (b + c)
  {
  }

  /** Adding the driver's tasks and then the global ones. */
  lemma InjectTwice(s: Sess, w: World)
    ensures var s1 := s.(pending := DriverTasks(s, w) + s.pending);
      Inject(s1, GlobalTasks(s1, w), w) == Inject(s, Extra(s, w), w) && MarkWrites(s1, w) == MarkWrites(s, w)
  {
    assert GlobalTasks(s, w) + (DriverTasks(s, w) + s.pending) == (GlobalTasks(s, w) + DriverTasks(s, w)) + s.pending;
  }

  // ---- the session ----

  class Session {
    const id: string
    var lifecycle: Lifecycle
    var pending: seq<Task>
    var current: Option<Task>
    var wan: WanProvision?
    var followUp: bool
    var setParams: map<string, string>
    var creds: map<string, string>
    var provisionMark: bool
    var summon: nat
    var schema: string
    var names: seq<string>
    var batch: nat
    var params: map<string, string>
    var targets: seq<string>
    var refresh: bool
    var bootstrap: bool
    var needs: bool
    var gear: Gear

    /** The session and the provision it owns. */
    ghost function Repr(): set<object>
      reads this
    {
      if wan == null then {this} else {this, wan, wan.exe}
    }

    ghost function State(): Sess
      reads this, if wan == null then {} else {wan, wan.exe}
    {
      Sess(lifecycle, pending, current, if wan == null then None else Some(wan.exe.State()), followUp, setParams, creds,
           provisionMark, summon, schema, names, batch, params, targets, refresh, bootstrap, needs, gear)
    }

    constructor (id: string)
      ensures State() == FRESH_SESS && wan == null && this.id == id
    {
      this.id := id;
      lifecycle, pending, current, wan, followUp := New, [], None, null, false;
      setParams, creds, provisionMark, summon, schema := map[], map[], false, 0, "";
      names, batch, params, targets := [], 0, map[], [];
      refresh, bootstrap, needs, gear := false, false, false, Gear(None, false);
    }

    // ---- handing work over between sessions ----

    method InheritFrom(prev: Session)
      requires prev != this
      modifies this
      ensures State() == Inherit(old(prev.State()), old(State()))
      ensures wan == if old(current).None? then prev.wan else old(wan)
    {
      if current.None? {
        TakeWork(prev);
        TakeLeftovers(prev);
      }
    }

    method TakeWork(prev: Session)
      requires prev != this
      modifies this
      ensures var p := old(prev.State());
        State() == old(State()).(current := p.current, wan := p.wan, followUp := p.followUp) && wan == prev.wan
    {
      current, wan, followUp := prev.current, prev.wan, prev.followUp;
    }

    method TakeLeftovers(prev: Session)
      requires prev != this
      modifies this
      ensures wan == old(wan)
      ensures State() == old(State()).(provisionMark := old(provisionMark) || prev.provisionMark,
        setParams := if prev.setParams == map[] then old(setParams) else prev.setParams,
        creds := if prev.creds == map[] then old(creds) else prev.creds)
    {
      provisionMark := provisionMark || prev.provisionMark;
      setParams := if prev.setParams == map[] then setParams else prev.setParams;
      creds := if prev.creds == map[] then creds else prev.creds;
    }

    method Vacate()
      modifies this
      ensures State() == Emptied(old(State())) && wan == null
    {
      DropWork();
      ForgetSent();
    }

    method DropWork()
      modifies this
      ensures State() == old(State()).(current := None, wan := None, followUp := false) && wan == null
    {
      current, wan, followUp := None, null, false;
    }

    method ScheduleSummon(schema: string)
      modifies this
      ensures State() == old(State()).(summon := 1, schema := schema) && wan == old(wan)
    {
      summon, this.schema := 1, schema;
    }

    /** The mark a full summon asked for through the API leaves on a live session. */
    method MarkTriggered()
      modifies this
      ensures State() == Triggered(old(State())) && wan == old(wan)
    {
      if !lifecycle.Closed? {
        summon := 1;
      }
    }

    method ScheduleTargetedSummon(targets: seq<string>, refresh: bool, schema: string)
      modifies this
      ensures State() == old(State()).(summon := 3, targets := targets, refresh := refresh, schema := schema)
      ensures wan == old(wan)
    {
      summon, this.targets, this.refresh, this.schema := 3, targets, refresh, schema;
    }

    method NoteBootstrap(bootstrap: bool)
      modifies this
      ensures State() == old(State()).(bootstrap := bootstrap) && wan == old(wan)
    {
      this.bootstrap := bootstrap;
    }

    /** Tasks for this session, and whether global defaults are due. */
    method LoadTasks(tasks: seq<Task>, schema: string, provisioned: bool)
      modifies this
      ensures State() == old(State()).(pending := tasks, lifecycle := Processing, gear := Gear(Some(schema), true),
                                       needs := old(needs) || old(bootstrap) || !provisioned)
      ensures wan == old(wan)
    {
      pending, lifecycle, gear := tasks, Processing, Gear(Some(schema), true);
      needs := needs || bootstrap || !provisioned;
    }

    // ---- default parameters ----

    method InjectDefaultParamTask(o: Outside)
      modifies this
      ensures State() == old(State()).(pending := DriverTasks(old(State()), o.world) + old(pending)) && wan == old(wan)
    {
      if gear.driver && o.world.defaults.Some? {
        pending := [o.world.defaults.value] + pending;
      }
    }

    method InjectGlobalDefaultParams(o: Outside, wire: Wire)
      modifies this, wire`writes
      ensures var s := old(State()); State() == Inject(s, GlobalTasks(s, o.world), o.world) && wan == old(wan)
      ensures wire.writes == old(wire.writes) + MarkWrites(old(State()), o.world)
    {
      var globals := o.world.globals;
      if globals.NoGlobals? || (!bootstrap && !needs && o.world.provisioned) {
        return;
      }
      if globals.Matching? {
        needs := false;
        wire.writes := wire.writes + [SaveParams(PROVISIONED_MARK)];
      } else {
        AddGlobalTask(globals.task);
      }
    }

    method AddGlobalTask(t: Task)
      modifies this
      ensures State() == old(State()).(pending := [t] + old(pending), provisionMark := true, needs := false)
      ensures wan == old(wan)
    {
      pending, provisionMark, needs := [t] + pending, true, false;
    }

    // ---- dispatching ----

    method DispatchNextOrClose(o: Outside, wire: Wire)
      requires o.Consistent()
      modifies this, wire
      ensures var r := DispatchNext(old(State()), o.world);
        && State() == r.sess && Owned(old(wan), wan)
        && wire.sent == old(wire.sent) + [r.reply] && wire.writes == old(wire.writes) + r.writes
      decreases |pending|, 0
    {
      if pending == [] {
        lifecycle := Closed;
        wire.sent := wire.sent + [NoContent];
        return;
      }
      var next := pending[0];
      pending := pending[1..];
      DispatchTask(next, false, o, wire);
    }

    method DispatchTask(t: Task, own: bool, o: Outside, wire: Wire)
      requires o.Consistent()
      modifies this, wire
      ensures var r := CwmpSpec.DispatchTask(old(State()), t, own, o.world);
        && State() == r.sess && Owned(old(wan), wan)
        && wire.sent == old(wire.sent) + [r.reply] && wire.writes == old(wire.writes) + r.writes
      decreases |pending|, 1
    {
      ghost var before := wire.writes;
      ghost var a := Attempt(State(), t, own, o.world);
      var sent := AttemptTask(t, own, o, wire);
      if !sent {
        ghost var rest := DispatchNext(State(), o.world);
        DispatchNextOrClose(o, wire);
        WritesAssociate(before, a.writes, rest.writes);
      }
    }

    method AttemptTask(t: Task, own: bool, o: Outside, wire: Wire) returns (sent: bool)
      requires o.Consistent()
      modifies this, wire
      ensures var a := Attempt(old(State()), t, own, o.world);
        && State() == a.sess && Owned(old(wan), wan) && sent == a.request.Some?
        && wire.sent == (if sent then old(wire.sent) + [a.request.value] else old(wire.sent))
        && wire.writes == old(wire.writes) + a.writes
    {
      var task, marked := MarkTask(t, own, o, wire);
      if !marked {
        return false;
      }
      var held;
      sent, held := ExecuteTask(t, task, |pending|, o, wire);
      if !sent {
        FailTask(task, own || held, o, wire);
      }
    }

    /** Count the attempt and store the task as executing. When the store refuses, a task the session holds keeps
        the attempt all the same. */
    method MarkTask(t: Task, own: bool, o: Outside, wire: Wire) returns (task: Task, marked: bool)
      modifies this, wire`writes
      ensures task == Marked(t) && wan == old(wan)
      ensures marked == (t.kind == DiagResult || o.world.markOk(t, |old(pending)|))
      ensures State() == if !marked && own then old(State()).(current := Some(task)) else old(State())
      ensures wire.writes == old(wire.writes) + StatusWrites(task, marked)
    {
      task, marked := t, true;
      if t.kind != DiagResult {
        task := task.(status := Executing, attempts := task.attempts + 1);
        marked := o.world.markOk(t, |pending|);
        wire.writes := wire.writes + [StatusOf(task, marked)];
        if !marked && own { Hold(task); }
      }
    }

    method Hold(task: Task)
      modifies this
      ensures State() == old(State()).(current := Some(task)) && wan == old(wan)
    {
      current := Some(task);
    }

    /** The task could not be built: it is reported as failed, and kept when the session already holds it. */
    method FailTask(t: Task, keep: bool, o: Outside, wire: Wire)
      modifies this, wire`writes
      ensures var failed := FailedTask(t);
        && State() == (if keep then old(State()).(current := Some(failed)) else old(State())) && wan == old(wan)
        && wire.writes == old(wire.writes) + StatusWrites(failed, o.world.endOk(failed, |old(pending)|))
    {
      var task := t;
      if task.kind != DiagResult {
        task := task.(status := Failed);
        wire.writes := wire.writes + [StatusOf(task, o.world.endOk(task, |pending|))];
      }
      if keep { current := Some(task); }
    }

    /** held reports that the session keeps the task although building its RPC failed. */
    method ExecuteTask(t: Task, task: Task, n: nat, o: Outside, wire: Wire) returns (ok: bool, held: bool)
      requires o.Consistent()
      modifies this, wire`sent
      ensures State() == Execute(old(State()), task, o.world.build(t, n)).0 && Owned(old(wan), wan)
      ensures var request := Execute(old(State()), task, o.world.build(t, n)).1;
        ok == request.Some? && wire.sent == if ok then old(wire.sent) + [request.value] else old(wire.sent)
      ensures held == o.world.build(t, n).Provisions?
    {
      var plan := o.plan(t, n);
      ok, held := true, false;
      match plan {
        case PlanFails =>
          return false, false;
        case PlanSends(ps, cs) =>
          SendTask(task, ps, cs, wire);
        case PlanAddsThenSets =>
          SendAdding(task, wire);
        case PlanProvisions(flow, driver, vars, cs) =>
          held := true;
          ok := StartProvision(task, flow, driver, vars, cs, wire);
      }
    }

    method SendTask(task: Task, ps: Option<map<string, string>>, cs: Option<map<string, string>>, wire: Wire)
      modifies this, wire`sent
      ensures State() == old(State()).(current := Some(task), setParams := ps.Or(old(setParams)),
        creds := cs.Or(old(creds)))
      ensures wan == old(wan) && wire.sent == old(wire.sent) + [TaskRequest(task)]
    {
      setParams, creds, current := ps.Or(setParams), cs.Or(creds), Some(task);
      wire.sent := wire.sent + [TaskRequest(task)];
    }

    /** The object is added first; its values follow when the CPE reports the instance. */
    method SendAdding(task: Task, wire: Wire)
      modifies this, wire`sent
      ensures State() == old(State()).(current := Some(task), followUp := true)
      ensures wan == old(wan) && wire.sent == old(wire.sent) + [TaskRequest(task)]
    {
      current, followUp := Some(task), true;
      wire.sent := wire.sent + [TaskRequest(task)];
    }

    method StartProvision(task: Task, flow: Flow, driver: Option<Driver>, vars: Vars, cs: map<string, string>,
                          wire: Wire)
      returns (ok: bool)
      modifies this, wire`sent
      ensures var e := StartOf(flow, driver, vars);
        && State() == old(State()).(current := Some(task), wan := Some(e), creds := cs) && Owned(old(wan), wan)
        && ok == !e.Done() && wire.sent == (if ok then old(wire.sent) + [Ask(e)] else old(wire.sent))
    {
      var wp := new WanProvision(flow, driver, vars);
      ok := Begin(wp, task, cs, wire);
    }

    /** Take over a provision and send the request for its first active step. */
    method Begin(wp: WanProvision, task: Task, cs: map<string, string>, wire: Wire) returns (ok: bool)
      modifies this, wire`sent
      ensures State() == old(State()).(current := Some(task), wan := Some(wp.exe.State()), creds := cs) && wan == wp
      ensures ok == !wp.exe.State().Done()
      ensures wire.sent == (if ok then old(wire.sent) + [Ask(wp.exe.State())] else old(wire.sent))
    {
      TakeProvision(wp, task, cs);
      var p, _ := wp.BuildCurrentXml();
      ok := p.Next?;
      if ok {
        wire.sent := wire.sent + [p.request];
      }
    }

    method TakeProvision(wp: WanProvision, task: Task, cs: map<string, string>)
      modifies this
      ensures State() == old(State()).(current := Some(task), wan := Some(wp.exe.State()), creds := cs) && wan == wp
    {
      wan, current, creds := wp, Some(task), cs;
    }

    // ---- replies to ACS requests ----

    /** Hand out some writes, then dispatch. */
    method WriteThenDispatch(written: seq<Write>, o: Outside, wire: Wire)
      requires o.Consistent()
      modifies this, wire
      ensures var r := Logged(written, DispatchNext(old(State()), o.world));
        && State() == r.sess && Owned(old(wan), wan)
        && wire.sent == old(wire.sent) + [r.reply] && wire.writes == old(wire.writes) + r.writes
    {
      ghost var before, rest := wire.writes, DispatchNext(State(), o.world);
      wire.writes := wire.writes + written;
      DispatchNextOrClose(o, wire);
      assert before + written + rest.writes == before + (written + rest.writes);
    }

    method HandleTaskResponse(saved: seq<Write>, ok: bool, o: Outside, wire: Wire)
      requires o.Consistent()
      modifies this, wire
      ensures var r := FinishTask(old(State()), saved, ok, o.world);
        && State() == r.sess && Owned(old(wan), wan)
        && wire.sent == old(wire.sent) + [r.reply] && wire.writes == old(wire.writes) + r.writes
    {
      var t := current;
      current := None;
      WriteThenDispatch(saved + Finishing(t, ok, |pending|, o.world), o, wire);
    }

    method HandleSetParamValuesResponse(o: Outside, wire: Wire)
      requires o.Consistent()
      modifies Repr(), wire
      ensures var r := OnSetParams(old(State()), o.world);
        && State() == r.sess && Owned(old(wan), wan)
        && wire.sent == old(wire.sent) + [r.reply] && wire.writes == old(wire.writes) + r.writes
    {
      if wan != null {
        WanSetParams(o, wire);
      } else {
        PlainSetParams(o, wire);
      }
    }

    method WanSetParams(o: Outside, wire: Wire)
      requires o.Consistent() && wan != null
      modifies Repr(), wire
      ensures var r := OnWanSetParams(old(State()), old(wan.exe.State()), o.world);
        && State() == r.sess && Owned(old(wan), wan)
        && wire.sent == old(wire.sent) + [r.reply] && wire.writes == old(wire.writes) + r.writes
    {
      var p := wan.OnSetParams();
      if p.Next? {
        wire.sent := wire.sent + [p.request];
      } else {
        var saved := Saves(creds);
        wan, creds := null, map[];
        HandleTaskResponse(saved, true, o, wire);
      }
    }

    method PlainSetParams(o: Outside, wire: Wire)
      requires o.Consistent()
      modifies this, wire
      ensures var r := OnPlainSetParams(old(State()), o.world);
        && State() == r.sess && Owned(old(wan), wan)
        && wire.sent == old(wire.sent) + [r.reply] && wire.writes == old(wire.writes) + r.writes
    {
      if current.Some? && current.value.kind == AsyncDiagnostic {
        current := None;
        DispatchNextOrClose(o, wire);
      } else {
        SyncThenFinish(o, wire);
      }
    }

    method ForgetSent()
      modifies this
      ensures State() == old(State()).(setParams := map[], creds := map[], provisionMark := false) && wan == old(wan)
    {
      setParams, creds, provisionMark := map[], map[], false;
    }

    method SyncThenFinish(o: Outside, wire: Wire)
      requires o.Consistent()
      modifies this, wire
      ensures var r := SyncAndFinish(old(State()), o.world);
        && State() == r.sess && Owned(old(wan), wan)
        && wire.sent == old(wire.sent) + [r.reply] && wire.writes == old(wire.writes) + r.writes
    {
      var saved := SyncWrites(setParams, provisionMark, creds);
      ForgetSent();
      HandleTaskResponse(saved, true, o, wire);
    }

    method HandleAddObjectResponse(instance: int, o: Outside, wire: Wire)
      requires o.Consistent()
      modifies Repr(), wire
      ensures var r := OnAddObject(old(State()), instance, o.world);
        && State() == r.sess && Owned(old(wan), wan)
        && wire.sent == old(wire.sent) + [r.reply] && wire.writes == old(wire.writes) + r.writes
    {
      var follow := TakeFollowUp();
      if wan != null {
        WanAddObject(instance, o, wire);
      } else if follow {
        wire.sent := wire.sent + [FollowUp(current, instance)];
      } else {
        HandleTaskResponse([], true, o, wire);
      }
    }

    method TakeFollowUp() returns (follow: bool)
      modifies this
      ensures State() == old(State()).(followUp := false) && wan == old(wan) && follow == old(followUp)
    {
      follow, followUp := followUp, false;
    }

    method DropWan()
      modifies this
      ensures State() == old(State()).(wan := None) && wan == null
    {
      wan := null;
    }

    /** The reply to an AddObject step of the provision in flight, once any follow-up is out of the way. */
    method WanAddObject(instance: int, o: Outside, wire: Wire)
      requires o.Consistent() && wan != null && !followUp
      modifies Repr(), wire
      ensures var r := OnAddObject(old(State()), instance, o.world);
        && State() == r.sess && Owned(old(wan), wan)
        && wire.sent == old(wire.sent) + [r.reply] && wire.writes == old(wire.writes) + r.writes
    {
      var p := wan.OnAddObject(instance);
      if p.Next? {
        wire.sent := wire.sent + [p.request];
      } else {
        DropWan();
        HandleTaskResponse([], p.Finished?, o, wire);
      }
    }

    method HandleDeleteObjectResponse(o: Outside, wire: Wire)
      requires o.Consistent()
      modifies Repr(), wire
      ensures var r := OnDeleteObject(old(State()), o.world);
        && State() == r.sess && Owned(old(wan), wan)
        && wire.sent == old(wire.sent) + [r.reply] && wire.writes == old(wire.writes) + r.writes
    {
      if wan != null {
        var p := wan.OnDeleteObject();
        if p.Next? {
          wire.sent := wire.sent + [p.request];
          return;
        }
        wan := null;
      }
      HandleTaskResponse([], true, o, wire);
    }

    method HandleDownloadResponse(async: bool, o: Outside, wire: Wire)
      requires o.Consistent()
      modifies this, wire
      ensures var r := OnDownload(old(State()), async, o.world);
        && State() == r.sess && Owned(old(wan), wan)
        && wire.sent == old(wire.sent) + [r.reply] && wire.writes == old(wire.writes) + r.writes
    {
      if !async {
        HandleTaskResponse([], true, o, wire);
      } else if pending != [] {
        var next := pending[0];
        pending := pending[1..];
        DispatchTask(next, false, o, wire);
      } else {
        wire.sent := wire.sent + [NoContent];
      }
    }

    method HandleFault(o: Outside, wire: Wire)
      requires o.Consistent()
      modifies this, wire
      ensures var r := OnFault(old(State()), o.world);
        && State() == r.sess && Owned(old(wan), wan)
        && wire.sent == old(wire.sent) + [r.reply] && wire.writes == old(wire.writes) + r.writes
    {
      wan, followUp := null, false;
      HandleTaskResponse([], false, o, wire);
    }

    // ---- parameter summons ----

    method EndSummon(values: map<string, string>, o: Outside, wire: Wire)
      requires o.Consistent()
      modifies this, wire
      ensures var r := CwmpSpec.EndSummon(old(State()), values, o.world);
        && State() == r.sess && Owned(old(wan), wan)
        && wire.sent == old(wire.sent) + [r.reply] && wire.writes == old(wire.writes) + r.writes
    {
      WritesAssociate(wire.writes, [SaveParams(values)], GoOnWithDefaults(Learned(State()),
        CwmpSpec.Facing(o.world, Known(State()))).writes);
      wire.writes := wire.writes + [SaveParams(values)];
      LearnThenGoOn(o, wire);
    }

    method LearnThenGoOn(o: Outside, wire: Wire)
      requires o.Consistent()
      modifies this, wire
      ensures var r := GoOnWithDefaults(Learned(old(State())), CwmpSpec.Facing(o.world, Known(old(State()))));
        && State() == r.sess && Owned(old(wan), wan)
        && wire.sent == old(wire.sent) + [r.reply] && wire.writes == old(wire.writes) + r.writes
    {
      LearnMapper();
      StaysConsistent(o, gear);
      var known := o.Facing(gear);
      InjectThenDispatch(known, wire);
    }

    method LearnMapper()
      modifies this
      ensures State() == Learned(old(State())) && wan == old(wan)
    {
      gear := Gear(Some(schema), gear.driver);
    }

    method InjectThenDispatch(o: Outside, wire: Wire)
      requires o.Consistent()
      modifies this, wire
      ensures var r := GoOnWithDefaults(old(State()), o.world);
        && State() == r.sess && Owned(old(wan), wan)
        && wire.sent == old(wire.sent) + [r.reply] && wire.writes == old(wire.writes) + r.writes
    {
      ghost var before, s := wire.writes, State();
      InjectBoth(o, wire);
      WritesAssociate(before, MarkWrites(s, o.world), DispatchNext(State(), o.world).writes);
      DispatchNextOrClose(o, wire);
    }

    method InjectBoth(o: Outside, wire: Wire)
      modifies this, wire`writes
      ensures var s := old(State());
        && State() == Inject(s, Extra(s, o.world), o.world) && wan == old(wan)
        && wire.writes == old(wire.writes) + MarkWrites(s, o.world)
    {
      InjectTwice(State(), o.world);
      InjectDefaultParamTask(o);
      InjectGlobalDefaultParams(o, wire);
    }

    method SendNextSummonBatch(o: Outside, wire: Wire)
      requires o.Consistent()
      modifies this, wire
      ensures var r := SendBatch(old(State()), o.world);
        && State() == r.sess && Owned(old(wan), wan)
        && wire.sent == old(wire.sent) + [r.reply] && wire.writes == old(wire.writes) + r.writes
    {
      if batch * BatchSize(schema) >= |names| {
        FinishSummon(o, wire);
      } else {
        var asked := NextNames();
        wire.sent := wire.sent + [GetValues(asked)];
      }
    }

    method NextNames() returns (asked: seq<string>)
      requires batch * BatchSize(schema) <= |names|
      ensures asked == Batch(names, BatchSize(schema), batch)
    {
      var start := batch * BatchSize(schema);
      var end := start + BatchSize(schema);
      if end > |names| {
        end := |names|;
      }
      asked := names[start..end];
    }

    method FinishSummon(o: Outside, wire: Wire)
      requires o.Consistent()
      modifies this, wire
      ensures var s := old(State());
        var r := CwmpSpec.EndSummon(s.(summon := 0, names := [], params := map[]), s.params, o.world);
        && State() == r.sess && Owned(old(wan), wan)
        && wire.sent == old(wire.sent) + [r.reply] && wire.writes == old(wire.writes) + r.writes
    {
      var saved := params;
      ghost var s := State();
      summon, names, params := 0, [], map[];
      assert State() == s.(summon := 0, names := [], params := map[]);
      EndSummon(saved, o, wire);
    }

    method CollectLeafs(all: seq<string>) returns (leafs: seq<string>)
      ensures leafs == LeafNames(all)
    {
      leafs := [];
      for i := 0 to |all|
        invariant leafs == LeafNames(all[..i])
      {
        assert all[..i + 1][..i] == all[..i];
        if !HasSuffix(all[i], ".") {
          leafs := leafs + [all[i]];
        }
      }
      assert all[..|all|] == all;
    }

    method StartBatches(leafs: seq<string>)
      modifies this
      ensures State() == old(State()).(summon := 2, names := leafs, batch := 0, params := map[]) && wan == old(wan)
    {
      summon, names, batch, params := 2, leafs, 0, map[];
    }

    method HandleGetParameterNamesResponse(all: seq<string>, o: Outside, wire: Wire)
      requires o.Consistent()
      modifies this, wire
      ensures var r := OnNames(old(State()), all, o.world);
        && State() == r.sess && Owned(old(wan), wan)
        && wire.sent == old(wire.sent) + [r.reply] && wire.writes == old(wire.writes) + r.writes
    {
      var leafs := CollectLeafs(all);
      if leafs == [] {
        AbandonSummon();
        DispatchNextOrClose(o, wire);
      } else {
        StartBatches(leafs);
        SendNextSummonBatch(o, wire);
      }
    }

    method AbandonSummon()
      modifies this
      ensures State() == old(State()).(summon := 0) && wan == old(wan)
    {
      summon := 0;
    }

    method TakeBatch(reply: map<string, string>)
      modifies this
      ensures State() == old(State()).(params := old(params) + reply, batch := old(batch) + 1) && wan == old(wan)
    {
      params, batch := params + reply, batch + 1;
    }

    method EndTargetedSummon()
      modifies this
      ensures State() == old(State()).(summon := 0, targets := [], refresh := false) && wan == old(wan)
    {
      summon, targets, refresh := 0, [], false;
    }

    method HandleTargetedSummonResponse(reply: map<string, string>, o: Outside, wire: Wire)
      requires o.Consistent()
      modifies this, wire
      ensures var r := OnTargeted(old(State()), reply, o.world);
        && State() == r.sess && Owned(old(wan), wan)
        && wire.sent == old(wire.sent) + [r.reply] && wire.writes == old(wire.writes) + r.writes
    {
      var mode := refresh;
      EndTargetedSummon();
      if mode {
        EndSummon(reply, o, wire);
      } else {
        LearnMapper();
        StaysConsistent(o, gear);
        var known := o.Facing(gear);
        DispatchNextOrClose(known, wire);
      }
    }

    method HandleGetParamValuesResponse(reply: map<string, string>, collected: Option<Task>, o: Outside, wire: Wire)
      requires o.Consistent()
      modifies this, wire
      ensures var r := OnValues(old(State()), reply, collected, o.world);
        && State() == r.sess && Owned(old(wan), wan)
        && wire.sent == old(wire.sent) + [r.reply] && wire.writes == old(wire.writes) + r.writes
    {
      if summon == 2 {
        TakeBatch(reply);
        SendNextSummonBatch(o, wire);
      } else if summon == 4 {
        HandleTargetedSummonResponse(reply, o, wire);
      } else {
        CompleteRead(collected, o, wire);
      }
    }

    method CompleteRead(collected: Option<Task>, o: Outside, wire: Wire)
      requires o.Consistent()
      modifies this, wire
      ensures var r := OnRead(old(State()), collected, o.world);
        && State() == r.sess && Owned(old(wan), wan)
        && wire.sent == old(wire.sent) + [r.reply] && wire.writes == old(wire.writes) + r.writes
    {
      var t := current;
      current := None;
      var diagnostic := t.Some? && t.value.kind == DiagResult;
      WriteThenDispatch(Finishing(if diagnostic then collected else t, true, |pending|, o.world), o, wire);
    }

    // ---- the request switch ----

    method HandleEmpty(o: Outside, wire: Wire)
      requires o.Consistent()
      modifies this, wire
      ensures var r := OnEmpty(old(State()), o.world);
        && State() == r.sess && Owned(old(wan), wan)
        && wire.sent == old(wire.sent) + [r.reply] && wire.writes == old(wire.writes) + r.writes
    {
      if summon == 1 {
        wire.sent := wire.sent + [GetNames(RootPath(schema, gear.mapper))];
      } else if summon == 3 {
        summon := 4;
        wire.sent := wire.sent + [GetValues(targets)];
      } else if wan != null {
        ResumeWan(o, wire);
      } else if current.Some? {
        DispatchTask(current.value, true, o, wire);
      } else {
        DispatchNextOrClose(o, wire);
      }
    }

    method ResumeWan(o: Outside, wire: Wire)
      requires o.Consistent() && wan != null && summon != 1 && summon != 3
      modifies this, wire
      ensures var r := OnEmpty(old(State()), o.world);
        && State() == r.sess && Owned(old(wan), wan)
        && wire.sent == old(wire.sent) + [r.reply] && wire.writes == old(wire.writes) + r.writes
    {
      var p, _ := wan.BuildCurrentXml();
      if p.Next? {
        wire.sent := wire.sent + [p.request];
      } else {
        DropWan();
        HandleTaskResponse([], false, o, wire);
      }
    }

    /** One HTTP request: whatever it carries and whatever fails meanwhile, the handler
        returns having written exactly one reply. */
    method ServeHttp(r: Request, o: Outside, wire: Wire)
      requires o.Consistent()
      modifies Repr(), wire
      ensures var outcome := Serve(old(State()), r, o.world);
        && State() == outcome.sess && Owned(old(wan), wan)
        && wire.sent == old(wire.sent) + [outcome.reply] && wire.writes == old(wire.writes) + outcome.writes
    {
      StaysConsistent(o, gear);
      ServeFacing(r, o.Facing(gear), wire);
    }

    /** The switch, once it is clear what mapper and driver the session has. */
    method ServeFacing(r: Request, o: Outside, wire: Wire)
      requires o.Consistent()
      modifies Repr(), wire
      ensures var outcome := ServeIn(old(State()), r, o.world);
        && State() == outcome.sess && Owned(old(wan), wan)
        && wire.sent == old(wire.sent) + [outcome.reply] && wire.writes == old(wire.writes) + outcome.writes
    {
      match r {
        case Empty => HandleEmpty(o, wire);
        case SetParamsResponse => HandleSetParamValuesResponse(o, wire);
        case NamesResponse(all) => HandleGetParameterNamesResponse(all, o, wire);
        case ValuesResponse(ps, collected) => HandleGetParamValuesResponse(ps, collected, o, wire);
        case RebootResponse => HandleTaskResponse([], true, o, wire);
        case FactoryResetResponse => HandleTaskResponse([], true, o, wire);
        case DownloadResponse(async) => HandleDownloadResponse(async, o, wire);
        case AddObjectResponse(n) => HandleAddObjectResponse(n, o, wire);
        case DeleteObjectResponse => HandleDeleteObjectResponse(o, wire);
        case Fault => HandleFault(o, wire);
        case _ => ServeAside(r, o, wire);
      }
    }

    /** Requests that leave the session as it is. */
    method ServeAside(r: Request, o: Outside, wire: Wire)
      requires r.Unreadable? || r.Unparsable? || r.GetRpcMethods? || r.TransferComplete? || r.Unrecognised?
      modifies wire
      ensures var outcome := ServeIn(old(State()), r, o.world);
        && outcome.sess == old(State())
        && wire.sent == old(wire.sent) + [outcome.reply] && wire.writes == old(wire.writes) + outcome.writes
    {
      var reply := match r
        case Unreadable => HttpError
        case Unparsable => SoapFault
        case GetRpcMethods => RpcMethods
        case TransferComplete(_, _) => TransferCompleteResponse
        case _ => NoContent;
      if r.TransferComplete? {
        wire.writes := wire.writes + Finishing(r.found, !r.fault, |pending|, o.world);
      }
      wire.sent := wire.sent + [reply];
    }
  }
}
