/** What one CWMP request does to a session: the new session state, the one HTTP reply, and
    the writes handed to the task queue and the parameter store.

    SOAP bodies are replaced by the RPC they carry. Whatever the handler learns from the
    outside while it runs (Redis failures, the outcome of building a task's RPC, default
    tasks to inject) is a World. */
module CwmpSpec {
  import opened GoStrings
  import opened Templates
  import opened Provisioning
  import opened Tasks

  /** Everything executeTask can do with a task. */
  datatype Build =
    | BuildFails
    | Sends(setParams: Option<map<string, string>>, creds: Option<map<string, string>>)
    | Provisions(start: Exec, wanCreds: map<string, string>)
    | AddsThenSets

  /** What the global default parameters ask for: there are none, the CPE has them already, or
      a task that sets them. */
  datatype Globals = NoGlobals | Matching | Pushing(task: Task)

  /** What a session knows of its device: the schema its mapper was made from, if it has one, and whether it has the
      driver. */
  datatype Gear = Gear(mapper: Option<string>, driver: bool)

  /** markOk: whether the store takes the status write of a dispatch. endOk: whether it takes the
      write of a task that has ended. built: what building the RPC of a task does, for a session
      that knows so much of its device; build: the same for the session at hand. These are asked
      about a task together with the length of the queue behind it, so that equal tasks may fare
      differently. defaults: the task the driver's default parameters call for. provisioned:
      whether the store holds the provisioning mark of the device. */
  datatype World = World(
    markOk: (Task, nat) -> bool,
    endOk: (Task, nat) -> bool,
    built: Gear -> ((Task, nat) -> Build),
    build: (Task, nat) -> Build,
    defaults: Option<Task>,
    globals: Globals,
    provisioned: bool)

  /** The world as a session meets it. */
  function Facing(w: World, gear: Gear): World {
    w.(build := w.built(gear))
  }

  datatype Reply =
    | NoContent
    | HttpError
    | SoapFault
    | InformResponse
    | RpcMethods
    | TransferCompleteResponse
    | TaskRequest(task: Task)
    | FollowUp(parent: Option<Task>, instance: int)
    /** The step of a provisioning flow under the bindings known so far; its body is a
        resolution of step under vars. */
    | StepRequest(step: Step, vars: Vars)
    /** All names below the root object of the data model. */
    | GetNames(root: string)
    | GetValues(names: seq<string>)

  /** ok tells whether the queue took the write. */
  datatype Write = StatusOf(task: Task, ok: bool) | SaveParams(params: map<string, string>)

  datatype Lifecycle = New | Processing | Closed

  /** summon: 0 idle, 1 names wanted, 2 batches running, 3 targeted wanted, 4 targeted sent.
      refresh: the targeted summon refreshes the stored parameters. needs: global defaults are
      still to be applied. schema: the one of the last summon that was scheduled. gear: mapper and
      driver. */
  datatype Sess = Sess(
    lifecycle: Lifecycle,
    pending: seq<Task>,
    current: Option<Task>,
    wan: Option<Exec>,
    followUp: bool,
    setParams: map<string, string>,
    creds: map<string, string>,
    provisionMark: bool,
    summon: nat,
    schema: string,
    names: seq<string>,
    batch: nat,
    params: map<string, string>,
    targets: seq<string>,
    refresh: bool,
    bootstrap: bool,
    needs: bool,
    gear: Gear)

  const FRESH_SESS :=
    Sess(New, [], None, None, false, map[], map[], false, 0, "", [], 0, map[], [], false, false, false,
         Gear(None, false))

  datatype Attempted = Attempted(sess: Sess, request: Option<Reply>, writes: seq<Write>)

  datatype Outcome = Outcome(sess: Sess, reply: Reply, writes: seq<Write>)

  datatype Request =
    | Unreadable
    | Empty
    | Unparsable
    | GetRpcMethods
    | TransferComplete(found: Option<Task>, fault: bool)
    | SetParamsResponse
    | NamesResponse(names: seq<string>)
    | ValuesResponse(params: map<string, string>, collected: Option<Task>)
    | RebootResponse
    | FactoryResetResponse
    | DownloadResponse(async: bool)
    | AddObjectResponse(instance: int)
    | DeleteObjectResponse
    | Fault
    | Unrecognised

  // ---- dispatching ----

  function Logged(writes: seq<Write>, o: Outcome): Outcome {
    o.(writes := writes + o.writes)
  }

  /** The task as dispatchTask marks it; collection tasks are never stored. */
  function Marked(t: Task): Task {
    if t.kind == DiagResult then t else t.(status := Executing, attempts := t.attempts + 1)
  }

  function FailedTask(t: Task): Task {
    if t.kind == DiagResult then t else t.(status := Failed)
  }

  function StatusWrites(t: Task, ok: bool): seq<Write> {
    if t.kind == DiagResult then [] else [StatusOf(t, ok)]
  }

  function Ask(e: Exec): Reply
    requires !e.Done()
  {
    StepRequest(e.Current(), e.vars)
  }

  function DispatchNext(s: Sess, w: World): Outcome
    decreases |s.pending|, 0
  {
    if s.pending == [] then Outcome(s.(lifecycle := Closed), NoContent, [])
    else DispatchTask(s.(pending := s.pending[1..]), s.pending[0], false, w)
  }

  /** executeTask: what building the RPC of a task does to the session, and the request to
      send, or None when it fails. A flow without an active step fails after the session has
      taken over the provision. */
  function Execute(s: Sess, t: Task, b: Build): (r: (Sess, Option<Reply>))
    ensures r.0.pending == s.pending && r.0.summon == s.summon && r.0.lifecycle == s.lifecycle
    ensures r.1.None? <==> b.BuildFails? || (b.Provisions? && b.start.Done())
    ensures r.1.Some? ==> r.0.current == Some(t)
  {
    match b
    case BuildFails => (s, None)
    case Sends(ps, creds) => (s.(current := Some(t), setParams := ps.Or(s.setParams), creds := creds.Or(s.creds)),
      Some(TaskRequest(t)))
    case AddsThenSets => (s.(current := Some(t), followUp := true), Some(TaskRequest(t)))
    case Provisions(e, creds) =>
      (s.(current := Some(t), wan := Some(e), creds := creds), if e.Done() then None else Some(Ask(e)))
  }

  /** One task marked as executing and its RPC built. own says that t is the very task the
      session holds as current, so that changes to it show there even on failure. */
  function Attempt(s: Sess, t: Task, own: bool, w: World): (a: Attempted)
    ensures a.sess.pending == s.pending && a.sess.summon == s.summon && a.sess.lifecycle == s.lifecycle
    ensures a.request.Some? ==> a.sess.current == Some(Marked(t)) && a.writes == StatusWrites(Marked(t), true)
  {
    var t', n := Marked(t), |s.pending|;
    if t.kind != DiagResult && !w.markOk(t, n) then
      Attempted(if own then s.(current := Some(t')) else s, None, StatusWrites(t', false))
    else
      var (s', request) := Execute(s, t', w.build(t, n));
      var t'' := FailedTask(t');
      if request.Some? then Attempted(s', request, StatusWrites(t', true))
      else
        Attempted(if own || w.build(t, n).Provisions? then s'.(current := Some(t'')) else s', None,
                  StatusWrites(t', true) + StatusWrites(t'', w.endOk(t'', n)))
  }

  function DispatchTask(s: Sess, t: Task, own: bool, w: World): Outcome
    decreases |s.pending|, 1
  {
    var a := Attempt(s, t, own, w);
    if a.request.Some? then Outcome(a.sess, a.request.value, a.writes)
    else Logged(a.writes, DispatchNext(a.sess, w))
  }

  function Ended(t: Task, ok: bool): Task {
    t.(status := if ok then Completed else Failed)
  }

  /** The write that ends a task, with n tasks waiting. */
  function Finishing(current: Option<Task>, ok: bool, n: nat, w: World): seq<Write> {
    match current
    case None => []
    case Some(t) => [StatusOf(Ended(t, ok), w.endOk(Ended(t, ok), n))]
  }

  /** handleTaskResponse: complete the task in flight, after the given store writes, and go on. */
  function FinishTask(s: Sess, saved: seq<Write>, ok: bool, w: World): Outcome {
    Logged(saved + Finishing(s.current, ok, |s.pending|, w), DispatchNext(s.(current := None), w))
  }

  // ---- replies to ACS requests ----

  function Saves(params: map<string, string>): seq<Write> {
    if params == map[] then [] else [SaveParams(params)]
  }

  const PROVISIONED_MARK: map<string, string> := map["_helix.provisioned" := "true"]

  /** What is stored once the CPE has accepted a SetParameterValues. */
  function SyncWrites(setParams: map<string, string>, mark: bool, creds: map<string, string>): seq<Write> {
    Saves(setParams) + (if mark then [SaveParams(PROVISIONED_MARK)] else []) + Saves(creds)
  }

  function OnWanSetParams(s: Sess, e: Exec, w: World): Outcome {
    var e' := e.Advance();
    if e'.Done() then FinishTask(s.(wan := None, creds := map[]), Saves(s.creds), true, w)
    else Outcome(s.(wan := Some(e')), Ask(e'), [])
  }

  function SyncAndFinish(s: Sess, w: World): Outcome {
    FinishTask(s.(setParams := map[], creds := map[], provisionMark := false),
               SyncWrites(s.setParams, s.provisionMark, s.creds), true, w)
  }

  /** Parameters that were sent are stored before the task is reported done. An async
      diagnostic has only started and stays executing. */
  function OnPlainSetParams(s: Sess, w: World): Outcome {
    if s.current.Some? && s.current.value.kind == AsyncDiagnostic then DispatchNext(s.(current := None), w)
    else SyncAndFinish(s, w)
  }

  function OnSetParams(s: Sess, w: World): Outcome {
    if s.wan.Some? then OnWanSetParams(s, s.wan.value, w) else OnPlainSetParams(s, w)
  }

  function OnAddObject(s0: Sess, instance: int, w: World): Outcome {
    var s := s0.(followUp := false);
    match s.wan
    case Some(e) =>
      if e.Done() || e.Current().kind != AddObject then FinishTask(s.(wan := None), [], false, w)
      else
        var e' := e.AdvanceAddObject(Itoa(instance));
        if e'.Done() then FinishTask(s.(wan := None), [], true, w)
        else Outcome(s.(wan := Some(e')), Ask(e'), [])
    case None =>
      if s0.followUp then Outcome(s, FollowUp(s.current, instance), []) else FinishTask(s, [], true, w)
  }

  function OnDeleteObject(s: Sess, w: World): Outcome {
    match s.wan
    case Some(e) =>
      var e' := e.Advance();
      if e'.Done() then FinishTask(s.(wan := None), [], true, w)
      else Outcome(s.(wan := Some(e')), Ask(e'), [])
    case None => FinishTask(s, [], true, w)
  }

  function OnDownload(s: Sess, async: bool, w: World): Outcome {
    if !async then FinishTask(s, [], true, w)
    else if s.pending == [] then Outcome(s, NoContent, [])
    else DispatchTask(s.(pending := s.pending[1..]), s.pending[0], false, w)
  }

  function OnFault(s: Sess, w: World): Outcome {
    FinishTask(s.(wan := None, followUp := false), [], false, w)
  }

  // ---- parameter summons ----

  // the data model of a schema

  predicate NamesTr098(schema: string) {
    Contains(ToLower(schema), "tr098")
  }

  /** The last segment of a schema name. */
  function BaseModel(schema: string): string
    decreases |schema|
  {
    var k := IndexOf(schema, '/');
    if k < |schema| then BaseModel(schema[k + 1..]) else schema
  }

  const ROOT_TR098 := "InternetGatewayDevice."

  const ROOT_TR181 := "Device."

  /** The mapper is asked when the schema does not say TR-098. */
  function RootPath(schema: string, mapper: Option<string>): string {
    if NamesTr098(schema) || IsTr098(mapper) then ROOT_TR098 else ROOT_TR181
  }

  predicate IsTr098(mapper: Option<string>) {
    mapper.Some? && Contains(BaseModel(mapper.value), "tr098")
  }

  function BatchSize(schema: string): nat {
    if NamesTr098(schema) then 5000 else 500
  }

  /** Batch idx of the name list. */
  function Batch(names: seq<string>, size: nat, idx: nat): seq<string>
    requires idx * size <= |names|
  {
    if idx * size + size > |names| then names[idx * size..] else names[idx * size..idx * size + size]
  }

  function LeafNames(names: seq<string>): seq<string> {
    if names == [] then []
    else if HasSuffix(names[|names| - 1], ".") then LeafNames(names[..|names| - 1])
    else LeafNames(names[..|names| - 1]) + [names[|names| - 1]]
  }

  // ---- default parameters ----

  /** Whether the global defaults are looked at: after a bootstrap, while they are still to be
      applied, or on a device without the provisioning mark. */
  predicate Applies(s: Sess, w: World) {
    w.globals != NoGlobals && (s.bootstrap || s.needs || !w.provisioned)
  }

  function GlobalTasks(s: Sess, w: World): seq<Task> {
    if Applies(s, w) && w.globals.Pushing? then [w.globals.task] else []
  }

  /** A device that has the global defaults already is marked as provisioned at once. */
  function MarkWrites(s: Sess, w: World): seq<Write> {
    if Applies(s, w) && w.globals.Matching? then [SaveParams(PROVISIONED_MARK)] else []
  }

  function DriverTasks(s: Sess, w: World): seq<Task> {
    if s.gear.driver && w.defaults.Some? then [w.defaults.value] else []
  }

  /** The tasks for default parameters that follow a summon: the global ones first. */
  function Extra(s: Sess, w: World): seq<Task> {
    GlobalTasks(s, w) + DriverTasks(s, w)
  }

  /** The session after the global defaults have been looked at, with tasks in front of its queue. */
  function Inject(s: Sess, tasks: seq<Task>, w: World): Sess {
    s.(pending := tasks + s.pending, provisionMark := s.provisionMark || GlobalTasks(s, w) != [],
       needs := s.needs && !Applies(s, w))
  }

  // ---- parameter summons, continued ----

  /** A summon brings a mapper, but no driver. */
  function Known(s: Sess): Gear {
    Gear(Some(s.schema), s.gear.driver)
  }

  function Learned(s: Sess): Sess {
    s.(gear := Known(s))
  }

  /** Add the default parameters and go on. */
  function GoOnWithDefaults(s: Sess, w: World): Outcome {
    Logged(MarkWrites(s, w), DispatchNext(Inject(s, Extra(s, w), w), w))
  }

  /** The values are in: store them, then look at the default parameters. */
  function EndSummon(s: Sess, params: map<string, string>, w: World): Outcome {
    Logged([SaveParams(params)], GoOnWithDefaults(Learned(s), Facing(w, Known(s))))
  }

  function SendBatch(s: Sess, w: World): Outcome {
    var size := BatchSize(s.schema);
    if s.batch * size >= |s.names| then EndSummon(s.(summon := 0, names := [], params := map[]), s.params, w)
    else Outcome(s, GetValues(Batch(s.names, size, s.batch)), [])
  }

  function OnNames(s: Sess, all: seq<string>, w: World): Outcome {
    var names := LeafNames(all);
    if names == [] then DispatchNext(s.(summon := 0), w)
    else SendBatch(s.(summon := 2, names := names, batch := 0, params := map[]), w)
  }

  /** The task in flight asked for these values; a collection task completes the diagnostic
      it was created for. */
  function OnRead(s: Sess, collected: Option<Task>, w: World): Outcome {
    var diagnostic := s.current.Some? && s.current.value.kind == DiagResult;
    Logged(Finishing(if diagnostic then collected else s.current, true, |s.pending|, w),
      DispatchNext(s.(current := None), w))
  }

  /** A targeted summon that only looks up instances stores nothing. */
  function OnTargeted(s: Sess, params: map<string, string>, w: World): Outcome {
    var idle := s.(summon := 0, targets := [], refresh := false);
    if s.refresh then EndSummon(idle, params, w) else DispatchNext(Learned(idle), Facing(w, Known(s)))
  }

  function OnValues(s: Sess, params: map<string, string>, collected: Option<Task>, w: World): Outcome {
    if s.summon == 2 then SendBatch(s.(params := s.params + params, batch := s.batch + 1), w)
    else if s.summon == 4 then OnTargeted(s, params, w)
    else OnRead(s, collected, w)
  }

  // ---- the empty POST and the request switch ----

  function OnEmpty(s: Sess, w: World): Outcome {
    if s.summon == 1 then Outcome(s, GetNames(RootPath(s.schema, s.gear.mapper)), [])
    else if s.summon == 3 then Outcome(s.(summon := 4), GetValues(s.targets), [])
    else if s.wan.Some? then
      if s.wan.value.Done() then FinishTask(s.(wan := None), [], false, w)
      else Outcome(s, Ask(s.wan.value), [])
    else if s.current.Some? then DispatchTask(s, s.current.value, true, w)
    else DispatchNext(s, w)
  }

  function Serve(s: Sess, r: Request, w: World): Outcome {
    ServeIn(s, r, Facing(w, s.gear))
  }

  /** The request switch, in the world as the session meets it. */
  function ServeIn(s: Sess, r: Request, w: World): Outcome {
    match r
    case Unreadable => Outcome(s, HttpError, [])
    case Empty => OnEmpty(s, w)
    case Unparsable => Outcome(s, SoapFault, [])
    case GetRpcMethods => Outcome(s, RpcMethods, [])
    case TransferComplete(found, fault) =>
      Outcome(s, TransferCompleteResponse, Finishing(found, !fault, |s.pending|, w))
    case SetParamsResponse => OnSetParams(s, w)
    case NamesResponse(names) => OnNames(s, names, w)
    case ValuesResponse(params, collected) => OnValues(s, params, collected, w)
    case RebootResponse => FinishTask(s, [], true, w)
    case FactoryResetResponse => FinishTask(s, [], true, w)
    case DownloadResponse(async) => OnDownload(s, async, w)
    case AddObjectResponse(n) => OnAddObject(s, n, w)
    case DeleteObjectResponse => OnDeleteObject(s, w)
    case Fault => OnFault(s, w)
    case Unrecognised => Outcome(s, NoContent, [])
  }

  // ---- Inform ----

  /** What handleInform learns: whether this is a bootstrap, whether the device record was stored,
      whether a full summon was requested, the targeted summon paths if one is due and whether it
      is a refresh, the schema of the device, and the tasks to run. */
  datatype Informed = Informed(
    bootstrap: bool, stored: bool, fullSummon: bool, targets: seq<string>, refresh: bool, schema: string,
      tasks: seq<Task>)

  function Targeted(s: Sess, inf: Informed): Sess {
    if inf.targets == [] then s
    else s.(summon := 3, targets := inf.targets, refresh := inf.refresh, schema := inf.schema)
  }

  /** The session with its tasks, before global defaults are looked at. */
  function Tasked(s: Sess, inf: Informed, w: World): Sess {
    Targeted(s, inf).(pending := inf.tasks, lifecycle := Processing, gear := Gear(Some(inf.schema), true),
                      needs := s.needs || inf.bootstrap || !w.provisioned)
  }

  /** The part of handleInform after adoption. */
  function OnInform(s0: Sess, inf: Informed, w: World): Outcome {
    var s := s0.(bootstrap := inf.bootstrap);
    if !inf.stored then Outcome(s, SoapFault, [])
    else if inf.fullSummon then DispatchNext(s.(summon := 1, schema := inf.schema), Facing(w, s.gear))
    else
      var t := Tasked(s, inf, w);
      Outcome(Inject(t, GlobalTasks(t, w), w), InformResponse, MarkWrites(t, w))
  }

  // ---- a full summon asked for through the API ----

  /** TriggerFullSummon on the session bound to the device: it is marked whatever it is doing, unless it is closed. */
  function Triggered(s: Sess): Sess {
    if s.lifecycle.Closed? then s else s.(summon := 1)
  }

  // ---- adoption when the CPE rotates its session ----

  predicate Busy(s: Sess) {
    s.current.Some? || s.wan.Some? || s.followUp
  }

  /** The state of the previous session after handing over. */
  function Emptied(prev: Sess): Sess {
    prev.(current := None, wan := None, followUp := false, setParams := map[], provisionMark := false, creds := map[])
  }

  /** What the current session takes over from a busy previous one. */
  function Inherit(prev: Sess, cur: Sess): Sess {
    if cur.current.Some? then cur
    else cur.(current := prev.current, wan := prev.wan, followUp := prev.followUp,
              provisionMark := cur.provisionMark || prev.provisionMark,
              setParams := if prev.setParams == map[] then cur.setParams else prev.setParams,
              creds := if prev.creds == map[] then cur.creds else prev.creds)
  }

  /** A session under a fresh id once it has taken over what is in flight. */
  function Adopted(prev: Sess): Sess {
    AdoptedBy(prev, FRESH_SESS)
  }

  function AdoptedBy(prev: Sess, cur: Sess): Sess {
    if Busy(prev) then Inherit(prev, cur) else cur
  }
}
