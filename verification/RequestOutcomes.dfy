/** What each request leads to, told by the records that are stored and the answers that are sent. */
module RequestOutcomes {
  import opened GoStrings
  import opened Provisioning
  import opened CwmpSpec
  import opened CwmpProtocol
  import opened Tasks

  // ---- replies that end a task ----

  function EndsAs(t: Task, end: Status, n: nat, w: World): Write {
    StatusOf(t.(status := end), w.endOk(t.(status := end), n))
  }

  lemma FinishedFirst(s: Sess, t: Task, ok: bool, w: World)
    requires s.current == Some(t)
    ensures var o := FinishTask(s, [], ok, w);
      && o.writes != [] && o.writes[0] == EndsAs(t, if ok then Completed else Failed, |s.pending|, w)
      && Settles(o, s, FirstRunnable(s.pending, w), w)
  {
    FinishThenNext(s, [], ok, w);
    assert [] + Finishing(s.current, ok, |s.pending|, w) == Finishing(s.current, ok, |s.pending|, w);
  }

  /** Rebooted, reset, downloaded, deleted or added: the task in flight is stored as completed before anything else, and
      the first task that can run starts. */
  lemma AcknowledgedTaskCompletes(s: Sess, t: Task, r: Request, w: World)
    requires s.current == Some(t)
    requires r.RebootResponse? || r.FactoryResetResponse? || r == DownloadResponse(false)
      || (r.DeleteObjectResponse? && s.wan.None?) || (r.AddObjectResponse? && s.wan.None? && !s.followUp)
    ensures var o := ServeIn(s, r, w);
      && o.writes != []
      && o.writes[0] == StatusOf(t.(status := Completed), w.endOk(t.(status := Completed), |s.pending|))
      && Settles(o, s, FirstRunnable(s.pending, w), w)
  {
    FinishedFirst(s, t, true, w);
    if r.AddObjectResponse? { assert s.(followUp := false) == s; }
  }

  /** A fault: it is stored as failed. */
  lemma FaultyTaskFails(s: Sess, t: Task, w: World)
    requires s.current == Some(t)
    ensures var o := ServeIn(s, Fault, w);
      && o.writes != []
      && o.writes[0] == StatusOf(t.(status := Failed), w.endOk(t.(status := Failed), |s.pending|))
      && Settles(o, s, FirstRunnable(s.pending, w), w)
  {
    FinishedFirst(s.(wan := None, followUp := false), t, false, w);
  }

  /** Without a task in flight there is nothing to store. */
  lemma NoTaskNoVerdict(s: Sess, r: Request, w: World)
    requires s.current == None && s.wan.None? && !s.followUp
    requires r.RebootResponse? || r.FactoryResetResponse? || r == DownloadResponse(false) || r.DeleteObjectResponse?
      || r.AddObjectResponse? || r.Fault?
    ensures ServeIn(s, r, w) == DispatchNext(s, w)
  {
    assert s.(followUp := false) == s && s.(wan := None, followUp := false) == s && s.(current := None) == s;
    var o := DispatchNext(s, w);
    assert [] + [] + o.writes == o.writes;
  }

  /** A transfer that is reported from outside any task in flight is stored as completed, or as failed with a fault; the
      session stays as it is. */
  lemma TransferIsRecorded(s: Sess, found: Option<Task>, fault: bool, w: World)
    ensures var o, end := ServeIn(s, TransferComplete(found, fault), w), if fault then Failed else Completed;
      && o.sess == s && o.reply == TransferCompleteResponse
      && o.writes == if found.None? then []
                     else [StatusOf(found.value.(status := end), w.endOk(found.value.(status := end), |s.pending|))]
  {
  }

  /** Requests that have nothing to do with a task. */
  lemma OtherRequests(s: Sess, w: World)
    ensures ServeIn(s, Unreadable, w) == Outcome(s, HttpError, [])
    ensures ServeIn(s, Unparsable, w) == Outcome(s, SoapFault, [])
    ensures ServeIn(s, GetRpcMethods, w) == Outcome(s, RpcMethods, [])
    ensures ServeIn(s, Unrecognised, w) == Outcome(s, NoContent, [])
  {
  }

  /** Values that no summon asked for: a read task is completed; the collection of a diagnostic completes the
      diagnostic, if it is still on record. */
  lemma ReadTaskCompletes(s: Sess, t: Task, params: map<string, string>, collected: Option<Task>, w: World)
    requires s.summon != 2 && s.summon != 4 && s.current == Some(t)
    ensures var o := ServeIn(s, ValuesResponse(params, collected), w);
      var ended := if t.kind == DiagResult then collected else Some(t);
      && Settles(o, s, FirstRunnable(s.pending, w), w)
      && (ended.Some? ==>
            && o.writes != []
            && o.writes[0] ==
               StatusOf(ended.value.(status := Completed), w.endOk(ended.value.(status := Completed), |s.pending|)))
      && (ended.None? ==> o.writes == DispatchNext(s.(current := None), w).writes)
  {
    DispatchPicksFirstRunnable(s.(current := None), w);
    var o := DispatchNext(s.(current := None), w);
    assert [] + o.writes == o.writes;
  }

  // ---- requests that fail or are repeated ----

  function Executed(t: Task): Task {
    t.(status := Executing, attempts := t.attempts + 1)
  }

  /** A session without an active step left, and a number that comes for a step that adds nothing: the provision is
      given up and its task is stored as failed. */
  lemma RefusedStepFails(s: Sess, t: Task, e: Exec, r: Request, w: World)
    requires s.wan == Some(e) && s.current == Some(t)
    requires (r.AddObjectResponse? && (e.Done() || e.Current().kind != AddObject))
      || (r.Empty? && e.Done() && s.summon != 1 && s.summon != 3)
    ensures var o := ServeIn(s, r, w);
      && o.writes != []
      && o.writes[0] == StatusOf(t.(status := Failed), w.endOk(t.(status := Failed), |s.pending|))
      && Settles(o, s, FirstRunnable(s.pending, w), w)
      && (FirstRunnable(s.pending, w) == |s.pending| && OffersSteps(s.pending, w) ==>
            o.sess.current == None && o.sess.wan == None)
  {
    var s' := s.(wan := None, followUp := if r.AddObjectResponse? then false else s.followUp);
    RefusedIs(s, e, r, w);
    FinishedFirst(s', t, false, w);
    if OffersSteps(s.pending, w) { NothingRuns(s'.(current := None), w); }
  }

  lemma RefusedIs(s: Sess, e: Exec, r: Request, w: World)
    requires s.wan == Some(e)
    requires (r.AddObjectResponse? && (e.Done() || e.Current().kind != AddObject))
      || (r.Empty? && e.Done() && s.summon != 1 && s.summon != 3)
    ensures ServeIn(s, r, w) ==
      FinishTask(s.(wan := None, followUp := if r.AddObjectResponse? then false else s.followUp), [], false, w)
  {
    assert s.(followUp := s.followUp) == s;
  }

  /** An empty POST while a task is in flight sends the request of that task again, with one attempt more. */
  lemma EmptyPostRepeats(s: Sess, t: Task, w: World)
    requires s.summon != 1 && s.summon != 3 && s.wan.None? && s.current == Some(t) && t.kind != DiagResult
    requires w.markOk(t, |s.pending|) && w.build(t, |s.pending|).AddsThenSets?
    ensures ServeIn(s, Empty, w) ==
      Outcome(s.(current := Some(Executed(t)), followUp := true), TaskRequest(Executed(t)),
              [StatusOf(Executed(t), true)])
  {
    assert ServeIn(s, Empty, w) == DispatchTask(s, t, true, w);
    assert Marked(t) == Executed(t);
  }

  /** A task whose request cannot be built is stored as executing and then as failed, and the next one is tried. */
  lemma UnbuildableTaskFails(s: Sess, t: Task, w: World)
    requires s.pending != [] && s.pending[0] == t && t.kind != DiagResult
    requires w.markOk(t, |s.pending| - 1) && w.build(t, |s.pending| - 1).BuildFails?
    ensures var failed := Executed(t).(status := Failed);
      DispatchNext(s, w) ==
        Logged([StatusOf(Executed(t), true), StatusOf(failed, w.endOk(failed, |s.pending| - 1))],
               DispatchNext(s.(pending := s.pending[1..]), w))
  {
    var rest := s.(pending := s.pending[1..]);
    AttemptUnbuildable(rest, t, w);
  }

  lemma AttemptUnbuildable(s: Sess, t: Task, w: World)
    requires t.kind != DiagResult && w.markOk(t, |s.pending|) && w.build(t, |s.pending|).BuildFails?
    ensures var failed := Executed(t).(status := Failed);
      Attempt(s, t, false, w) ==
        Attempted(s, None, [StatusOf(Executed(t), true), StatusOf(failed, w.endOk(failed, |s.pending|))])
  {
  }

  /** The same for the task in flight: the session goes on with the failed task until another one takes its place. */
  lemma UnbuildableStaysCurrent(s: Sess, t: Task, w: World)
    requires s.summon != 1 && s.summon != 3 && s.wan.None? && s.current == Some(t) && t.kind != DiagResult
    requires w.markOk(t, |s.pending|) && w.build(t, |s.pending|).BuildFails?
    ensures var failed := Executed(t).(status := Failed);
      ServeIn(s, Empty, w) ==
        Logged([StatusOf(Executed(t), true), StatusOf(failed, w.endOk(failed, |s.pending|))],
               DispatchNext(s.(current := Some(failed)), w))
  {
    RetryUnbuildable(s, t, w);
  }

  lemma RetryUnbuildable(s: Sess, t: Task, w: World)
    requires t.kind != DiagResult && w.markOk(t, |s.pending|) && w.build(t, |s.pending|).BuildFails?
    ensures var failed := Executed(t).(status := Failed);
      Attempt(s, t, true, w) ==
        Attempted(s.(current := Some(failed)), None,
                  [StatusOf(Executed(t), true), StatusOf(failed, w.endOk(failed, |s.pending|))])
  {
  }

  /** A task in flight the store does not mark again is kept, with the attempt counted, and the next one is tried. */
  lemma UnmarkedStaysCurrent(s: Sess, t: Task, w: World)
    requires s.summon != 1 && s.summon != 3 && s.wan.None? && s.current == Some(t) && t.kind != DiagResult
    requires !w.markOk(t, |s.pending|)
    ensures ServeIn(s, Empty, w) ==
      Logged([StatusOf(Executed(t), false)], DispatchNext(s.(current := Some(Executed(t))), w))
  {
    assert Attempt(s, t, true, w) == Attempted(s.(current := Some(Executed(t))), None, [StatusOf(Executed(t), false)]);
  }

  /** A provision none of whose steps applies is stored as failed after the session has taken it over. */
  lemma FlowWithoutSteps(s: Sess, t: Task, e: Exec, cs: map<string, string>, w: World)
    requires s.pending != [] && s.pending[0] == t && t.kind != DiagResult && e.Done()
    requires w.markOk(t, |s.pending| - 1) && w.build(t, |s.pending| - 1) == Provisions(e, cs)
    ensures var failed := Executed(t).(status := Failed);
      DispatchNext(s, w) ==
        Logged([StatusOf(Executed(t), true), StatusOf(failed, w.endOk(failed, |s.pending| - 1))],
               DispatchNext(s.(pending := s.pending[1..], current := Some(failed), wan := Some(e), creds := cs), w))
  {
    AttemptWithoutSteps(s.(pending := s.pending[1..]), t, e, cs, w);
  }

  lemma AttemptWithoutSteps(s: Sess, t: Task, e: Exec, cs: map<string, string>, w: World)
    requires t.kind != DiagResult && e.Done() && w.markOk(t, |s.pending|)
    requires w.build(t, |s.pending|) == Provisions(e, cs)
    ensures var failed := Executed(t).(status := Failed);
      Attempt(s, t, false, w) ==
        Attempted(s.(current := Some(failed), wan := Some(e), creds := cs), None,
                  [StatusOf(Executed(t), true), StatusOf(failed, w.endOk(failed, |s.pending|))])
  {
    var failed := Executed(t).(status := Failed);
    assert s.(current := Some(Executed(t)), wan := Some(e), creds := cs).(current := Some(failed)) ==
      s.(current := Some(failed), wan := Some(e), creds := cs);
  }

  /** A task the store does not mark is not sent. */
  lemma UnmarkedTaskIsSkipped(s: Sess, t: Task, w: World)
    requires s.pending != [] && s.pending[0] == t && t.kind != DiagResult && !w.markOk(t, |s.pending| - 1)
    ensures DispatchNext(s, w) == Logged([StatusOf(Executed(t), false)], DispatchNext(s.(pending := s.pending[1..]), w))
  {
    AttemptUnmarked(s.(pending := s.pending[1..]), t, w);
  }

  lemma AttemptUnmarked(s: Sess, t: Task, w: World)
    requires t.kind != DiagResult && !w.markOk(t, |s.pending|)
    ensures Attempt(s, t, false, w) == Attempted(s, None, [StatusOf(Executed(t), false)])
  {
  }

  /** The collection of a diagnostic is sent as it is and never stored. */
  lemma CollectionIsNotStored(s: Sess, t: Task, w: World)
    requires s.pending != [] && s.pending[0] == t && t.kind == DiagResult
    ensures w.build(t, |s.pending| - 1) == Sends(None, None) ==>
      DispatchNext(s, w) == Outcome(s.(pending := s.pending[1..], current := Some(t)), TaskRequest(t), [])
    ensures w.build(t, |s.pending| - 1).BuildFails? ==>
      DispatchNext(s, w) == DispatchNext(s.(pending := s.pending[1..]), w)
  {
    var rest := s.(pending := s.pending[1..]);
    AttemptCollection(rest, t, w);
    var o := DispatchNext(rest, w);
    assert [] + o.writes == o.writes;
  }

  lemma AttemptCollection(s: Sess, t: Task, w: World)
    requires t.kind == DiagResult
    ensures w.build(t, |s.pending|) == Sends(None, None) ==>
      Attempt(s, t, false, w) == Attempted(s.(current := Some(t)), Some(TaskRequest(t)), [])
    ensures w.build(t, |s.pending|).BuildFails? ==> Attempt(s, t, false, w) == Attempted(s, None, [])
  {
  }

  // ---- what was sent is what is stored ----

  /** The acknowledgement of a plain SetParameterValues stores, in this order, the parameters, the mark of a device that
      got its global defaults, the credentials, and then the task as completed. */
  lemma SetStoresInOrder(s: Sess, t: Task, w: World)
    requires s.wan.None? && s.current == Some(t) && t.kind != AsyncDiagnostic
    ensures var o := ServeIn(s, SetParamsResponse, w);
      && (if s.setParams == map[] then [] else [SaveParams(s.setParams)])
         + (if s.provisionMark then [SaveParams(map["_helix.provisioned" := "true"])] else [])
         + (if s.creds == map[] then [] else [SaveParams(s.creds)])
         + [StatusOf(t.(status := Completed), w.endOk(t.(status := Completed), |s.pending|))] <= o.writes
      && Settles(o, s, FirstRunnable(s.pending, w), w)
  {
    PlainSetStoresThenCompletes(s, w);
  }

  /** A started diagnostic is neither stored nor completed. */
  lemma StartedDiagnosticGoesOn(s: Sess, t: Task, w: World)
    requires s.wan.None? && s.current == Some(t) && t.kind == AsyncDiagnostic
    ensures ServeIn(s, SetParamsResponse, w) == DispatchNext(s.(current := None), w)
  {
    PlainSetIs(s, w);
  }

  /** A session that sends t, which is first in its queue. */
  predicate SendsFirst(s: Sess, t: Task, w: World) {
    && s.pending != [] && s.pending[0] == t && t.kind != DiagResult && t.kind != AsyncDiagnostic && s.wan.None?
    && w.markOk(t, |s.pending| - 1)
  }

  /** From the request to the acknowledgement: the parameters and credentials of the task are stored, in every world
      that holds when the acknowledgement comes, and the task is completed with one attempt more. */
  lemma SentIsStored(s: Sess, t: Task, ps: map<string, string>, cs: map<string, string>, w: World, v: World)
    requires SendsFirst(s, t, w) && w.build(t, |s.pending| - 1) == Sends(Some(ps), Some(cs)) && ps != map[]
      && cs != map[]
    ensures var o := DispatchNext(s, w);
      var p := ServeIn(o.sess, SetParamsResponse, v);
      var done := Executed(t).(status := Completed);
      && o.reply == TaskRequest(Executed(t)) && o.writes == [StatusOf(Executed(t), true)]
      && [SaveParams(ps)] + (if s.provisionMark then [SaveParams(map["_helix.provisioned" := "true"])] else [])
         + [SaveParams(cs)] + [StatusOf(done, v.endOk(done, |s.pending| - 1))] <= p.writes
  {
    var o := DispatchNext(s, w);
    FirstIsSent(s, t, ps, cs, w);
    SetStoresInOrder(o.sess, Executed(t), v);
  }

  lemma FirstIsSent(s: Sess, t: Task, ps: map<string, string>, cs: map<string, string>, w: World)
    requires SendsFirst(s, t, w) && w.build(t, |s.pending| - 1) == Sends(Some(ps), Some(cs))
    ensures DispatchNext(s, w) ==
      Outcome(s.(pending := s.pending[1..], current := Some(Executed(t)), setParams := ps, creds := cs),
              TaskRequest(Executed(t)), [StatusOf(Executed(t), true)])
  {
  }

  /** A task that adds an object and then sets its parameters: the number of the object goes into the second request,
      and the acknowledgement of that one completes the task. */
  lemma AddThenSet(s: Sess, t: Task, w: World, n: int, v: World, u: World)
    requires SendsFirst(s, t, w) && w.build(t, |s.pending| - 1) == AddsThenSets
    ensures var o := DispatchNext(s, w);
      var p := ServeIn(o.sess, AddObjectResponse(n), v);
      var q := ServeIn(p.sess, SetParamsResponse, u);
      var done := Executed(t).(status := Completed);
      && o.reply == TaskRequest(Executed(t))
      && p.reply == FollowUp(Some(Executed(t)), n) && p.writes == []
      && StatusOf(done, u.endOk(done, |s.pending| - 1)) in q.writes
  {
    var o := DispatchNext(s, w);
    AddIsSent(s, t, w);
    var p := ServeIn(o.sess, AddObjectResponse(n), v);
    assert p == Outcome(o.sess.(followUp := false), FollowUp(Some(Executed(t)), n), []);
    SetStoresInOrder(p.sess, Executed(t), u);
    LastOfPrefix(ServeIn(p.sess, SetParamsResponse, u).writes,
      (if s.setParams == map[] then [] else [SaveParams(s.setParams)])
      + (if s.provisionMark then [SaveParams(map["_helix.provisioned" := "true"])] else [])
      + (if s.creds == map[] then [] else [SaveParams(s.creds)]), EndsAs(Executed(t), Completed, |s.pending| - 1, u));
  }

  lemma AddIsSent(s: Sess, t: Task, w: World)
    requires SendsFirst(s, t, w) && w.build(t, |s.pending| - 1) == AddsThenSets
    ensures DispatchNext(s, w) ==
      Outcome(s.(pending := s.pending[1..], current := Some(Executed(t)), followUp := true), TaskRequest(Executed(t)),
              [StatusOf(Executed(t), true)])
  {
  }

  lemma LastOfPrefix(writes: seq<Write>, before: seq<Write>, x: Write)
    requires before + [x] <= writes
    ensures x in writes
  {
    assert (before + [x])[|before|] == x && writes[|before|] == x;
  }

  /** A provision: its credentials are kept over the whole conversation and stored with the acknowledgement of the last
      step, when that sets parameters. */
  lemma ProvisionStoresCredentials(s: Sess, t: Task, e: Exec, cs: map<string, string>, w: World, xs: seq<Exchange>,
                                   v: World)
    requires SendsFirst(s, t, w) && w.build(t, |s.pending| - 1) == Provisions(e, cs) && s.summon == 0 && !s.followUp
    requires e.AtRest() && !e.Done() && ConformingRun(e, xs) && |Acks(xs)| + 1 == StepsLeft(e)
    requires !After(e, Acks(xs)).Done() ==> After(e, Acks(xs)).Current().kind == SetParams
    ensures var o := DispatchNext(s, w);
      var p := ServeIn(StateAfter(o.sess, xs), SetParamsResponse, v);
      var done := Executed(t).(status := Completed);
      && o.reply == StepRequest(e.Current(), e.vars) && Writes(o.sess, xs) == []
      && (if cs == map[] then [] else [SaveParams(cs)]) + [StatusOf(done, v.endOk(done, |s.pending| - 1))] <= p.writes
  {
    var o := DispatchNext(s, w);
    ProvisionIsSent(s, t, e, cs, w);
    LockStep(o.sess, e, xs);
    var u := StateAfter(o.sess, xs);
    LastReplyCompletes(u, After(e, Acks(xs)), SetParamsResponse, v);
  }

  lemma ProvisionIsSent(s: Sess, t: Task, e: Exec, cs: map<string, string>, w: World)
    requires SendsFirst(s, t, w) && w.build(t, |s.pending| - 1) == Provisions(e, cs) && !e.Done()
    ensures DispatchNext(s, w) ==
      Outcome(s.(pending := s.pending[1..], current := Some(Executed(t)), wan := Some(e), creds := cs),
              StepRequest(e.Current(), e.vars), [StatusOf(Executed(t), true)])
  {
  }

  /** Across a change of session id: the session that has adopted stores what was sent, once it is acknowledged, and the
      one that was left stores nothing of it. */
  lemma AcknowledgedOnce(s: Sess, t: Task, w: World)
    requires s.wan.None? && s.current == Some(t) && t.kind != AsyncDiagnostic
    ensures var o := ServeIn(Adopted(s), SetParamsResponse, w);
      (if s.setParams == map[] then [] else [SaveParams(s.setParams)])
      + (if s.provisionMark then [SaveParams(map["_helix.provisioned" := "true"])] else [])
      + (if s.creds == map[] then [] else [SaveParams(s.creds)])
      + [StatusOf(t.(status := Completed), w.endOk(t.(status := Completed), 0))] <= o.writes
    ensures ServeIn(Emptied(s), SetParamsResponse, w) == DispatchNext(Emptied(s), w)
  {
    SetStoresInOrder(Adopted(s), t, w);
    var e := Emptied(s);
    PlainSetIs(e, w);
    assert e.(setParams := map[], creds := map[], provisionMark := false).(current := None) == e;
    assert [] + [] + [] + [] + DispatchNext(e, w).writes == DispatchNext(e, w).writes;
  }

  /** A session under a fresh id knows and does nothing: an empty POST closes it. */
  lemma FreshSessionIsIdle(w: World)
    ensures Serve(FRESH_SESS, Empty, w) == Outcome(FRESH_SESS.(lifecycle := Closed), NoContent, [])
    ensures FRESH_SESS.lifecycle == New && !FRESH_SESS.followUp && FRESH_SESS.setParams == map[]
      && FRESH_SESS.creds == map[] && !FRESH_SESS.provisionMark
    ensures FRESH_SESS.summon == 0 && FRESH_SESS.schema == "" && FRESH_SESS.names == [] && FRESH_SESS.batch == 0
      && FRESH_SESS.params == map[] && FRESH_SESS.targets == [] && !FRESH_SESS.refresh
    ensures !FRESH_SESS.bootstrap && !FRESH_SESS.needs && FRESH_SESS.gear.mapper.None? && !FRESH_SESS.gear.driver
  {
  }

  /** What it adopts from a session with work in flight, and what it does not: the tasks that wait and the state of a
      summon stay behind. */
  lemma AdoptionTakes(prev: Sess)
    requires prev.current.Some? || prev.wan.Some? || prev.followUp
    ensures Adopted(prev) ==
      FRESH_SESS.(current := prev.current, wan := prev.wan, followUp := prev.followUp, setParams := prev.setParams,
                  creds := prev.creds, provisionMark := prev.provisionMark)
    ensures Emptied(prev) ==
      prev.(current := None, wan := None, followUp := false, setParams := map[], creds := map[], provisionMark := false)
  {
  }

  /** A session that is known already keeps its own task, queue and summon; without a task it takes the other one's
      work, and keeps the parameters it has to store only when the other one has none. */
  lemma AdoptionByKnown(prev: Sess, cur: Sess)
    ensures var a := AdoptedBy(prev, cur);
      && a.pending == cur.pending && a.summon == cur.summon && a.gear == cur.gear && a.lifecycle == cur.lifecycle
      && (cur.current.Some? ==> a == cur)
      && (prev.current.None? && prev.wan.None? && !prev.followUp ==> a == cur)
    ensures var a := AdoptedBy(prev, cur);
      cur.current.None? && prev.current.Some? ==>
        && a.current == prev.current && a.wan == prev.wan && a.followUp == prev.followUp
        && (a.provisionMark <==> prev.provisionMark || cur.provisionMark)
        && (prev.setParams != map[] ==> a.setParams == prev.setParams)
        && (prev.setParams == map[] ==> a.setParams == cur.setParams)
        && (prev.creds != map[] ==> a.creds == prev.creds)
        && (prev.creds == map[] ==> a.creds == cur.creds)
  {
  }

  // ---- what an Inform leads to ----

  /** A device whose record cannot be stored gets a fault and nothing happens. */
  lemma UnstoredInform(s: Sess, inf: Informed, w: World)
    requires !inf.stored
    ensures OnInform(s, inf, w) == Outcome(s.(bootstrap := inf.bootstrap), SoapFault, [])
  {
  }

  /** A scheduled targeted summon: the next empty POST asks for its paths, and the values are stored exactly when it
      is a refresh. */
  lemma InformThenTargets(s: Sess, inf: Informed, w: World, v: World, params: map<string, string>, u: World)
    requires inf.stored && !inf.fullSummon && inf.targets != []
    ensures var o := OnInform(s, inf, w);
      var p := Serve(o.sess, Empty, v);
      var q := Serve(p.sess, ValuesResponse(params, None), u);
      && o.reply == InformResponse && p.reply == GetValues(inf.targets) && p.writes == []
      && (inf.refresh ==> q.writes != [] && q.writes[0] == SaveParams(params))
      && (!inf.refresh ==>
            q == DispatchNext(p.sess.(summon := 0, targets := [], gear := Gear(Some(inf.schema), true)),
                              Facing(u, Gear(Some(inf.schema), true))))
  {
  }

  /** A full summon that was asked for: what waits is dispatched, and then the names below the root object are. */
  lemma InformThenNames(s: Sess, inf: Informed, w: World, v: World)
    requires inf.stored && inf.fullSummon
    ensures var o := OnInform(s, inf, w);
      && Settles(o, s.(summon := 1), FirstRunnable(s.pending, Facing(w, s.gear)), Facing(w, s.gear))
      && Serve(o.sess, Empty, v) == Outcome(o.sess, GetNames(RootPath(inf.schema, s.gear.mapper)), [])
  {
    var due := s.(bootstrap := inf.bootstrap, summon := 1, schema := inf.schema);
    SummonIsDue(s, due, Facing(w, s.gear));
    DispatchKeepsNotes(due, Facing(w, s.gear));
  }

  lemma SummonIsDue(s: Sess, due: Sess, w: World)
    requires due.summon == 1 && due.pending == s.pending && due.lifecycle == s.lifecycle
    ensures Settles(DispatchNext(due, w), s.(summon := 1), FirstRunnable(s.pending, w), w)
    ensures DispatchNext(due, w).sess.summon == 1
  {
    DispatchPicksFirstRunnable(due, w);
  }

  /** The tasks of an Inform, and the global defaults in front of them: they are pushed to a device that differs from
      them if it was reset, was promised them before, or was never marked as provisioned; one that has them already is
      marked at once. */
  lemma InformLoadsTasks(s: Sess, inf: Informed, w: World)
    requires inf.stored && !inf.fullSummon
    ensures var o, due := OnInform(s, inf, w), inf.bootstrap || s.needs || !w.provisioned;
      && o.reply == InformResponse && o.sess.lifecycle == Processing && o.sess.gear == Gear(Some(inf.schema), true)
      && (due && w.globals.Pushing? ==>
            o.sess.pending == [w.globals.task] + inf.tasks && o.sess.provisionMark && o.writes == [] && !o.sess.needs)
      && (due && w.globals.Matching? ==>
            o.sess.pending == inf.tasks && o.writes == [SaveParams(map["_helix.provisioned" := "true"])]
              && !o.sess.needs)
      && (!due || w.globals.NoGlobals? ==>
            o.sess.pending == inf.tasks && o.writes == [] && o.sess.provisionMark == s.provisionMark
            && (o.sess.needs <==> due))
      && o.sess.current == s.current && o.sess.wan == s.wan && o.sess.followUp == s.followUp
  {
    var t := Tasked(s.(bootstrap := inf.bootstrap), inf, w);
    TaskedFields(s.(bootstrap := inf.bootstrap), inf, w);
    assert [] + inf.tasks == inf.tasks;
  }

  lemma TaskedFields(s: Sess, inf: Informed, w: World)
    ensures var t := Tasked(s, inf, w);
      && t.pending == inf.tasks && t.lifecycle == Processing && t.gear == Gear(Some(inf.schema), true)
      && t.bootstrap == s.bootstrap && t.provisionMark == s.provisionMark
      && t.needs == (s.needs || inf.bootstrap || !w.provisioned)
      && t.current == s.current && t.wan == s.wan && t.followUp == s.followUp
  {
    TargetedFields(s, inf);
  }

  lemma TargetedFields(s: Sess, inf: Informed)
    ensures var t := Targeted(s, inf);
      && t.bootstrap == s.bootstrap && t.provisionMark == s.provisionMark && t.needs == s.needs
      && t.current == s.current && t.wan == s.wan && t.followUp == s.followUp
  {
  }

  // ---- the world a session meets ----

  /** Tasks are built for the session at hand, and an Inform builds nothing for the schema it brings before the session
      has taken it over. */
  lemma BuildsForItsSession(s: Sess, r: Request, inf: Informed, w: World)
    ensures Serve(s, r, w) == ServeIn(s, r, w.(build := w.built(s.gear)))
    ensures inf.stored && inf.fullSummon ==>
      OnInform(s, inf, w) ==
        DispatchNext(s.(bootstrap := inf.bootstrap, summon := 1, schema := inf.schema), w.(build := w.built(s.gear)))
  {
  }

  // ---- what a summon leads to ----

  /** The parts of a session no dispatch touches. */
  predicate SameNotes(a: Sess, b: Sess) {
    && a.provisionMark == b.provisionMark && a.needs == b.needs && a.bootstrap == b.bootstrap
    && a.gear == b.gear && a.schema == b.schema && a.targets == b.targets && a.refresh == b.refresh
    && a.names == b.names && a.batch == b.batch && a.params == b.params
  }

  lemma ExecuteKeepsNotes(s: Sess, t: Task, b: Build)
    ensures SameNotes(Execute(s, t, b).0, s)
  {
  }

  lemma AttemptKeepsNotes(s: Sess, t: Task, w: World)
    ensures SameNotes(Attempt(s, t, false, w).sess, s)
  {
    var b := w.build(t, |s.pending|);
    ExecuteKeepsNotes(s, Marked(t), b);
    CurrentIsNoNote(Execute(s, Marked(t), b).0, Some(FailedTask(Marked(t))));
  }

  lemma CurrentIsNoNote(s: Sess, t: Option<Task>)
    ensures SameNotes(s.(current := t), s)
  {
  }

  lemma {:induction false} DispatchKeepsNotes(s: Sess, w: World)
    ensures SameNotes(DispatchNext(s, w).sess, s)
    decreases |s.pending|
  {
    if s.pending != [] {
      var rest, t := s.(pending := s.pending[1..]), s.pending[0];
      AttemptKeepsNotes(rest, t, w);
      if Attempt(rest, t, false, w).request.None? { DispatchKeepsNotes(Attempt(rest, t, false, w).sess, w); }
    }
  }

  /** The tasks for default parameters: what the global defaults push, if they are due, before what the driver asks
      for. */
  function Defaults(due: bool, driver: bool, w: World): seq<Task> {
    (if due && w.globals.Pushing? then [w.globals.task] else [])
    + (if driver && w.defaults.Some? then [w.defaults.value] else [])
  }

  predicate GlobalsDue(s: Sess, w: World) {
    !w.globals.NoGlobals? && (s.bootstrap || s.needs || !w.provisioned)
  }

  /** The values of a summon are in and idle is the session without it: they are stored; a device that has the global
      defaults already is marked; the tasks for default parameters go before the ones that wait, and all of them meet a
      session that knows its schema. */
  predicate GoesOnWith(o: Outcome, idle: Sess, params: map<string, string>, w: World) {
    var known, due := Gear(Some(idle.schema), idle.gear.driver), GlobalsDue(idle, w);
    var all, v := Defaults(due, idle.gear.driver, w) + idle.pending, Facing(w, known);
    && Settles(o, idle.(pending := all), FirstRunnable(all, v), v)
    && [SaveParams(params)]
       + (if due && w.globals.Matching? then [SaveParams(map["_helix.provisioned" := "true"])] else []) <= o.writes
    && SameNotes(o.sess, idle.(gear := known, provisionMark := idle.provisionMark || (due && w.globals.Pushing?),
                               needs := idle.needs && !due))
  }

  /** A refresh is over. */
  lemma RefreshEnds(s: Sess, params: map<string, string>, w: World)
    requires s.summon == 4 && s.refresh
    ensures GoesOnWith(ServeIn(s, ValuesResponse(params, None), w), s.(summon := 0, targets := [], refresh := false),
                       params, w)
  {
    var idle := s.(summon := 0, targets := [], refresh := false);
    assert ServeIn(s, ValuesResponse(params, None), w) == EndSummon(idle, params, w);
    SummonIsOver(idle, params, w);
  }

  lemma SummonIsOver(idle: Sess, params: map<string, string>, w: World)
    ensures GoesOnWith(EndSummon(idle, params, w), idle, params, w)
  {
    var m, v := Learned(idle), Facing(w, Known(idle));
    DefaultsAre(idle, w);
    var i := Inject(m, Extra(m, v), v);
    DispatchPicksFirstRunnable(i, v);
    DispatchKeepsNotes(i, v);
    OverIs(idle, params, w);
    var next := DispatchNext(i, v);
    assert [SaveParams(params)] + MarkWrites(m, v) <= ([SaveParams(params)] + MarkWrites(m, v)) + next.writes;
  }

  lemma DefaultsAre(idle: Sess, w: World)
    ensures var m, v, due := Learned(idle), Facing(w, Known(idle)), GlobalsDue(idle, w);
      && Extra(m, v) == Defaults(due, idle.gear.driver, w)
      && MarkWrites(m, v) == (if due && w.globals.Matching? then [SaveParams(map["_helix.provisioned" := "true"])]
           else [])
      && Inject(m, Extra(m, v), v) ==
         idle.(gear := Gear(Some(idle.schema), idle.gear.driver),
               pending := Defaults(due, idle.gear.driver, w) + idle.pending,
               provisionMark := idle.provisionMark || (due && w.globals.Pushing?), needs := idle.needs && !due)
  {
  }

  lemma OverIs(idle: Sess, params: map<string, string>, w: World)
    ensures var m, v := Learned(idle), Facing(w, Known(idle));
      EndSummon(idle, params, w) ==
        Logged([SaveParams(params)] + MarkWrites(m, v), DispatchNext(Inject(m, Extra(m, v), v), v))
  {
    var m, v := Learned(idle), Facing(w, Known(idle));
    var next := DispatchNext(Inject(m, Extra(m, v), v), v);
    assert [SaveParams(params)] + (MarkWrites(m, v) + next.writes) == [SaveParams(params)] + MarkWrites(m, v)
      + next.writes;
  }

  /** A full summon that has all its values. */
  lemma FullSummonEnds(s: Sess, params: map<string, string>, w: World)
    requires s.summon == 2 && (s.batch + 1) * BatchSize(s.schema) >= |s.names|
    ensures GoesOnWith(ServeIn(s, ValuesResponse(params, None), w),
                       s.(summon := 0, names := [], batch := s.batch + 1, params := map[]), s.params + params, w)
  {
    LastBatchIs(s, params, w);
    SummonIsOver(s.(summon := 0, names := [], batch := s.batch + 1, params := map[]), s.params + params, w);
  }

  lemma LastBatchIs(s: Sess, params: map<string, string>, w: World)
    requires s.summon == 2 && (s.batch + 1) * BatchSize(s.schema) >= |s.names|
    ensures ServeIn(s, ValuesResponse(params, None), w) ==
      EndSummon(s.(summon := 0, names := [], batch := s.batch + 1, params := map[]), s.params + params, w)
  {
    var on := s.(params := s.params + params, batch := s.batch + 1);
    assert ServeIn(s, ValuesResponse(params, None), w) == SendBatch(on, w);
    assert on.(summon := 0, names := [], params := map[]) ==
      s.(summon := 0, names := [], batch := s.batch + 1, params := map[]);
  }

  /** The names a summon keeps are those that do not end in a full stop, in the order in which the device lists them. */
  lemma {:induction false} LeafNamesAre(a: seq<string>, n: string, b: seq<string>)
    ensures LeafNames([]) == [] && LeafNames(a + b) == LeafNames(a) + LeafNames(b)
    ensures LeafNames([n]) == if n != "" && n[|n| - 1] == '.' then [] else [n]
  {
    assert [n][..0] == [] && [n][0] == n;
    if b == [] {
      assert a + b == a;
    } else {
      assert (a + b)[..|a + b| - 1] == a + b[..|b| - 1] && (a + b)[|a + b| - 1] == b[|b| - 1];
      LeafNamesAre(a, n, b[..|b| - 1]);
    }
  }

  /** A device that lists no such name has nothing to be asked for: the summon is over and nothing is stored. */
  lemma NoLeafNoSummon(s: Sess, all: seq<string>, w: World)
    requires LeafNames(all) == []
    ensures ServeIn(s, NamesResponse(all), w) == DispatchNext(s.(summon := 0), w)
  {
  }

  // ---- data models ----

  lemma {:induction false} ContainsAtEnd(p: string, sub: string)
    ensures Contains(p + sub, sub)
  {
    if p == "" {
      assert p + sub == sub;
    } else {
      assert (p + sub)[1..] == p[1..] + sub;
      ContainsAtEnd(p[1..], sub);
    }
  }

  lemma {:induction false} ContainedChar(s: string, sub: string, c: char)
    requires Contains(s, sub) && c in sub
    ensures c in s
  {
    if sub <= s {
      assert s == sub + s[|sub|..];
    } else {
      ContainedChar(s[1..], sub, c);
    }
  }

  lemma {:induction false} BaseModelOf(p: string, last: string)
    requires '/' !in last
    ensures BaseModel(p + "/" + last) == last
    decreases |p|
  {
    var s := p + "/" + last;
    var k := IndexOf(s, '/');
    assert s[|p|] == '/';
    if k < |p| {
      assert s[k + 1..] == p[k + 1..] + "/" + last;
      BaseModelOf(p[k + 1..], last);
    } else {
      assert k == |p| && s[k + 1..] == last;
      NoSlash(last);
    }
  }

  lemma NoSlash(last: string)
    requires '/' !in last
    ensures BaseModel(last) == last
  {
  }

  lemma LowerIsNoNine(c: char)
    requires c != '9'
    ensures LowerChar(c) != '9'
  {
    if 'A' <= c <= 'Z' { assert LowerChar(c) as int == c as int + 32; }
  }

  lemma LowerKeepsNine(s: string)
    requires '9' !in s
    ensures '9' !in ToLower(s)
  {
    forall i | 0 <= i < |s| ensures ToLower(s)[i] != '9' {
      assert s[i] in s;
      LowerIsNoNine(s[i]);
    }
  }

  /** A schema whose name ends in tr098, such as tr098 itself and vendor/zte/tr098, is for the old data model: names are
      asked for below InternetGatewayDevice, and values in batches of 5000. */
  lemma OldDataModel(p: string, mapper: Option<string>)
    ensures RootPath(p + "tr098", mapper) == "InternetGatewayDevice." && BatchSize(p + "tr098") == 5000
  {
    assert ToLower(p + "tr098") == ToLower(p) + "tr098";
    ContainsAtEnd(ToLower(p), "tr098");
  }

  /** One without a nine in it, such as tr181 and vendor/huawei/tr181, is for the new one: below Device, and in
      batches of 500. */
  lemma NewDataModel(schema: string, mapper: Option<string>)
    requires '9' !in schema && (mapper.Some? ==> '9' !in mapper.value)
    ensures RootPath(schema, mapper) == "Device." && BatchSize(schema) == 500
  {
    LowerKeepsNine(schema);
    assert "tr098"[3] == '9';
    if Contains(ToLower(schema), "tr098") { ContainedChar(ToLower(schema), "tr098", '9'); }
    if mapper.Some? && Contains(BaseModel(mapper.value), "tr098") {
      ContainedChar(BaseModel(mapper.value), "tr098", '9');
      BaseModelChars(mapper.value);
    }
  }

  lemma {:induction false} BaseModelChars(s: string)
    ensures forall c | c in BaseModel(s) :: c in s
  {
    var k := IndexOf(s, '/');
    if k < |s| { BaseModelChars(s[k + 1..]); }
  }

  /** A session that was told no schema asks below the root of its mapper. */
  lemma MapperTellsRoot(vendor: string)
    ensures RootPath("", Some("vendor/" + vendor + "/tr098")) == "InternetGatewayDevice."
    ensures RootPath("", Some("tr098")) == "InternetGatewayDevice."
  {
    var p := "vendor/" + vendor;
    assert p + "/tr098" == p + "/" + "tr098";
    BaseModelOf(p, "tr098");
    NoSlash("tr098");
    assert "tr098" <= "tr098";
  }
}
