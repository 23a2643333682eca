/** A full summon asked for through the API while the session of the device is at work. */
module FullSummon {
  import opened GoStrings
  import opened Provisioning
  import opened CwmpSpec
  import opened CwmpProtocol
  import opened DeviceLine
  import opened SessionLikeness
  import opened Rotation
  import opened Tasks

  // ---- what dispatching leaves alone ----

  predicate KeepsSummon(s: Sess, t: Sess) {
    && t.summon == s.summon && t.schema == s.schema && t.gear == s.gear
    && t.names == s.names && t.batch == s.batch && t.params == s.params
  }

  lemma {:induction false} NextKeepsSummon(s: Sess, w: World)
    ensures KeepsSummon(s, DispatchNext(s, w).sess)
    decreases |s.pending|, 0
  {
    if s.pending != [] { TaskKeepsSummon(s.(pending := s.pending[1..]), s.pending[0], false, w); }
  }

  lemma {:induction false} TaskKeepsSummon(s: Sess, t: Task, own: bool, w: World)
    ensures KeepsSummon(s, DispatchTask(s, t, own, w).sess)
    decreases |s.pending|, 1
  {
    AttemptKeepsSummon(s, t, own, w);
    NextKeepsSummon(Attempt(s, t, own, w).sess, w);
  }

  lemma AttemptKeepsSummon(s: Sess, t: Task, own: bool, w: World)
    ensures KeepsSummon(s, Attempt(s, t, own, w).sess)
  {
    var r := Execute(s, Marked(t), w.build(t, |s.pending|)).0;
    ExecuteKeepsSummon(s, Marked(t), w.build(t, |s.pending|));
    HoldKeepsSummon(s, Marked(t));
    HoldKeepsSummon(r, FailedTask(Marked(t)));
  }

  lemma HoldKeepsSummon(s: Sess, t: Task)
    ensures KeepsSummon(s, s.(current := Some(t)))
  {
  }

  lemma ExecuteKeepsSummon(s: Sess, t: Task, b: Build)
    ensures KeepsSummon(s, Execute(s, t, b).0)
  {
  }

  lemma FinishKeepsSummon(s: Sess, saved: seq<Write>, ok: bool, w: World)
    ensures KeepsSummon(s, FinishTask(s, saved, ok, w).sess)
  {
    NextKeepsSummon(s.(current := None), w);
  }

  lemma AddKeepsSummon(s: Sess, n: int, w: World)
    ensures KeepsSummon(s, OnAddObject(s, n, w).sess)
  {
    if s.wan.Some? {
      AddObjectCases(s, s.wan.value, n, w);
      FinishKeepsSummon(s.(followUp := false, wan := None), [], !s.wan.value.Done() && s.wan.value.Current().kind ==
        AddObject, w);
    } else {
      FinishKeepsSummon(s.(followUp := false), [], true, w);
    }
  }

  lemma WanSetKeepsSummon(s: Sess, e: Exec, w: World)
    ensures KeepsSummon(s, OnWanSetParams(s, e, w).sess)
  {
    if e.Advance().Done() {
      FinishKeepsSummon(s.(wan := None, creds := map[]), Saves(s.creds), true, w);
    }
  }

  lemma SyncKeepsSummon(s: Sess, w: World)
    ensures KeepsSummon(s, SyncAndFinish(s, w).sess)
  {
    FinishKeepsSummon(s.(setParams := map[], creds := map[], provisionMark := false),
      SyncWrites(s.setParams, s.provisionMark, s.creds), true, w);
  }

  lemma SetKeepsSummon(s: Sess, w: World)
    ensures KeepsSummon(s, ServeIn(s, SetParamsResponse, w).sess)
  {
    if s.wan.Some? {
      WanSetKeepsSummon(s, s.wan.value, w);
    } else {
      PlainSetIs(s, w);
      NextKeepsSummon(s.(current := None), w);
      SyncKeepsSummon(s, w);
    }
  }

  lemma DeleteKeepsSummon(s: Sess, w: World)
    ensures KeepsSummon(s, OnDeleteObject(s, w).sess)
  {
    if s.wan.Some? {
      WanDeleteKeepsSummon(s, s.wan.value, w);
    } else {
      FinishKeepsSummon(s, [], true, w);
    }
  }

  lemma WanDeleteKeepsSummon(s: Sess, e: Exec, w: World)
    requires s.wan == Some(e)
    ensures KeepsSummon(s, OnDeleteObject(s, w).sess)
  {
    if e.Advance().Done() {
      FinishKeepsSummon(s.(wan := None), [], true, w);
    } else {
      assert OnDeleteObject(s, w).sess == s.(wan := Some(e.Advance()));
    }
  }

  lemma DownloadKeepsSummon(s: Sess, async: bool, w: World)
    ensures KeepsSummon(s, OnDownload(s, async, w).sess)
  {
    FinishKeepsSummon(s, [], true, w);
    if s.pending != [] { TaskKeepsSummon(s.(pending := s.pending[1..]), s.pending[0], false, w); }
  }

  // ---- a session that is to ask for names ----

  lemma DueValues(s: Sess, params: map<string, string>, collected: Option<Task>, w: World)
    requires s.summon == 1
    ensures OnValues(s, params, collected, w) == OnRead(s, collected, w)
    ensures KeepsSummon(s, OnRead(s, collected, w).sess)
  {
    NextKeepsSummon(s.(current := None), w);
  }

  /** Until the names arrive nothing changes the summon, and every empty POST is answered with the request for them. */
  lemma DueStays(s: Sess, r: Request, w: World)
    requires s.summon == 1 && !r.NamesResponse?
    ensures var o := Serve(s, r, w);
      KeepsSummon(s, o.sess) && (r.Empty? ==> o == Outcome(s, GetNames(Root(s)), []))
  {
    var u := Facing(w, s.gear);
    match r {
      case SetParamsResponse => SetKeepsSummon(s, u);
      case ValuesResponse(params, collected) => DueValues(s, params, collected, u);
      case RebootResponse => FinishKeepsSummon(s, [], true, u);
      case FactoryResetResponse => FinishKeepsSummon(s, [], true, u);
      case DownloadResponse(async) => DownloadKeepsSummon(s, async, u);
      case AddObjectResponse(n) => AddKeepsSummon(s, n, u);
      case DeleteObjectResponse => DeleteKeepsSummon(s, u);
      case Fault => FinishKeepsSummon(s.(wan := None, followUp := false), [], false, u);
      case _ =>
    }
  }

  /** The object below which the session asks for names. */
  function Root(s: Sess): string {
    RootPath(s.schema, s.gear.mapper)
  }

  predicate NoNamesIn(xs: seq<Exchange>) {
    forall i | 0 <= i < |xs| :: !xs[i].0.NamesResponse?
  }

  predicate AsksNames(xs: seq<Exchange>, root: string, answers: seq<Reply>)
    requires |answers| == |xs|
  {
    forall i | 0 <= i < |xs| && xs[i].0.Empty? :: answers[i] == GetNames(root)
  }

  lemma {:induction false} DueRun(s: Sess, xs: seq<Exchange>)
    requires s.summon == 1 && NoNamesIn(xs)
    ensures KeepsSummon(s, StateAfter(s, xs)) && AsksNames(xs, Root(s), Replies(s, xs))
    decreases |xs|
  {
    if xs != [] {
      DueStays(s, xs[0].0, xs[0].1);
      DueRun(Serve(s, xs[0].0, xs[0].1).sess, xs[1..]);
    }
  }

  // ---- what the trigger does to a summon under way ----

  /** Whatever the session was doing: from the trigger on every empty POST asks for the names, and once they are there
      the batches are asked for from the first one on, with nothing left of the values collected before. */
  lemma TriggeredSummonRestarts(s: Sess, before: seq<Exchange>, all: seq<string>, w: World, xs: seq<Exchange>)
    requires !s.lifecycle.Closed? && NoNamesIn(before) && LeafNames(all) != [] && AllValues(xs)
    requires |xs| < BatchCount(|LeafNames(all)|, BatchSize(s.schema))
    ensures AsksNames(before, Root(s), Replies(Triggered(s), before))
    ensures var t, names, size := StateAfter(Triggered(s), before), LeafNames(all), BatchSize(s.schema);
      var o := Serve(t, NamesResponse(all), w);
      && o.reply == GetValues(Batch(names, size, 0)) && o.writes == []
      && StateAfter(o.sess, xs) == Summoning(t, names, ParamsOf(xs))
      && Replies(o.sess, xs) == BatchRequests(names, size, 1, |xs|) && Writes(o.sess, xs) == []
  {
    DueRun(Triggered(s), before);
    var t, names := StateAfter(Triggered(s), before), LeafNames(all);
    SummonStarts(t, all, w);
    SummonRun(t, names, BatchSize(s.schema), [], xs);
    assert [] + ParamsOf(xs) == ParamsOf(xs);
  }

  /** With a conforming device the values stored in the end are those of exactly the leaf names, whatever was collected
      when the trigger came. */
  lemma TriggeredSummonCollects(s: Sess, before: seq<Exchange>, all: seq<string>, w: World, xs: seq<Exchange>,
                                last: map<string, string>, v: World)
    requires !s.lifecycle.Closed? && NoNamesIn(before) && LeafNames(all) != [] && AllValues(xs)
    requires |xs| + 1 == BatchCount(|LeafNames(all)|, BatchSize(s.schema))
    requires AnswersBatches(LeafNames(all), BatchSize(s.schema), ParamsOf(xs) + [last])
    ensures var t := StateAfter(Serve(StateAfter(Triggered(s), before), NamesResponse(all), w).sess, xs);
      var o := Serve(t, ValuesResponse(last, None), v);
      && o.writes != [] && o.writes[0].SaveParams? && o.writes[0].params.Keys == set n | n in LeafNames(all)
  {
    TriggeredSummonRestarts(s, before, all, w, xs);
    DueRun(Triggered(s), before);
    var t, names := StateAfter(Triggered(s), before), LeafNames(all);
    var got := ParamsOf(xs);
    ParamsLength(xs);
    SummonEnds(t, names, got, last, None, Facing(v, t.gear));
    SummonCollectsEveryName(names, BatchSize(s.schema), got + [last]);
  }

  lemma {:induction false} ParamsLength(xs: seq<Exchange>)
    requires AllValues(xs)
    ensures |ParamsOf(xs)| == |xs|
  {
    if xs != [] { ParamsLength(xs[1..]); }
  }

  /** In the middle of the batches: the values still under way, which would have been collected, complete the task in
      flight instead, answered or not. */
  lemma TriggerCompletesTask(s: Sess, t: Task, params: map<string, string>, w: World)
    requires s.summon == 2 && !s.lifecycle.Closed? && s.current == Some(t) && t.kind != DiagResult
    requires (s.batch + 1) * BatchSize(s.schema) < |s.names|
    ensures var r := ValuesResponse(params, None);
      && Serve(s, r, w).writes == [] && Serve(s, r, w).sess.params == s.params + params
      && var o := Serve(Triggered(s), r, w);
         && o.sess.params == s.params
         && o.writes != [] && o.writes[0] == Completion(t, |s.pending|, Facing(w, s.gear))
  {
    TriggeredValues(s.(summon := 1), t, params, Facing(w, s.gear));
  }

  lemma TriggeredValues(s: Sess, t: Task, params: map<string, string>, w: World)
    requires s.summon == 1 && s.current == Some(t) && t.kind != DiagResult
    ensures var o := ServeIn(s, ValuesResponse(params, None), w);
      o.sess.params == s.params && o.writes != [] && o.writes[0] == Completion(t, |s.pending|, w)
  {
    DueValues(s, params, None, w);
  }

  // ---- what it does to a provision ----

  lemma TriggeredExchange(s: Sess, e: Exec, r: Request, w: World)
    requires AwaitsStep(s, e) && Conforms(r, e) && |Ack(r)| < StepsLeft(e)
    ensures !After(e, Ack(r)).Done()
    ensures var e' := After(e, Ack(r));
      Serve(s.(summon := 1), r, w) ==
        Outcome(s.(summon := 1, wan := Some(e')), if r.Empty? then GetNames(Root(s)) else Ask(e'), [])
  {
    StepExchange(s, e, r, w);
    if r.Empty? {
      assert After(e, []) == e;
    } else {
      AfterOne(e, Ack(r)[0]);
      OnReplyStep(e, Ack(r)[0]);
      var t := s.(summon := 1);
      assert t.(followUp := false) == t;
    }
  }

  /** The answers are the given ones, but for those to empty POSTs. */
  predicate NamesForEmpty(xs: seq<Exchange>, root: string, given: seq<Reply>, answers: seq<Reply>)
    decreases |xs|
  {
    && |given| == |answers| == |xs|
    && (xs != [] ==>
          && answers[0] == (if xs[0].0.Empty? then GetNames(root) else given[0])
          && NamesForEmpty(xs[1..], root, given[1..], answers[1..]))
  }

  lemma NamesForEmptyCons(xs: seq<Exchange>, root: string, a: Reply, given: seq<Reply>, b: Reply, answers: seq<Reply>)
    requires xs != [] && NamesForEmpty(xs[1..], root, given, answers) && b == if xs[0].0.Empty? then GetNames(root)
      else a
    ensures NamesForEmpty(xs, root, [a] + given, [b] + answers)
  {
    assert ([a] + given)[1..] == given && ([b] + answers)[1..] == answers;
  }

  /** Over a conforming run the provision goes on with every reply as if nothing had happened, but no step is sent again
      after a dropped connection: the empty POST is answered with the request for the names. */
  lemma {:induction false} ProvisionUnderTrigger(s: Sess, e: Exec, xs: seq<Exchange>)
    requires AwaitsStep(s, e) && ConformingRun(e, xs) && |Acks(xs)| < StepsLeft(e)
    ensures var t := s.(summon := 1);
      && StateAfter(t, xs) == StateAfter(s, xs).(summon := 1) && Writes(t, xs) == []
      && NamesForEmpty(xs, Root(s), Replies(s, xs), Replies(t, xs))
    decreases |xs|
  {
    if xs != [] {
      var r, w, rest := xs[0].0, xs[0].1, xs[1..];
      var t, e' := s.(summon := 1), After(e, Ack(r));
      StepExchange(s, e, r, w);
      TriggeredExchange(s, e, r, w);
      var next := s.(wan := Some(e'));
      ProvisionUnderTrigger(next, e', rest);
      Unfold(s, xs, Serve(s, r, w));
      Unfold(t, xs, Serve(t, r, w));
      assert t.(wan := Some(e')) == next.(summon := 1);
      NamesForEmptyCons(xs, Root(s), Ask(e'), Replies(next, rest), if r.Empty? then GetNames(Root(s)) else Ask(e'),
        Replies(next.(summon := 1), rest));
    }
  }

  // ---- when it shows ----

  /** The trigger shows, in some reply or write of what follows, exactly when the session is open and is not to ask for
      the names anyway. */
  lemma TriggerShowsIff(s: Sess)
    ensures (forall xs :: !Parted(Triggered(s), s, xs)) <==>
      s.lifecycle.Closed? || s.summon == 1
  {
    if s.lifecycle.Closed? || s.summon == 1 {
      assert Triggered(s) == s;
    } else {
      var xs := TriggeredParts(s);
    }
  }

  lemma TriggeredParts(s: Sess) returns (xs: seq<(Happening, World)>)
    requires !s.lifecycle.Closed? && s.summon != 1
    ensures Parted(Triggered(s), s, xs)
  {
    if s.summon != 3 { EagerEmpty(s); }
    xs := PartsAt(Triggered(s), s, Post(Empty), EAGER);
  }
}
