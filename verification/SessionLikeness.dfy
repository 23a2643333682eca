/** What a device sees of its session, and which sessions it cannot tell apart: those that differ only in fields that no
    handler reads, or in a mapper that no handler uses. */
module SessionLikeness {
  import opened GoStrings
  import opened Provisioning
  import opened CwmpSpec
  import opened DeviceLine
  import opened CwmpProtocol
  import opened Tasks

  // ---- what is seen ----

  type Seen = Option<(Reply, seq<Write>)>

  /** All that is seen from outside: the replies and the writes. */
  function View(l: Line, xs: seq<(Happening, World)>): seq<Seen>
    decreases |xs|
  {
    if xs == [] then [] else [Sight(l, xs[0].0, xs[0].1)] + View(Moved(l, xs[0].0, xs[0].1), xs[1..])
  }

  function Sight(l: Line, h: Happening, w: World): Seen {
    match Answer(l, h, w)
    case Some(o) => Some((o.reply, o.writes))
    case None => None
  }

  function AtBound(s: Sess): Line {
    Line(s, Bound)
  }

  /** The summon phase, as far as any handler tells phases apart. */
  function Phase(s: Sess): nat {
    if s.summon <= 4 then s.summon else 0
  }

  /** Nothing waits, and no task that is in flight by itself would be sent again. */
  predicate Quiescent(s: Sess) {
    s.pending == [] && (s.current.None? || s.wan.Some?)
  }

  // ---- sessions that no handler tells apart ----

  predicate SameTasks(s: Sess, t: Sess) {
    s.pending == t.pending && s.current == t.current && s.wan == t.wan && s.followUp == t.followUp
  }

  predicate SameSettings(s: Sess, t: Sess) {
    && s.setParams == t.setParams && s.creds == t.creds && s.provisionMark == t.provisionMark
    && s.bootstrap == t.bootstrap && s.needs == t.needs && s.schema == t.schema
    && s.gear == t.gear && (s.lifecycle.Closed? <==> t.lifecycle.Closed?)
  }

  predicate SameSummon(s: Sess, t: Sess) {
    && Phase(s) == Phase(t)
    && (Phase(s) == 2 ==> s.names == t.names && s.batch == t.batch && s.params == t.params)
    && (Phase(s) == 3 ==> s.targets == t.targets)
    && (Phase(s) == 3 || Phase(s) == 4 ==> s.refresh == t.refresh)
  }

  predicate Similar(s: Sess, t: Sess) {
    SameTasks(s, t) && SameSettings(s, t) && SameSummon(s, t)
  }

  predicate SameOutcome(o: Outcome, p: Outcome) {
    o.reply == p.reply && o.writes == p.writes && Similar(o.sess, p.sess)
  }

  lemma SimilarAttempt(s: Sess, t: Sess, k: Task, own: bool, w: World)
    requires Similar(s, t)
    ensures var a, b := Attempt(s, k, own, w), Attempt(t, k, own, w);
      a.request == b.request && a.writes == b.writes && Similar(a.sess, b.sess)
  {
    if k.kind == DiagResult || w.markOk(k, |s.pending|) {
      SimilarTried(s, t, k, own, w);
    } else {
      SimilarRefused(s, t, k, own, w);
    }
  }

  lemma SimilarRefused(s: Sess, t: Sess, k: Task, own: bool, w: World)
    requires Similar(s, t) && k.kind != DiagResult && !w.markOk(k, |s.pending|)
    ensures var a, b := Attempt(s, k, own, w), Attempt(t, k, own, w);
      a.request == b.request && a.writes == b.writes && Similar(a.sess, b.sess)
  {
  }

  lemma SimilarTried(s: Sess, t: Sess, k: Task, own: bool, w: World)
    requires Similar(s, t) && (k.kind == DiagResult || w.markOk(k, |s.pending|))
    ensures var a, b := Attempt(s, k, own, w), Attempt(t, k, own, w);
      a.request == b.request && a.writes == b.writes && Similar(a.sess, b.sess)
  {
    var u, v := Execute(s, Marked(k), w.build(k, |s.pending|)), Execute(t, Marked(k), w.build(k, |s.pending|));
    SimilarExecute(s, t, Marked(k), w.build(k, |s.pending|));
    SimilarHold(u.0, v.0, FailedTask(Marked(k)));
  }

  lemma SimilarHold(s: Sess, t: Sess, k: Task)
    requires Similar(s, t)
    ensures Similar(s.(current := Some(k)), t.(current := Some(k)))
  {
  }

  lemma SimilarExecute(s: Sess, t: Sess, k: Task, b: Build)
    requires Similar(s, t)
    ensures Execute(s, k, b).1 == Execute(t, k, b).1 && Similar(Execute(s, k, b).0, Execute(t, k, b).0)
  {
  }

  lemma {:induction false} SimilarNext(s: Sess, t: Sess, w: World)
    requires Similar(s, t)
    ensures SameOutcome(DispatchNext(s, w), DispatchNext(t, w))
    decreases |s.pending|, 0
  {
    if s.pending != [] {
      SimilarTask(s.(pending := s.pending[1..]), t.(pending := t.pending[1..]), s.pending[0], false, w);
    }
  }

  lemma {:induction false} SimilarTask(s: Sess, t: Sess, k: Task, own: bool, w: World)
    requires Similar(s, t)
    ensures SameOutcome(DispatchTask(s, k, own, w), DispatchTask(t, k, own, w))
    decreases |s.pending|, 1
  {
    SimilarAttempt(s, t, k, own, w);
    SimilarNext(Attempt(s, k, own, w).sess, Attempt(t, k, own, w).sess, w);
  }

  lemma SimilarFinish(s: Sess, t: Sess, saved: seq<Write>, ok: bool, w: World)
    requires Similar(s, t)
    ensures SameOutcome(FinishTask(s, saved, ok, w), FinishTask(t, saved, ok, w))
  {
    SimilarNext(s.(current := None), t.(current := None), w);
  }

  lemma SimilarDefaults(s: Sess, t: Sess, w: World)
    requires Similar(s, t)
    ensures SameOutcome(GoOnWithDefaults(s, w), GoOnWithDefaults(t, w))
  {
    SimilarNext(Inject(s, Extra(s, w), w), Inject(t, Extra(t, w), w), w);
  }

  lemma SimilarLearned(s: Sess, t: Sess)
    requires Similar(s, t)
    ensures Similar(Learned(s), Learned(t)) && Known(s) == Known(t)
  {
    SimilarGeared(s, t, Known(s));
  }

  lemma SimilarGeared(s: Sess, t: Sess, gear: Gear)
    requires Similar(s, t)
    ensures Similar(s.(gear := gear), t.(gear := gear))
  {
  }

  lemma SimilarEnd(s: Sess, t: Sess, params: map<string, string>, w: World)
    requires Similar(s, t)
    ensures SameOutcome(EndSummon(s, params, w), EndSummon(t, params, w))
  {
    SimilarLearned(s, t);
    SimilarDefaults(Learned(s), Learned(t), Facing(w, Known(s)));
  }

  lemma SimilarBatch(s: Sess, t: Sess, w: World)
    requires Similar(s, t) && s.summon == t.summon == 2
    ensures SameOutcome(SendBatch(s, w), SendBatch(t, w))
  {
    SimilarEnd(s.(summon := 0, names := [], params := map[]), t.(summon := 0, names := [], params := map[]), s.params,
      w);
  }

  lemma SimilarNames(s: Sess, t: Sess, all: seq<string>, w: World)
    requires Similar(s, t)
    ensures SameOutcome(OnNames(s, all, w), OnNames(t, all, w))
  {
    var names := LeafNames(all);
    if names == [] {
      SimilarNext(s.(summon := 0), t.(summon := 0), w);
    } else {
      SimilarBatch(s.(summon := 2, names := names, batch := 0, params := map[]),
                   t.(summon := 2, names := names, batch := 0, params := map[]), w);
    }
  }

  lemma SimilarRead(s: Sess, t: Sess, collected: Option<Task>, w: World)
    requires Similar(s, t)
    ensures SameOutcome(OnRead(s, collected, w), OnRead(t, collected, w))
  {
    SimilarNext(s.(current := None), t.(current := None), w);
  }

  lemma SimilarTargeted(s: Sess, t: Sess, params: map<string, string>, w: World)
    requires Similar(s, t) && s.summon == t.summon == 4
    ensures SameOutcome(OnTargeted(s, params, w), OnTargeted(t, params, w))
  {
    var u, v := s.(summon := 0, targets := [], refresh := false), t.(summon := 0, targets := [], refresh := false);
    if s.refresh {
      SimilarEnd(u, v, params, w);
    } else {
      SimilarLearned(u, v);
      SimilarNext(Learned(u), Learned(v), Facing(w, Known(s)));
    }
  }

  lemma SimilarMerge(s: Sess, t: Sess, params: map<string, string>, w: World)
    requires Similar(s, t) && s.summon == t.summon == 2
    ensures SameOutcome(SendBatch(s.(params := s.params + params, batch := s.batch + 1), w),
                        SendBatch(t.(params := t.params + params, batch := t.batch + 1), w))
  {
    SimilarBatch(s.(params := s.params + params, batch := s.batch + 1), t.(params := t.params + params,
      batch := t.batch + 1), w);
  }

  lemma SimilarValues(s: Sess, t: Sess, params: map<string, string>, collected: Option<Task>, w: World)
    requires Similar(s, t)
    ensures SameOutcome(OnValues(s, params, collected, w), OnValues(t, params, collected, w))
  {
    if Phase(s) == 2 {
      SimilarMerge(s, t, params, w);
    } else if Phase(s) == 4 {
      SimilarTargeted(s, t, params, w);
    } else {
      SimilarReadValues(s, t, params, collected, w);
    }
  }

  lemma SimilarReadValues(s: Sess, t: Sess, params: map<string, string>, collected: Option<Task>, w: World)
    requires Similar(s, t) && Phase(s) != 2 && Phase(s) != 4
    ensures SameOutcome(OnValues(s, params, collected, w), OnValues(t, params, collected, w))
  {
    SimilarRead(s, t, collected, w);
  }

  lemma SimilarEmpty(s: Sess, t: Sess, w: World)
    requires Similar(s, t)
    ensures SameOutcome(OnEmpty(s, w), OnEmpty(t, w))
  {
    if Phase(s) == 1 || Phase(s) == 3 {
      SimilarDue(s, t, w);
    } else if s.wan.Some? {
      SimilarResume(s, t, s.wan.value, w);
    } else if s.current.Some? {
      SimilarTask(s, t, s.current.value, true, w);
    } else {
      SimilarNext(s, t, w);
    }
  }

  lemma SimilarDue(s: Sess, t: Sess, w: World)
    requires Similar(s, t) && (Phase(s) == 1 || Phase(s) == 3)
    ensures SameOutcome(OnEmpty(s, w), OnEmpty(t, w))
  {
  }

  lemma SimilarResume(s: Sess, t: Sess, e: Exec, w: World)
    requires Similar(s, t) && Phase(s) != 1 && Phase(s) != 3 && s.wan == Some(e)
    ensures SameOutcome(OnEmpty(s, w), OnEmpty(t, w))
  {
    SimilarFinish(s.(wan := None), t.(wan := None), [], false, w);
  }

  lemma SimilarPlainSet(s: Sess, t: Sess, w: World)
    requires Similar(s, t)
    ensures SameOutcome(OnPlainSetParams(s, w), OnPlainSetParams(t, w))
  {
    if s.current.Some? && s.current.value.kind == AsyncDiagnostic {
      SimilarNext(s.(current := None), t.(current := None), w);
    } else {
      SimilarFinish(s.(setParams := map[], creds := map[], provisionMark := false),
                    t.(setParams := map[], creds := map[], provisionMark := false),
                    SyncWrites(s.setParams, s.provisionMark, s.creds), true, w);
    }
  }

  lemma SimilarWanSet(s: Sess, t: Sess, e: Exec, w: World)
    requires Similar(s, t)
    ensures SameOutcome(OnWanSetParams(s, e, w), OnWanSetParams(t, e, w))
  {
    if e.Advance().Done() {
      SimilarWanEnd(s, t, w);
    } else {
      SimilarWan(s, t, e.Advance());
    }
  }

  lemma SimilarWan(s: Sess, t: Sess, e: Exec)
    requires Similar(s, t)
    ensures Similar(s.(wan := Some(e)), t.(wan := Some(e)))
  {
  }

  lemma SimilarWanEnd(s: Sess, t: Sess, w: World)
    requires Similar(s, t)
    ensures SameOutcome(FinishTask(s.(wan := None, creds := map[]), Saves(s.creds), true, w),
                        FinishTask(t.(wan := None, creds := map[]), Saves(t.creds), true, w))
  {
    SimilarFinish(s.(wan := None, creds := map[]), t.(wan := None, creds := map[]), Saves(s.creds), true, w);
  }

  lemma SimilarAdd(s: Sess, t: Sess, instance: int, w: World)
    requires Similar(s, t)
    ensures SameOutcome(OnAddObject(s, instance, w), OnAddObject(t, instance, w))
  {
    if s.wan.Some? {
      SimilarWanAdd(s, t, s.wan.value, instance, w);
    } else if !s.followUp {
      SimilarFinish(s.(followUp := false), t.(followUp := false), [], true, w);
    }
  }

  lemma SimilarWanAdd(s: Sess, t: Sess, e: Exec, instance: int, w: World)
    requires Similar(s, t) && s.wan == Some(e)
    ensures SameOutcome(OnAddObject(s, instance, w), OnAddObject(t, instance, w))
  {
    if AddObjectGoesOn(e, instance) {
      SimilarAddStep(s, t, e, instance, w);
    } else {
      SimilarAddStop(s, t, e, instance, w);
    }
  }

  lemma SimilarAddStep(s: Sess, t: Sess, e: Exec, instance: int, w: World)
    requires Similar(s, t) && s.wan == Some(e) && AddObjectGoesOn(e, instance)
    ensures SameOutcome(OnAddObject(s, instance, w), OnAddObject(t, instance, w))
  {
    AddObjectCases(s, e, instance, w);
    AddObjectCases(t, e, instance, w);
    SimilarNoFollow(s, t);
    SimilarWan(s.(followUp := false), t.(followUp := false), e.AdvanceAddObject(Itoa(instance)));
  }

  lemma SimilarAddStop(s: Sess, t: Sess, e: Exec, instance: int, w: World)
    requires Similar(s, t) && s.wan == Some(e) && !AddObjectGoesOn(e, instance)
    ensures SameOutcome(OnAddObject(s, instance, w), OnAddObject(t, instance, w))
  {
    AddObjectCases(s, e, instance, w);
    AddObjectCases(t, e, instance, w);
    SimilarStop(s, t, !e.Done() && e.Current().kind == AddObject, w);
  }

  lemma SimilarStop(s: Sess, t: Sess, ok: bool, w: World)
    requires Similar(s, t)
    ensures SameOutcome(FinishTask(s.(followUp := false, wan := None), [], ok, w),
                        FinishTask(t.(followUp := false, wan := None), [], ok, w))
  {
    SimilarFinish(s.(followUp := false, wan := None), t.(followUp := false, wan := None), [], ok, w);
  }

  lemma SimilarNoFollow(s: Sess, t: Sess)
    requires Similar(s, t)
    ensures Similar(s.(followUp := false), t.(followUp := false))
  {
  }

  lemma SimilarDelete(s: Sess, t: Sess, w: World)
    requires Similar(s, t)
    ensures SameOutcome(OnDeleteObject(s, w), OnDeleteObject(t, w))
  {
    if s.wan.Some? {
      SimilarWanDelete(s, t, s.wan.value, w);
    } else {
      SimilarFinish(s, t, [], true, w);
    }
  }

  lemma SimilarWanDelete(s: Sess, t: Sess, e: Exec, w: World)
    requires Similar(s, t) && s.wan == Some(e)
    ensures SameOutcome(OnDeleteObject(s, w), OnDeleteObject(t, w))
  {
    if e.Advance().Done() {
      SimilarFinish(s.(wan := None), t.(wan := None), [], true, w);
    }
  }

  lemma SimilarDownload(s: Sess, t: Sess, async: bool, w: World)
    requires Similar(s, t)
    ensures SameOutcome(OnDownload(s, async, w), OnDownload(t, async, w))
  {
    SimilarFinish(s, t, [], true, w);
    SimilarNext(s, t, w);
  }

  lemma SimilarServeIn(s: Sess, t: Sess, r: Request, w: World)
    requires Similar(s, t)
    ensures SameOutcome(ServeIn(s, r, w), ServeIn(t, r, w))
  {
    match r {
      case Empty => SimilarEmpty(s, t, w);
      case SetParamsResponse =>
        if s.wan.Some? { SimilarWanSet(s, t, s.wan.value, w); } else { SimilarPlainSet(s, t, w); }
      case NamesResponse(all) => SimilarNames(s, t, all, w);
      case ValuesResponse(params, collected) => SimilarValues(s, t, params, collected, w);
      case RebootResponse => SimilarFinish(s, t, [], true, w);
      case FactoryResetResponse => SimilarFinish(s, t, [], true, w);
      case DownloadResponse(async) => SimilarDownload(s, t, async, w);
      case AddObjectResponse(n) => SimilarAdd(s, t, n, w);
      case DeleteObjectResponse => SimilarDelete(s, t, w);
      case Fault => SimilarFinish(s.(wan := None, followUp := false), t.(wan := None, followUp := false), [], false, w);
      case _ =>
    }
  }

  /** No request tells similar sessions apart. */
  lemma SimilarServe(s: Sess, t: Sess, r: Request, w: World)
    requires Similar(s, t)
    ensures SameOutcome(Serve(s, r, w), Serve(t, r, w))
  {
    SimilarServeIn(s, t, r, Facing(w, s.gear));
  }

  lemma SimilarInform(s: Sess, t: Sess, inf: Informed, w: World)
    requires Similar(s, t)
    ensures SameOutcome(OnInform(s, inf, w), OnInform(t, inf, w))
  {
    if inf.stored && inf.fullSummon {
      SimilarNext(s.(bootstrap := inf.bootstrap, summon := 1, schema := inf.schema),
                  t.(bootstrap := inf.bootstrap, summon := 1, schema := inf.schema), Facing(w, s.gear));
    } else if inf.stored {
      var u, v := s.(bootstrap := inf.bootstrap), t.(bootstrap := inf.bootstrap);
      SimilarTasked(u, v, inf, w);
      SimilarInject(Tasked(u, inf, w), Tasked(v, inf, w), w);
    }
  }

  lemma SimilarTasked(s: Sess, t: Sess, inf: Informed, w: World)
    requires Similar(s, t)
    ensures Similar(Tasked(s, inf, w), Tasked(t, inf, w))
  {
    SimilarTargets(s, t, inf);
  }

  lemma SimilarTargets(s: Sess, t: Sess, inf: Informed)
    requires Similar(s, t)
    ensures Similar(Targeted(s, inf), Targeted(t, inf))
  {
    if inf.targets != [] { SimilarDueNow(s, t, inf.targets, inf.refresh, inf.schema); }
  }

  lemma SimilarDueNow(s: Sess, t: Sess, targets: seq<string>, refresh: bool, schema: string)
    requires Similar(s, t)
    ensures Similar(s.(summon := 3, targets := targets, refresh := refresh, schema := schema),
                    t.(summon := 3, targets := targets, refresh := refresh, schema := schema))
  {
  }

  lemma SimilarInject(s: Sess, t: Sess, w: World)
    requires Similar(s, t)
    ensures Similar(Inject(s, GlobalTasks(s, w), w), Inject(t, GlobalTasks(t, w), w))
      && MarkWrites(s, w) == MarkWrites(t, w)
  {
  }

  // ---- sessions with different mappers, where that does not show ----

  /** The same driver, and mappers that lead to the same root object. */
  predicate Alike(g: Gear, h: Gear) {
    g.driver == h.driver && (IsTr098(g.mapper) <==> IsTr098(h.mapper))
  }

  function With(s: Sess, g: Gear): Sess {
    s.(gear := g)
  }

  /** With the gear g the session ends up as it does with its own, except that it still has g; and while it has, there
      is nothing to build. */
  predicate OnlyGear(o: Outcome, p: Outcome, g: Gear) {
    && SameSeen(o, p)
    && (o.sess == p.sess || (Quiescent(o.sess) && Alike(o.sess.gear, g) && p.sess == With(o.sess, g)))
  }

  /** u is the world for the gear g. */
  ghost predicate Plain(s: Sess, w: World, u: World, g: Gear) {
    Quiescent(s) && Alike(s.gear, g) && u == Facing(w, g)
  }

  lemma NothingNext(s: Sess, w: World)
    requires s.pending == []
    ensures DispatchNext(s, w) == Outcome(s.(lifecycle := Closed), NoContent, [])
  {
  }

  lemma FinishEnds(s: Sess, saved: seq<Write>, ok: bool, w: World)
    requires s.pending == []
    ensures FinishTask(s, saved, ok, w) ==
      Outcome(s.(current := None, lifecycle := Closed), NoContent, saved + Finishing(s.current, ok, 0, w))
  {
    NothingNext(s.(current := None), w);
    assert saved + Finishing(s.current, ok, 0, w) + [] == saved + Finishing(s.current, ok, 0, w);
  }

  lemma PlainFinish(s: Sess, saved: seq<Write>, ok: bool, w: World, u: World, g: Gear)
    requires s.pending == [] && Alike(s.gear, g) && u == Facing(w, g)
    ensures OnlyGear(FinishTask(s, saved, ok, w), FinishTask(With(s, g), saved, ok, u), g)
  {
    FinishEnds(s, saved, ok, w);
    FinishEnds(With(s, g), saved, ok, u);
  }

  lemma PlainNext(s: Sess, w: World, u: World, g: Gear)
    requires s.pending == [] && Alike(s.gear, g) && (s.current.None? || s.wan.Some?)
    ensures OnlyGear(DispatchNext(s, w), DispatchNext(With(s, g), u), g)
  {
    NothingNext(s, w);
    NothingNext(With(s, g), u);
  }

  lemma PlainEnd(s: Sess, params: map<string, string>, w: World, u: World, g: Gear)
    requires Plain(s, w, u, g)
    ensures OnlyGear(EndSummon(s, params, w), EndSummon(With(s, g), params, u), g)
  {
    assert Learned(With(s, g)) == Learned(s) && Facing(u, Known(s)) == Facing(w, Known(s));
  }

  lemma PlainBatch(s: Sess, w: World, u: World, g: Gear)
    requires Plain(s, w, u, g)
    ensures OnlyGear(SendBatch(s, w), SendBatch(With(s, g), u), g)
  {
    if s.batch * BatchSize(s.schema) >= |s.names| {
      PlainLast(s, w, u, g);
    }
  }

  lemma PlainLast(s: Sess, w: World, u: World, g: Gear)
    requires Plain(s, w, u, g)
    ensures OnlyGear(EndSummon(s.(summon := 0, names := [], params := map[]), s.params, w),
                       EndSummon(With(s, g).(summon := 0, names := [], params := map[]), s.params, u), g)
  {
    var t := s.(summon := 0, names := [], params := map[]);
    assert With(s, g).(summon := 0, names := [], params := map[]) == With(t, g);
    PlainEnd(t, s.params, w, u, g);
  }

  lemma PlainNames(s: Sess, all: seq<string>, w: World, u: World, g: Gear)
    requires Plain(s, w, u, g)
    ensures OnlyGear(OnNames(s, all, w), OnNames(With(s, g), all, u), g)
  {
    if LeafNames(all) == [] {
      PlainNext(s.(summon := 0), w, u, g);
    } else {
      PlainBatch(s.(summon := 2, names := LeafNames(all), batch := 0, params := map[]), w, u, g);
    }
  }

  lemma PlainTargeted(s: Sess, params: map<string, string>, w: World, u: World, g: Gear)
    requires Plain(s, w, u, g)
    ensures OnlyGear(OnTargeted(s, params, w), OnTargeted(With(s, g), params, u), g)
  {
    var idle := s.(summon := 0, targets := [], refresh := false);
    assert With(s, g).(summon := 0, targets := [], refresh := false) == With(idle, g);
    if s.refresh {
      PlainEnd(idle, params, w, u, g);
    } else {
      assert Learned(With(idle, g)) == Learned(idle) && Facing(u, Known(s)) == Facing(w, Known(s));
    }
  }

  lemma PlainRead(s: Sess, collected: Option<Task>, w: World, u: World, g: Gear)
    requires Plain(s, w, u, g)
    ensures OnlyGear(OnRead(s, collected, w), OnRead(With(s, g), collected, u), g)
  {
    PlainNext(s.(current := None), w, u, g);
  }

  lemma PlainMerge(s: Sess, params: map<string, string>, w: World, u: World, g: Gear)
    requires Plain(s, w, u, g)
    ensures OnlyGear(SendBatch(s.(params := s.params + params, batch := s.batch + 1), w),
                       SendBatch(With(s, g).(params := s.params + params, batch := s.batch + 1), u), g)
  {
    var t := s.(params := s.params + params, batch := s.batch + 1);
    assert With(s, g).(params := s.params + params, batch := s.batch + 1) == With(t, g);
    PlainBatch(t, w, u, g);
  }

  lemma PlainBatchValues(s: Sess, params: map<string, string>, collected: Option<Task>, w: World, u: World, g: Gear)
    requires Plain(s, w, u, g) && s.summon == 2
    ensures OnlyGear(OnValues(s, params, collected, w), OnValues(With(s, g), params, collected, u), g)
  {
    PlainMerge(s, params, w, u, g);
  }

  lemma PlainTargetedValues(s: Sess, params: map<string, string>, collected: Option<Task>, w: World, u: World, g: Gear)
    requires Plain(s, w, u, g) && s.summon == 4
    ensures OnlyGear(OnValues(s, params, collected, w), OnValues(With(s, g), params, collected, u), g)
  {
    PlainTargeted(s, params, w, u, g);
  }

  lemma PlainReadValues(s: Sess, params: map<string, string>, collected: Option<Task>, w: World, u: World, g: Gear)
    requires Plain(s, w, u, g) && s.summon != 2 && s.summon != 4
    ensures OnlyGear(OnValues(s, params, collected, w), OnValues(With(s, g), params, collected, u), g)
  {
    PlainRead(s, collected, w, u, g);
  }

  lemma PlainValues(s: Sess, params: map<string, string>, collected: Option<Task>, w: World, u: World, g: Gear)
    requires Plain(s, w, u, g)
    ensures OnlyGear(OnValues(s, params, collected, w), OnValues(With(s, g), params, collected, u), g)
  {
    if s.summon == 2 {
      PlainBatchValues(s, params, collected, w, u, g);
    } else if s.summon == 4 {
      PlainTargetedValues(s, params, collected, w, u, g);
    } else {
      PlainReadValues(s, params, collected, w, u, g);
    }
  }

  lemma PlainEmpty(s: Sess, w: World, u: World, g: Gear)
    requires Plain(s, w, u, g)
    ensures OnlyGear(OnEmpty(s, w), OnEmpty(With(s, g), u), g)
  {
    if s.summon == 1 || s.summon == 3 {
      PlainDue(s, w, u, g);
    } else if s.wan.Some? {
      PlainResume(s, s.wan.value, w, u, g);
    } else {
      PlainNext(s, w, u, g);
    }
  }

  lemma PlainDue(s: Sess, w: World, u: World, g: Gear)
    requires Plain(s, w, u, g) && (s.summon == 1 || s.summon == 3)
    ensures OnlyGear(OnEmpty(s, w), OnEmpty(With(s, g), u), g)
  {
  }

  lemma PlainResume(s: Sess, e: Exec, w: World, u: World, g: Gear)
    requires Plain(s, w, u, g) && s.summon != 1 && s.summon != 3 && s.wan == Some(e)
    ensures OnlyGear(OnEmpty(s, w), OnEmpty(With(s, g), u), g)
  {
    assert With(s, g).(wan := None) == With(s.(wan := None), g);
    PlainFinish(s.(wan := None), [], false, w, u, g);
  }

  lemma PlainStep(s: Sess, e: Exec, w: World, u: World, g: Gear)
    requires Plain(s, w, u, g) && !e.Done()
    ensures OnlyGear(Outcome(s.(wan := Some(e)), Ask(e), []), Outcome(With(s, g).(wan := Some(e)), Ask(e), []), g)
  {
  }

  lemma PlainWanSet(s: Sess, e: Exec, w: World, u: World, g: Gear)
    requires Plain(s, w, u, g)
    ensures OnlyGear(OnWanSetParams(s, e, w), OnWanSetParams(With(s, g), e, u), g)
  {
    if e.Advance().Done() {
      assert With(s, g).(wan := None, creds := map[]) == With(s.(wan := None, creds := map[]), g);
      PlainFinish(s.(wan := None, creds := map[]), Saves(s.creds), true, w, u, g);
    } else {
      PlainStep(s, e.Advance(), w, u, g);
    }
  }

  lemma PlainSync(s: Sess, w: World, u: World, g: Gear)
    requires Plain(s, w, u, g)
    ensures OnlyGear(SyncAndFinish(s, w), SyncAndFinish(With(s, g), u), g)
  {
    var t := s.(setParams := map[], creds := map[], provisionMark := false);
    assert With(s, g).(setParams := map[], creds := map[], provisionMark := false) == With(t, g);
    PlainFinish(t, SyncWrites(s.setParams, s.provisionMark, s.creds), true, w, u, g);
  }

  lemma PlainSet(s: Sess, w: World, u: World, g: Gear)
    requires Plain(s, w, u, g) && s.wan.None?
    ensures OnlyGear(ServeIn(s, SetParamsResponse, w), ServeIn(With(s, g), SetParamsResponse, u), g)
  {
    PlainSetIs(s, w);
    PlainSetIs(With(s, g), u);
    if s.current.Some? && s.current.value.kind == AsyncDiagnostic {
      PlainNext(s.(current := None), w, u, g);
    } else {
      PlainSync(s, w, u, g);
    }
  }

  lemma PlainAdd(s: Sess, n: int, w: World, u: World, g: Gear)
    requires Plain(s, w, u, g)
    ensures OnlyGear(OnAddObject(s, n, w), OnAddObject(With(s, g), n, u), g)
  {
    if s.wan.Some? {
      PlainWanAdd(s, s.wan.value, n, w, u, g);
    } else if s.followUp {
      PlainFollow(s, n, w, u, g);
    } else {
      assert s.(followUp := false) == s && With(s, g).(followUp := false) == With(s, g);
      PlainFinish(s, [], true, w, u, g);
    }
  }

  lemma PlainFollow(s: Sess, n: int, w: World, u: World, g: Gear)
    requires Plain(s, w, u, g) && s.wan.None? && s.followUp
    ensures OnlyGear(OnAddObject(s, n, w), OnAddObject(With(s, g), n, u), g)
  {
  }

  lemma PlainWanAdd(s: Sess, e: Exec, n: int, w: World, u: World, g: Gear)
    requires Plain(s, w, u, g) && s.wan == Some(e)
    ensures OnlyGear(OnAddObject(s, n, w), OnAddObject(With(s, g), n, u), g)
  {
    if AddObjectGoesOn(e, n) {
      PlainAddStep(s, e, n, w, u, g);
    } else {
      PlainAddStop(s, e, n, w, u, g);
    }
  }

  lemma PlainAddStep(s: Sess, e: Exec, n: int, w: World, u: World, g: Gear)
    requires Plain(s, w, u, g) && s.wan == Some(e) && AddObjectGoesOn(e, n)
    ensures OnlyGear(OnAddObject(s, n, w), OnAddObject(With(s, g), n, u), g)
  {
    AddObjectCases(s, e, n, w);
    AddObjectCases(With(s, g), e, n, u);
    var t := s.(followUp := false);
    assert With(s, g).(followUp := false, wan := Some(e.AdvanceAddObject(Itoa(n)))) ==
      With(t, g).(wan := Some(e.AdvanceAddObject(Itoa(n))));
    PlainStep(t, e.AdvanceAddObject(Itoa(n)), w, u, g);
  }

  lemma PlainAddStop(s: Sess, e: Exec, n: int, w: World, u: World, g: Gear)
    requires Plain(s, w, u, g) && s.wan == Some(e) && !AddObjectGoesOn(e, n)
    ensures OnlyGear(OnAddObject(s, n, w), OnAddObject(With(s, g), n, u), g)
  {
    AddObjectCases(s, e, n, w);
    AddObjectCases(With(s, g), e, n, u);
    PlainStop(s, !e.Done() && e.Current().kind == AddObject, w, u, g);
  }

  lemma PlainStop(s: Sess, ok: bool, w: World, u: World, g: Gear)
    requires Plain(s, w, u, g)
    ensures OnlyGear(FinishTask(s.(followUp := false, wan := None), [], ok, w),
                       FinishTask(With(s, g).(followUp := false, wan := None), [], ok, u), g)
  {
    var t := s.(followUp := false, wan := None);
    assert With(s, g).(followUp := false, wan := None) == With(t, g);
    PlainFinish(t, [], ok, w, u, g);
  }

  lemma PlainDelete(s: Sess, w: World, u: World, g: Gear)
    requires Plain(s, w, u, g)
    ensures OnlyGear(OnDeleteObject(s, w), OnDeleteObject(With(s, g), u), g)
  {
    if s.wan.Some? {
      PlainWanDelete(s, s.wan.value, w, u, g);
    } else {
      PlainFinish(s, [], true, w, u, g);
    }
  }

  lemma PlainWanDelete(s: Sess, e: Exec, w: World, u: World, g: Gear)
    requires Plain(s, w, u, g) && s.wan == Some(e)
    ensures OnlyGear(OnDeleteObject(s, w), OnDeleteObject(With(s, g), u), g)
  {
    if e.Advance().Done() {
      assert With(s, g).(wan := None) == With(s.(wan := None), g);
      PlainFinish(s.(wan := None), [], true, w, u, g);
    } else {
      PlainStep(s, e.Advance(), w, u, g);
    }
  }

  lemma PlainDownload(s: Sess, async: bool, w: World, u: World, g: Gear)
    requires Plain(s, w, u, g)
    ensures OnlyGear(OnDownload(s, async, w), OnDownload(With(s, g), async, u), g)
  {
    if !async { PlainFinish(s, [], true, w, u, g); }
  }

  lemma PlainFault(s: Sess, w: World, u: World, g: Gear)
    requires Plain(s, w, u, g)
    ensures OnlyGear(OnFault(s, w), OnFault(With(s, g), u), g)
  {
    assert With(s, g).(wan := None, followUp := false) == With(s.(wan := None, followUp := false), g);
    PlainFinish(s.(wan := None, followUp := false), [], false, w, u, g);
  }

  lemma PlainOther(s: Sess, r: Request, w: World, u: World, g: Gear)
    requires Plain(s, w, u, g)
    requires r.Unreadable? || r.Unparsable? || r.GetRpcMethods? || r.TransferComplete? || r.Unrecognised?
    ensures OnlyGear(ServeIn(s, r, w), ServeIn(With(s, g), r, u), g)
  {
  }

  lemma PlainServe(s: Sess, r: Request, w: World, u: World, g: Gear)
    requires Plain(s, w, u, g)
    ensures OnlyGear(ServeIn(s, r, w), ServeIn(With(s, g), r, u), g)
  {
    match r {
      case Empty => PlainEmpty(s, w, u, g);
      case SetParamsResponse =>
        if s.wan.Some? { PlainWanSet(s, s.wan.value, w, u, g); } else { PlainSet(s, w, u, g); }
      case NamesResponse(all) => PlainNames(s, all, w, u, g);
      case ValuesResponse(params, collected) => PlainValues(s, params, collected, w, u, g);
      case RebootResponse => PlainFinish(s, [], true, w, u, g);
      case FactoryResetResponse => PlainFinish(s, [], true, w, u, g);
      case DownloadResponse(async) => PlainDownload(s, async, w, u, g);
      case AddObjectResponse(n) => PlainAdd(s, n, w, u, g);
      case DeleteObjectResponse => PlainDelete(s, w, u, g);
      case Fault => PlainFault(s, w, u, g);
      case _ => PlainOther(s, r, w, u, g);
    }
  }

  lemma GearServe(s: Sess, r: Request, w: World, g: Gear)
    requires Quiescent(s) && Alike(s.gear, g)
    ensures OnlyGear(Serve(s, r, w), Serve(With(s, g), r, w), g)
  {
    PlainServe(s, r, Facing(w, s.gear), Facing(w, g), g);
  }

  lemma GearInform(s: Sess, inf: Informed, w: World, g: Gear)
    requires Quiescent(s) && Alike(s.gear, g)
    ensures OnlyGear(OnInform(s, inf, w), OnInform(With(s, g), inf, w), g)
  {
    var b := s.(bootstrap := inf.bootstrap);
    assert With(s, g).(bootstrap := inf.bootstrap) == With(b, g);
    if inf.stored && inf.fullSummon {
      var due := b.(summon := 1, schema := inf.schema);
      assert With(b, g).(summon := 1, schema := inf.schema) == With(due, g);
      PlainNext(due, Facing(w, s.gear), Facing(w, g), g);
    } else if inf.stored {
      TaskedForgetsGear(b, inf, w, g);
    }
  }

  lemma TaskedForgetsGear(s: Sess, inf: Informed, w: World, g: Gear)
    ensures Tasked(With(s, g), inf, w) == Tasked(s, inf, w)
  {
    TargetsForgetGear(s, inf, g);
    assert With(s, g).needs == s.needs;
  }

  lemma TargetsForgetGear(s: Sess, inf: Informed, g: Gear)
    ensures Targeted(With(s, g), inf) == With(Targeted(s, inf), g)
  {
    if inf.targets != [] {
      assert With(s, g).(summon := 3, targets := inf.targets, refresh := inf.refresh, schema := inf.schema) ==
        With(s.(summon := 3, targets := inf.targets, refresh := inf.refresh, schema := inf.schema), g);
    }
  }

  lemma AlwaysSimilar(s: Sess)
    ensures Similar(s, s)
  {
  }

  predicate SameSeen(o: Outcome, p: Outcome) {
    o.reply == p.reply && o.writes == p.writes
  }

  /** Sessions that look the same from outside: similar ones, or ones that differ in their mappers as well, with no use
      for either but to tell the root object. */
  predicate Like(s: Sess, t: Sess) {
    Similar(s, t) || (Quiescent(s) && Alike(s.gear, t.gear) && Similar(With(s, t.gear), t))
  }

  lemma OnlyGearIsLike(o: Outcome, p: Outcome, g: Gear)
    requires OnlyGear(o, p, g)
    ensures Like(o.sess, p.sess)
  {
    AlwaysSimilar(p.sess);
  }

  lemma LikeServe(s: Sess, t: Sess, r: Request, w: World)
    requires Like(s, t)
    ensures SameSeen(Serve(s, r, w), Serve(t, r, w)) && Like(Serve(s, r, w).sess, Serve(t, r, w).sess)
  {
    if Similar(s, t) {
      SimilarServe(s, t, r, w);
    } else {
      var o, p, q := Serve(s, r, w), Serve(With(s, t.gear), r, w), Serve(t, r, w);
      GearServe(s, r, w, t.gear);
      OnlyGearIsLike(o, p, t.gear);
      SimilarServe(With(s, t.gear), t, r, w);
      LikeThenSimilar(o.sess, p.sess, q.sess);
    }
  }

  lemma LikeInform(s: Sess, t: Sess, inf: Informed, w: World)
    requires Like(s, t)
    ensures SameSeen(OnInform(s, inf, w), OnInform(t, inf, w))
      && Like(OnInform(s, inf, w).sess, OnInform(t, inf, w).sess)
  {
    if Similar(s, t) {
      SimilarInform(s, t, inf, w);
    } else {
      var o, p, q := OnInform(s, inf, w), OnInform(With(s, t.gear), inf, w), OnInform(t, inf, w);
      GearInform(s, inf, w, t.gear);
      OnlyGearIsLike(o, p, t.gear);
      SimilarInform(With(s, t.gear), t, inf, w);
      LikeThenSimilar(o.sess, p.sess, q.sess);
    }
  }

  lemma SimilarThrough(s: Sess, t: Sess, u: Sess)
    requires Similar(s, t) && Similar(t, u)
    ensures Similar(s, u)
  {
  }

  lemma LikeThenSimilar(s: Sess, t: Sess, u: Sess)
    requires Like(s, t) && Similar(t, u)
    ensures Like(s, u)
  {
    if Similar(s, t) { SimilarThrough(s, t, u); } else { SimilarThrough(With(s, t.gear), t, u); }
  }

  lemma LikeTrans(s: Sess, t: Sess, u: Sess)
    requires Like(s, t) && Like(t, u)
    ensures Like(s, u)
  {
    if Similar(t, u) {
      LikeThenSimilar(s, t, u);
    } else if Similar(s, t) {
      SimilarGeared(s, t, u.gear);
      SimilarThrough(With(s, u.gear), With(t, u.gear), u);
    } else {
      GearsThrough(s, t, u);
    }
  }

  lemma GearsThrough(s: Sess, t: Sess, u: Sess)
    requires Similar(With(s, t.gear), t) && Similar(With(t, u.gear), u)
    ensures Similar(With(s, u.gear), u)
  {
    SimilarGeared(With(s, t.gear), t, u.gear);
    assert With(With(s, t.gear), u.gear) == With(s, u.gear);
    SimilarThrough(With(s, u.gear), With(t, u.gear), u);
  }

  lemma LikeAdopted(s: Sess, t: Sess, cur: Sess)
    requires Like(s, t)
    ensures AdoptedBy(s, cur) == AdoptedBy(t, cur)
  {
    if Similar(s, t) {
      SimilarAdopted(s, t, cur);
    } else {
      SimilarAdopted(With(s, t.gear), t, cur);
      GearAdopted(s, cur, t.gear);
    }
  }

  lemma SimilarAdopted(s: Sess, t: Sess, cur: Sess)
    requires Similar(s, t)
    ensures AdoptedBy(s, cur) == AdoptedBy(t, cur)
  {
    assert Inherit(s, cur) == Inherit(t, cur);
  }

  lemma GearAdopted(s: Sess, cur: Sess, g: Gear)
    ensures AdoptedBy(With(s, g), cur) == AdoptedBy(s, cur)
  {
    assert Inherit(With(s, g), cur) == Inherit(s, cur);
  }

  lemma LikeTriggered(s: Sess, t: Sess)
    requires Like(s, t)
    ensures Like(Triggered(s), Triggered(t))
  {
    if Similar(s, t) {
      SimilarTriggered(s, t);
    } else {
      SimilarTriggered(With(s, t.gear), t);
      TriggeredKeeps(t);
      GearTriggered(s, t.gear);
      TriggeredKeeps(s);
    }
  }

  lemma SimilarTriggered(s: Sess, t: Sess)
    requires Similar(s, t)
    ensures Similar(Triggered(s), Triggered(t))
  {
    if !s.lifecycle.Closed? { SimilarDueAll(s, t); }
  }

  lemma SimilarDueAll(s: Sess, t: Sess)
    requires Similar(s, t)
    ensures Similar(s.(summon := 1), t.(summon := 1))
  {
  }

  lemma GearTriggered(s: Sess, g: Gear)
    ensures Triggered(With(s, g)) == With(Triggered(s), g)
  {
    if !s.lifecycle.Closed? {
      assert Triggered(s) == s.(summon := 1);
      assert With(s, g).(summon := 1) == With(s.(summon := 1), g);
    }
  }

  lemma TriggeredKeeps(s: Sess)
    ensures Triggered(s).gear == s.gear && (Quiescent(Triggered(s)) <==> Quiescent(s))
  {
    if !s.lifecycle.Closed? {
      var t := s.(summon := 1);
      assert t.pending == s.pending && t.current == s.current && t.wan == s.wan && t.gear == s.gear;
    }
  }

  /** Two devices whose bound sessions look the same, and which are elsewhere served by the same session. */
  predicate LikeLine(l: Line, m: Line) {
    l.place == m.place && Like(l.bound, m.bound)
  }

  lemma LikeMeeting(l: Line, m: Line, rotated: bool)
    requires LikeLine(l, m)
    ensures Like(Meeting(l, rotated), Meeting(m, rotated)) && Like(Met(l), Met(m))
  {
    LikeAdopted(l.bound, m.bound, FRESH_SESS);
    if l.place.Stray? { LikeAdopted(l.bound, m.bound, l.place.sess); }
  }

  lemma LikeStep(l: Line, m: Line, h: Happening, w: World)
    requires LikeLine(l, m)
    ensures Sight(l, h, w) == Sight(m, h, w) && LikeLine(Moved(l, h, w), Moved(m, h, w))
  {
    match h {
      case Post(r) => LikeServe(Met(l), Met(m), r, w);
      case Inform(inf, rotated) =>
        LikeMeeting(l, m, rotated);
        LikeInform(Meeting(l, rotated), Meeting(m, rotated), inf, w);
      case Trigger => LikeTriggered(l.bound, m.bound);
    }
  }

  lemma {:induction false} LikeView(l: Line, m: Line, xs: seq<(Happening, World)>)
    requires LikeLine(l, m)
    ensures View(l, xs) == View(m, xs)
    decreases |xs|
  {
    if xs != [] {
      LikeStep(l, m, xs[0].0, xs[0].1);
      LikeView(Moved(l, xs[0].0, xs[0].1), Moved(m, xs[0].0, xs[0].1), xs[1..]);
    }
  }
}
