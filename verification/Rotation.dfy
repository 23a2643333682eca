/** A CPE that rotates its session id between requests: what it can notice of that, and what goes on across sessions. */
module Rotation {
  import opened GoStrings
  import opened Provisioning
  import Flows = Provisioning
  import opened CwmpSpec
  import opened DeviceLine
  import opened CwmpProtocol
  import opened SessionLikeness
  import opened Tasks

  predicate SameWork(s: Sess, t: Sess) {
    s.current == t.current && s.wan == t.wan && s.followUp == t.followUp
  }

  // ---- does it show that a device rotates its session id? ----

  /** The Inform and everything after it look the same under a fresh id and under the old one. */
  predicate LooksSame(s: Sess, inf: Informed, w: World, xs: seq<(Happening, World)>) {
    View(AtBound(s), [(Inform(inf, true), w)] + xs) == View(AtBound(s), [(Inform(inf, false), w)] + xs)
  }

  predicate NothingSent(s: Sess) {
    s.setParams == map[] && s.creds == map[] && !s.provisionMark
  }

  /** Whether the Inform sets the mapper and the driver, and gives the session its tasks. */
  predicate Equips(inf: Informed) {
    inf.stored && !inf.fullSummon
  }

  /** A fresh session would not have these leftovers, and a handler can still find them: what was sent without a task
      in flight, global defaults to be applied, tasks, a summon and its schema that the Inform does not replace, the
      driver, and a mapper with which a task would be sent again or which leads to another root object. */
  predicate Unnoticed(s: Sess, inf: Informed) {
    && (Busy(s) || NothingSent(s))
    && (s.needs ==> Equips(inf) && inf.bootstrap)
    && (!Equips(inf) ==> s.pending == [] && !s.gear.driver && MapperUnused(s))
    && (if !inf.stored then Phase(s) == 0 && s.schema == "" && !s.lifecycle.Closed?
        else !inf.fullSummon && inf.targets == [] ==> Phase(s) == 0 && s.schema == "")
  }

  predicate MapperUnused(s: Sess) {
    s.gear.mapper.Some? ==> Quiescent(s) && !IsTr098(s.gear.mapper)
  }

  // without leftovers nothing shows

  /** A fresh session that has adopted: the work and what belongs to it, and nothing else. */
  lemma AdoptedFields(s: Sess)
    ensures var a := Adopted(s);
      && a.current == s.current && a.wan == s.wan && a.followUp == s.followUp && a.pending == []
      && Phase(a) == 0 && a.schema == "" && !a.needs && a.gear == Gear(None, false) && a.lifecycle.New?
      && (a.setParams == s.setParams && a.creds == s.creds && a.provisionMark == s.provisionMark <==>
          Busy(s) || NothingSent(s))
  {
  }

  /** After the Inform the two sessions look the same, and so did its reply and its writes. */
  lemma UnnoticedIsLike(s: Sess, inf: Informed, w: World)
    requires Unnoticed(s, inf)
    ensures SameSeen(OnInform(Adopted(s), inf, w), OnInform(s, inf, w))
    ensures Like(OnInform(Adopted(s), inf, w).sess, OnInform(s, inf, w).sess)
  {
    var a, b := Adopted(s).(bootstrap := inf.bootstrap), s.(bootstrap := inf.bootstrap);
    AdoptedFields(s);
    if inf.stored && inf.fullSummon {
      UnnoticedBySummon(s, inf);
      NothingNext(a.(summon := 1, schema := inf.schema), Facing(w, a.gear));
      NothingNext(b.(summon := 1, schema := inf.schema), Facing(w, s.gear));
    } else if inf.stored {
      UnnoticedByTasks(s, inf, w);
      SimilarInject(Tasked(a, inf, w), Tasked(b, inf, w), w);
    }
  }

  lemma UnnoticedBySummon(s: Sess, inf: Informed)
    requires Unnoticed(s, inf) && inf.stored && inf.fullSummon
    ensures Like(Adopted(s).(bootstrap := inf.bootstrap, summon := 1, schema := inf.schema, lifecycle := Closed),
                 s.(bootstrap := inf.bootstrap, summon := 1, schema := inf.schema, lifecycle := Closed))
  {
    AdoptedFields(s);
  }

  lemma UnnoticedByTasks(s: Sess, inf: Informed, w: World)
    requires Unnoticed(s, inf) && inf.stored && !inf.fullSummon
    ensures Similar(Tasked(Adopted(s).(bootstrap := inf.bootstrap), inf, w), Tasked(s.(bootstrap := inf.bootstrap), inf,
      w))
  {
    AdoptedFields(s);
    if inf.targets != [] {
      TargetsOverwrite(Adopted(s).(bootstrap := inf.bootstrap), s.(bootstrap := inf.bootstrap), inf);
    }
  }

  lemma TargetsOverwrite(s: Sess, t: Sess, inf: Informed)
    requires inf.targets != []
    ensures SameSummon(Targeted(s, inf), Targeted(t, inf)) && Targeted(s, inf).schema == Targeted(t, inf).schema
  {
  }

  lemma ViewCons(l: Line, h: Happening, w: World, xs: seq<(Happening, World)>)
    ensures View(l, [(h, w)] + xs) == [Sight(l, h, w)] + View(Moved(l, h, w), xs)
  {
    assert ([(h, w)] + xs)[1..] == xs;
  }

  lemma UnnoticedLooksSame(s: Sess, inf: Informed, w: World, xs: seq<(Happening, World)>)
    requires Unnoticed(s, inf)
    ensures LooksSame(s, inf, w, xs)
  {
    UnnoticedIsLike(s, inf, w);
    LikeView(AtBound(OnInform(Adopted(s), inf, w).sess), AtBound(OnInform(s, inf, w).sess), xs);
    ViewCons(AtBound(s), Inform(inf, true), w, xs);
    ViewCons(AtBound(s), Inform(inf, false), w, xs);
  }

  // a leftover shows

  const ALWAYS: (Task, nat) -> bool := (t, n) => true

  const SENDS: (Task, nat) -> Build := (t, n) => Sends(None, None)

  /** Every write and every request succeeds; there are no default parameters. */
  const EAGER: World := World(ALWAYS, ALWAYS, g => SENDS, SENDS, None, NoGlobals, true)

  lemma EagerFaces(gear: Gear)
    ensures Facing(EAGER, gear) == EAGER
  {
  }

  lemma EagerNext(s: Sess)
    ensures var o := DispatchNext(s, EAGER);
      if s.pending == [] then o == Outcome(s.(lifecycle := Closed), NoContent, [])
      else o == Outcome(s.(pending := s.pending[1..], current := Some(Marked(s.pending[0]))),
        TaskRequest(Marked(s.pending[0])),
                        StatusWrites(Marked(s.pending[0]), true))
  {
  }

  lemma ViewHead(l: Line, h: Happening, w: World)
    ensures View(l, [(h, w)]) == [Sight(l, h, w)]
  {
    ViewCons(l, h, w, []);
    assert [(h, w)] + [] == [(h, w)];
  }

  lemma PartsAt(a: Sess, b: Sess, h: Happening, w: World) returns (xs: seq<(Happening, World)>)
    requires Sight(AtBound(a), h, w) != Sight(AtBound(b), h, w)
    ensures Parted(a, b, xs)
  {
    xs := [(h, w)];
    ViewHead(AtBound(a), h, w);
    ViewHead(AtBound(b), h, w);
    assert View(AtBound(a), xs)[0] != View(AtBound(b), xs)[0];
  }

  /** The happenings tell the sessions apart. */
  predicate Parted(a: Sess, b: Sess, xs: seq<(Happening, World)>) {
    View(AtBound(a), xs) != View(AtBound(b), xs)
  }

  /** One thing more that happens first. */
  lemma PartsAfter(a: Sess, b: Sess, h: Happening, w: World, xs: seq<(Happening, World)>)
    returns (all: seq<(Happening, World)>)
    requires View(Moved(AtBound(a), h, w), xs) != View(Moved(AtBound(b), h, w), xs)
    ensures Parted(a, b, all)
  {
    all := [(h, w)] + xs;
    ViewCons(AtBound(a), h, w, xs);
    ViewCons(AtBound(b), h, w, xs);
    assert View(AtBound(a), all)[1..] == View(Moved(AtBound(a), h, w), xs);
    assert View(AtBound(b), all)[1..] == View(Moved(AtBound(b), h, w), xs);
  }

  lemma EagerFault(s: Sess)
    ensures var o := Serve(s, Fault, EAGER);
      && o.reply == (if s.pending == [] then NoContent else TaskRequest(Marked(s.pending[0])))
      && o.sess.summon == s.summon
      && o.sess.current == (if s.pending == [] then None else Some(Marked(s.pending[0])))
      && o.sess.pending == (if s.pending == [] then [] else s.pending[1..])
  {
    EagerFaces(s.gear);
    EagerNext(s.(wan := None, followUp := false, current := None));
  }

  /** Tasks left over: the next fault starts one. */
  lemma PendingParts(a: Sess, b: Sess) returns (xs: seq<(Happening, World)>)
    requires a.pending == [] && b.pending != []
    ensures Parted(a, b, xs)
  {
    EagerFault(a);
    EagerFault(b);
    xs := PartsAt(a, b, Post(Fault), EAGER);
  }

  /** The first write of an acknowledgement tells whether something was sent. */
  lemma EagerSync(s: Sess)
    requires s.wan.None? && s.current.None?
    ensures var o := Serve(s, SetParamsResponse, EAGER);
      o.writes != [] && o.writes[0].SaveParams? <==> !NothingSent(s)
  {
    var idle := s.(setParams := map[], creds := map[], provisionMark := false, current := None);
    var saved := SyncWrites(s.setParams, s.provisionMark, s.creds);
    EagerFaces(s.gear);
    EagerNext(idle);
    PlainSetIs(s, EAGER);
    assert SyncAndFinish(s, EAGER).writes == saved + [] + DispatchNext(idle, EAGER).writes;
    FirstSaved(s);
    assert saved + [] == saved;
  }

  lemma FirstSaved(s: Sess)
    ensures var saved := SyncWrites(s.setParams, s.provisionMark, s.creds);
      (saved == [] <==> NothingSent(s)) && (saved != [] ==> saved[0].SaveParams?)
  {
  }

  /** Parameters and credentials that were sent: the next acknowledgement stores them. */
  lemma SentParts(a: Sess, b: Sess) returns (xs: seq<(Happening, World)>)
    requires a.wan.None? && a.current.None? && b.wan.None? && b.current.None? && NothingSent(a) && !NothingSent(b)
    ensures Parted(a, b, xs)
  {
    EagerSync(a);
    EagerSync(b);
    xs := PartsAt(a, b, Post(SetParamsResponse), EAGER);
  }

  const BARE := Informed(false, true, false, [], false, "", [])

  lemma BareMarks(s: Sess)
    ensures OnInform(s, BARE, EAGER.(globals := Matching)).writes == if s.needs then [SaveParams(PROVISIONED_MARK)]
      else []
  {
  }

  /** Global defaults that are still to be applied: the next Inform looks at them. */
  lemma NeedsParts(a: Sess, b: Sess) returns (xs: seq<(Happening, World)>)
    requires !a.needs && b.needs
    ensures Parted(a, b, xs)
  {
    BareMarks(a);
    BareMarks(b);
    xs := PartsAt(a, b, Inform(BARE, false), EAGER.(globals := Matching));
  }

  lemma EagerEmpty(s: Sess)
    requires Phase(s) != 1 && Phase(s) != 3
    ensures var r := Serve(s, Empty, EAGER).reply; r.StepRequest? || r.TaskRequest? || r.NoContent?
  {
    EagerFaces(s.gear);
    if s.wan.Some? {
      EagerResume(s, s.wan.value);
    } else if s.current.Some? {
      EagerAgain(s, s.current.value);
    } else {
      EagerNext(s);
    }
  }

  lemma EagerResume(s: Sess, e: Exec)
    requires Phase(s) != 1 && Phase(s) != 3 && s.wan == Some(e)
    ensures var r := OnEmpty(s, EAGER).reply; r.StepRequest? || r.TaskRequest? || r.NoContent?
  {
    EagerNext(s.(wan := None, current := None));
  }

  lemma EagerAgain(s: Sess, t: Task)
    ensures DispatchTask(s, t, true, EAGER).reply == TaskRequest(Marked(t))
  {
  }

  /** A summon that is due: the next empty POST starts it. */
  lemma DueParts(a: Sess, b: Sess) returns (xs: seq<(Happening, World)>)
    requires Phase(a) == 0 && (Phase(b) == 1 || Phase(b) == 3)
    ensures Parted(a, b, xs)
  {
    EagerEmpty(a);
    xs := PartsAt(a, b, Post(Empty), EAGER);
  }

  const READER := Task("a", "", Ordinary, Pending, 0)

  const QUIET := Informed(false, true, false, [], false, "", [READER])

  lemma EagerEnd(s: Sess, params: map<string, string>)
    ensures var o := EndSummon(s, params, EAGER); o.writes != [] && o.writes[0].SaveParams?
  {
  }

  lemma EagerBatch(s: Sess)
    ensures var o := SendBatch(s, EAGER); o.writes == [] || o.writes[0].SaveParams?
  {
    EagerEnd(s.(summon := 0, names := [], params := map[]), s.params);
  }

  lemma EagerTargeted(s: Sess)
    requires s.pending == []
    ensures var o := OnTargeted(s, map[], EAGER); o.writes == [] || o.writes[0].SaveParams?
  {
    EagerFaces(Known(s));
    EagerNext(Learned(s.(summon := 0, targets := [], refresh := false)));
    EagerEnd(s.(summon := 0, targets := [], refresh := false), map[]);
  }

  /** Values that arrive while READER is in flight and nothing waits. */
  lemma EagerValues(s: Sess)
    requires s.current == Some(Marked(READER)) && s.pending == []
    ensures var o := Serve(s, ValuesResponse(map[], None), EAGER);
      if Phase(s) == 2 || Phase(s) == 4 then o.writes == [] || o.writes[0].SaveParams?
      else o.writes != [] && o.writes[0].StatusOf?
  {
    EagerFaces(s.gear);
    if Phase(s) == 2 {
      EagerBatch(s.(params := s.params + map[], batch := s.batch + 1));
    } else if Phase(s) == 4 {
      EagerTargeted(s);
    } else {
      EagerRead(s);
    }
  }

  lemma EagerRead(s: Sess)
    requires s.current == Some(Marked(READER))
    ensures var o := OnRead(s, None, EAGER); o.writes != [] && o.writes[0].StatusOf?
  {
  }

  lemma QuietInform(s: Sess)
    ensures var t := OnInform(s, QUIET, EAGER).sess; t.pending == [READER] && t.summon == s.summon
  {
    assert [] + [READER] == [READER];
  }

  /** The session once READER is in flight. */
  lemma ReaderStarts(s: Sess) returns (t: Sess)
    ensures t.summon == s.summon && t.current == Some(Marked(READER)) && t.pending == []
    ensures t == Serve(OnInform(s, QUIET, EAGER).sess, Fault, EAGER).sess
  {
    QuietInform(s);
    EagerFault(OnInform(s, QUIET, EAGER).sess);
    t := Serve(OnInform(s, QUIET, EAGER).sess, Fault, EAGER).sess;
  }

  /** A summon whose values are outstanding: values that arrive later are not taken for those of a task. */
  lemma OpenParts(a: Sess, b: Sess) returns (xs: seq<(Happening, World)>)
    requires Phase(a) == 0 && (Phase(b) == 2 || Phase(b) == 4)
    ensures Parted(a, b, xs)
  {
    var t := ReaderStarts(a);
    var u := ReaderStarts(b);
    EagerValues(t);
    EagerValues(u);
    xs := PartsAt(t, u, Post(ValuesResponse(map[], None)), EAGER);
    var a', b' := OnInform(a, QUIET, EAGER).sess, OnInform(b, QUIET, EAGER).sess;
    xs := PartsAfter(a', b', Post(Fault), EAGER, xs);
    xs := PartsAfter(a, b, Inform(QUIET, false), EAGER, xs);
  }

  // mapper and driver

  lemma OneName()
    ensures LeafNames(["a"]) == ["a"]
  {
    assert ["a"][..0] == [];
    assert [] + ["a"] == ["a"];
  }

  /** A summon that asks for one value. */
  lemma OneBatch(s: Sess, w: World)
    ensures Serve(s, NamesResponse(["a"]), w) ==
      Outcome(s.(summon := 2, names := ["a"], batch := 0, params := map[]), GetValues(["a"]), [])
  {
    OneName();
    assert Batch(["a"], BatchSize(s.schema), 0) == ["a"];
  }

  const DRIVEN: World := EAGER.(defaults := Some(READER))

  lemma DrivenFaces(gear: Gear)
    ensures Facing(DRIVEN, gear) == DRIVEN
  {
  }

  /** At the end of a summon the driver's defaults are pushed, if there is a driver. */
  lemma DrivenEnd(s: Sess, params: map<string, string>)
    requires s.pending == []
    ensures EndSummon(s, params, DRIVEN).reply == if s.gear.driver then TaskRequest(Marked(READER)) else NoContent
  {
    DrivenFaces(Known(s));
    DrivenExtra(Learned(s));
    DrivenNext(Inject(Learned(s), Extra(Learned(s), DRIVEN), DRIVEN));
  }

  lemma DrivenExtra(s: Sess)
    requires s.pending == []
    ensures Inject(s, Extra(s, DRIVEN), DRIVEN).pending == if s.gear.driver then [READER] else []
  {
  }

  lemma DrivenNext(s: Sess)
    ensures DispatchNext(s, DRIVEN).reply == if s.pending == [] then NoContent else TaskRequest(Marked(s.pending[0]))
  {
  }

  lemma DrivenValues(s: Sess)
    requires s.pending == [] && s.summon == 2 && s.names == ["a"] && s.batch == 0
    ensures Serve(s, ValuesResponse(map[], None), DRIVEN).reply ==
      if s.gear.driver then TaskRequest(Marked(READER)) else NoContent
  {
    DrivenFaces(s.gear);
    var t := s.(params := s.params + map[], batch := 1);
    DrivenEnd(t.(summon := 0, names := [], params := map[]), t.params);
  }

  /** A driver that one of them knows: the end of the next summon pushes its default parameters. */
  lemma DriverParts(a: Sess, b: Sess) returns (xs: seq<(Happening, World)>)
    requires a.pending == [] && b.pending == [] && !a.gear.driver && b.gear.driver
    ensures Parted(a, b, xs)
  {
    OneBatch(a, DRIVEN);
    OneBatch(b, DRIVEN);
    var t, u := Serve(a, NamesResponse(["a"]), DRIVEN).sess, Serve(b, NamesResponse(["a"]), DRIVEN).sess;
    DrivenValues(t);
    DrivenValues(u);
    xs := PartsAt(t, u, Post(ValuesResponse(map[], None)), DRIVEN);
    xs := PartsAfter(a, b, Post(NamesResponse(["a"])), DRIVEN, xs);
  }

  const FAILS: (Task, nat) -> Build := (t, n) => BuildFails

  /** Without a mapper no request can be built. */
  const BLIND: World := EAGER.(built := (g: Gear) => if g.mapper.None? then FAILS else SENDS)

  /** An empty list of names ends a summon that is due, whatever the world. */
  lemma NoNames(s: Sess, w: World)
    requires s.pending == []
    ensures Serve(s, NamesResponse([]), w).sess == s.(summon := 0, lifecycle := Closed)
  {
    NothingNext(s.(summon := 0), Facing(w, s.gear));
  }

  lemma BlindAgain(s: Sess, t: Task)
    requires s.pending == [] && s.summon == 0 && s.wan.None? && s.current == Some(t)
    ensures Serve(s, Empty, BLIND).reply == if s.gear.mapper.None? then NoContent else TaskRequest(Marked(t))
  {
    var w := Facing(BLIND, s.gear);
    assert w.build == if s.gear.mapper.None? then FAILS else SENDS;
    assert Serve(s, Empty, BLIND) == DispatchTask(s, t, true, w);
    var a := Attempt(s, t, true, w);
    if s.gear.mapper.None? {
      assert w.build(t, 0) == BuildFails;
      NothingNext(a.sess, w);
    } else {
      assert w.build(t, 0) == Sends(None, None);
    }
  }

  /** A mapper that one of them has: the task in flight can be sent again. */
  lemma MapperParts(a: Sess, b: Sess) returns (xs: seq<(Happening, World)>)
    requires a.pending == [] && b.pending == [] && a.gear.mapper.None? && b.gear.mapper.Some?
    requires a.current == b.current && a.wan == b.wan && !Quiescent(b)
    ensures Parted(a, b, xs)
  {
    NoNames(a, BLIND);
    NoNames(b, BLIND);
    var t, u := a.(summon := 0, lifecycle := Closed), b.(summon := 0, lifecycle := Closed);
    BlindAgain(t, t.current.value);
    BlindAgain(u, u.current.value);
    xs := PartsAt(t, u, Post(Empty), BLIND);
    xs := PartsAfter(a, b, Post(NamesResponse([])), BLIND, xs);
  }

  const SUMMONS := Informed(false, true, true, [], false, "", [])

  lemma SummonsInform(s: Sess)
    requires s.pending == []
    ensures OnInform(s, SUMMONS, EAGER).sess == s.(bootstrap := false, summon := 1, schema := "", lifecycle := Closed)
  {
    NothingNext(s.(bootstrap := false, summon := 1, schema := ""), Facing(EAGER, s.gear));
  }

  /** A mapper for TR-098 that one of them has: a full summon asks for names below another root object. */
  lemma RootParts(a: Sess, b: Sess) returns (xs: seq<(Happening, World)>)
    requires a.pending == [] && b.pending == [] && a.gear.mapper.None? && IsTr098(b.gear.mapper)
    ensures Parted(a, b, xs)
  {
    SummonsInform(a);
    SummonsInform(b);
    var t, u := OnInform(a, SUMMONS, EAGER).sess, OnInform(b, SUMMONS, EAGER).sess;
    assert Serve(t, Empty, EAGER).reply == GetNames(ROOT_TR181) by { assert ToLower("") == ""; }
    assert Serve(u, Empty, EAGER).reply == GetNames(ROOT_TR098);
    assert |ROOT_TR181| != |ROOT_TR098|;
    xs := PartsAt(t, u, Post(Empty), EAGER);
    xs := PartsAfter(a, b, Inform(SUMMONS, false), EAGER, xs);
  }

  /** Without a schema no request can be built; global defaults are pushed after every summon. */
  const NAMELESS: World :=
    EAGER.(built := (g: Gear) => if g.mapper == Some("") then FAILS else SENDS, globals := Pushing(READER),
      provisioned := false)

  lemma {:induction false} FailingNext(s: Sess, w: World)
    requires w.markOk == ALWAYS && w.build == FAILS
    ensures DispatchNext(s, w).reply == NoContent
    decreases |s.pending|
  {
    if s.pending != [] {
      var rest := s.(pending := s.pending[1..]);
      FailingAttempt(rest, s.pending[0], w);
      FailingNext(Attempt(rest, s.pending[0], false, w).sess, w);
    }
  }

  lemma FailingAttempt(s: Sess, t: Task, w: World)
    requires w.markOk == ALWAYS && w.build == FAILS
    ensures Attempt(s, t, false, w).request.None?
  {
    assert w.markOk(t, |s.pending|) && w.build(t, |s.pending|) == BuildFails;
  }

  lemma SendingNext(s: Sess, w: World)
    requires s.pending != [] && w.markOk == ALWAYS && w.build == SENDS
    ensures DispatchNext(s, w).reply == TaskRequest(Marked(s.pending[0]))
  {
    var n := |s.pending| - 1;
    assert w.markOk(s.pending[0], n) && w.build(s.pending[0], n) == Sends(None, None);
  }

  lemma NamelessEnd(s: Sess, params: map<string, string>)
    ensures EndSummon(s, params, Facing(NAMELESS, s.gear)).reply ==
      if s.schema == "" then NoContent else TaskRequest(Marked(READER))
  {
    var l, w := Learned(s), Facing(Facing(NAMELESS, s.gear), Known(s));
    var t := Inject(l, Extra(l, w), w);
    assert w.markOk == ALWAYS && w.build == if s.schema == "" then FAILS else SENDS;
    NamelessExtra(l, w);
    if s.schema == "" { FailingNext(t, w); } else { SendingNext(t, w); }
  }

  lemma NamelessExtra(s: Sess, w: World)
    requires w.globals == Pushing(READER) && !w.provisioned && w.defaults.None?
    ensures Inject(s, Extra(s, w), w).pending == [READER] + s.pending
  {
    assert Extra(s, w) == [READER];
  }

  lemma NamelessValues(s: Sess)
    requires s.summon == 2 && s.names == ["a"] && s.batch == 0
    ensures Serve(s, ValuesResponse(map[], None), NAMELESS).reply ==
      if s.schema == "" then NoContent else TaskRequest(Marked(READER))
  {
    var t := s.(params := s.params + map[], batch := 1);
    NamelessEnd(t.(summon := 0, names := [], params := map[]), t.params);
  }

  /** The schema of an earlier summon: at the end of one that comes unasked the mapper is made from it. */
  lemma SchemaParts(a: Sess, b: Sess) returns (xs: seq<(Happening, World)>)
    requires a.schema == "" && b.schema != ""
    ensures Parted(a, b, xs)
  {
    OneBatch(a, NAMELESS);
    OneBatch(b, NAMELESS);
    var t, u := Serve(a, NamesResponse(["a"]), NAMELESS).sess, Serve(b, NamesResponse(["a"]), NAMELESS).sess;
    NamelessValues(t);
    NamelessValues(u);
    xs := PartsAt(t, u, Post(ValuesResponse(map[], None)), NAMELESS);
    xs := PartsAfter(a, b, Post(NamesResponse(["a"])), NAMELESS, xs);
  }

  /** A session that is closed: a full summon asked for through the API does not reach it. */
  lemma ClosedParts(a: Sess, b: Sess) returns (xs: seq<(Happening, World)>)
    requires !a.lifecycle.Closed? && b.lifecycle.Closed? && Phase(b) != 1 && Phase(b) != 3
    ensures Parted(a, b, xs)
  {
    EagerEmpty(b);
    xs := PartsAt(Triggered(a), Triggered(b), Post(Empty), EAGER);
    xs := PartsAfter(a, b, Trigger, EAGER, xs);
  }

  /** What an Inform under EAGER leaves when a full summon finds nothing to start. */
  lemma EagerInform(s: Sess, inf: Informed)
    requires inf.stored && inf.fullSummon ==> s.pending == []
    ensures var o, b := OnInform(s, inf, EAGER).sess, s.(bootstrap := inf.bootstrap);
      o == if !inf.stored then b
           else if inf.fullSummon then b.(summon := 1, schema := inf.schema, lifecycle := Closed)
           else Tasked(b, inf, EAGER)
  {
    if inf.stored && inf.fullSummon {
      NothingNext(s.(bootstrap := inf.bootstrap, summon := 1, schema := inf.schema), Facing(EAGER, s.gear));
    } else if inf.stored {
      var t := Tasked(s.(bootstrap := inf.bootstrap), inf, EAGER);
      assert [] + t.pending == t.pending;
    }
  }

  /** Whether the Inform schedules a summon of its own. */
  predicate Overwrites(inf: Informed) {
    inf.stored && (inf.fullSummon || inf.targets != [])
  }

  /** What the Inform leaves of s that matters later. */
  predicate Leaves(s: Sess, inf: Informed, o: Sess) {
    && o.current == s.current && o.wan == s.wan
    && o.setParams == s.setParams && o.creds == s.creds && o.provisionMark == s.provisionMark
    && (o.needs <==> s.needs || (Equips(inf) && inf.bootstrap))
    && (!Equips(inf) ==> o.pending == s.pending && o.gear == s.gear)
    && (!inf.stored ==> o.lifecycle == s.lifecycle)
    && (!Overwrites(inf) ==> o.summon == s.summon && o.schema == s.schema)
  }

  lemma EagerLeaves(s: Sess, inf: Informed) returns (o: Sess)
    requires inf.stored && inf.fullSummon ==> s.pending == []
    ensures o == OnInform(s, inf, EAGER).sess && Leaves(s, inf, o)
  {
    EagerInform(s, inf);
    o := OnInform(s, inf, EAGER).sess;
    if inf.stored && !inf.fullSummon { TaskedLeaves(s, inf); }
  }

  lemma TaskedLeaves(s: Sess, inf: Informed)
    requires inf.stored && !inf.fullSummon
    ensures Leaves(s, inf, Tasked(s.(bootstrap := inf.bootstrap), inf, EAGER))
  {
    var b := s.(bootstrap := inf.bootstrap);
    var t := Targeted(b, inf);
    TargetedKeeps(b, inf);
    assert Tasked(b, inf, EAGER) ==
           t.(pending := inf.tasks, lifecycle := Processing, gear := Gear(Some(inf.schema), true),
              needs := b.needs || inf.bootstrap || !EAGER.provisioned);
  }

  lemma TargetedKeeps(s: Sess, inf: Informed)
    ensures var t := Targeted(s, inf);
      && t.current == s.current && t.wan == s.wan && t.setParams == s.setParams && t.creds == s.creds
      && t.provisionMark == s.provisionMark && t.needs == s.needs
      && (inf.targets == [] ==> t.summon == s.summon && t.schema == s.schema)
  {
  }

  lemma PartsLater(s: Sess, inf: Informed, a: Sess, b: Sess, xs: seq<(Happening, World)>)
    requires a == OnInform(Adopted(s), inf, EAGER).sess && b == OnInform(s, inf, EAGER).sess && Parted(a, b, xs)
    ensures !LooksSame(s, inf, EAGER, xs)
  {
    var l := AtBound(s);
    ViewCons(l, Inform(inf, true), EAGER, xs);
    ViewCons(l, Inform(inf, false), EAGER, xs);
    var v, u := View(l, [(Inform(inf, true), EAGER)] + xs), View(l, [(Inform(inf, false), EAGER)] + xs);
    assert v[1..] == View(AtBound(a), xs) && u[1..] == View(AtBound(b), xs);
  }

  lemma PendingShowsNow(s: Sess, inf: Informed)
    requires inf.stored && inf.fullSummon && s.pending != []
    ensures !LooksSame(s, inf, EAGER, [])
  {
    StartsPending(s, inf);
    StartsPending(Adopted(s), inf);
    AdoptedFields(s);
    var l := AtBound(s);
    ViewCons(l, Inform(inf, true), EAGER, []);
    ViewCons(l, Inform(inf, false), EAGER, []);
    assert View(l, [(Inform(inf, true), EAGER)] + [])[0] != View(l, [(Inform(inf, false), EAGER)] + [])[0];
  }

  lemma StartsPending(s: Sess, inf: Informed)
    requires inf.stored && inf.fullSummon
    ensures OnInform(s, inf, EAGER).reply == if s.pending == [] then NoContent else TaskRequest(Marked(s.pending[0]))
  {
    EagerFaces(s.gear);
    EagerNext(s.(bootstrap := inf.bootstrap, summon := 1, schema := inf.schema));
  }

  lemma LeftoverParts(s: Sess, inf: Informed, a: Sess, b: Sess) returns (xs: seq<(Happening, World)>)
    requires !Unnoticed(s, inf) && !(inf.stored && inf.fullSummon && s.pending != [])
    requires Leaves(Adopted(s), inf, a) && Leaves(s, inf, b)
    ensures Parted(a, b, xs)
  {
    AdoptedFields(s);
    if !Busy(s) && !NothingSent(s) {
      xs := SentParts(a, b);
    } else if s.needs && !(Equips(inf) && inf.bootstrap) {
      xs := NeedsParts(a, b);
    } else if !Equips(inf) && s.pending != [] {
      xs := PendingParts(a, b);
    } else if !Equips(inf) && s.gear.driver {
      xs := DriverParts(a, b);
    } else if !Equips(inf) && s.gear.mapper.Some? && !Quiescent(s) {
      xs := MapperParts(a, b);
    } else if !Equips(inf) && IsTr098(s.gear.mapper) {
      xs := RootParts(a, b);
    } else if Phase(s) == 1 || Phase(s) == 3 {
      xs := DueParts(a, b);
    } else if Phase(s) == 2 || Phase(s) == 4 {
      xs := OpenParts(a, b);
    } else if s.schema != "" {
      xs := SchemaParts(a, b);
    } else {
      xs := ClosedParts(a, b);
    }
  }

  lemma LeftoverShows(s: Sess, inf: Informed) returns (xs: seq<(Happening, World)>)
    requires !Unnoticed(s, inf)
    ensures !LooksSame(s, inf, EAGER, xs)
  {
    if inf.stored && inf.fullSummon && s.pending != [] {
      xs := [];
      PendingShowsNow(s, inf);
    } else {
      AdoptedFields(s);
      var a := EagerLeaves(Adopted(s), inf);
      var b := EagerLeaves(s, inf);
      xs := LeftoverParts(s, inf, a, b);
      PartsLater(s, inf, a, b, xs);
    }
  }

  /** An Inform and all that follows look the same under a fresh id and under the old one, whatever the server learns
      and whatever the device does, exactly when the old session has nothing left over that a handler could still
      find. */
  lemma RotationIsInvisibleIff(s: Sess, inf: Informed)
    ensures (forall w: World, xs :: LooksSame(s, inf, w, xs)) <==> Unnoticed(s, inf)
  {
    if Unnoticed(s, inf) {
      forall w: World, xs ensures LooksSame(s, inf, w, xs) {
        UnnoticedLooksSame(s, inf, w, xs);
      }
    } else {
      var xs := LeftoverShows(s, inf);
    }
  }

  /** A request takes the session out of the session map exactly when it is an empty POST that, whatever the server
      learns, is answered without content and changes nothing but that the session is over. */
  lemma ClosesIff(s: Sess, r: Request)
    ensures Closes(s, r) <==>
      r.Empty? && forall w: World :: Serve(s, r, w) == Outcome(s.(lifecycle := Closed), NoContent, [])
  {
    if r.Empty? && !Closes(s, r) {
      StaysOpen(s);
    }
  }

  lemma StaysOpen(s: Sess)
    requires !Closes(s, Empty)
    ensures Serve(s, Empty, EAGER) != Outcome(s.(lifecycle := Closed), NoContent, [])
  {
    EagerFaces(s.gear);
    if s.summon != 1 && s.summon != 3 {
      if s.wan.Some? {
        WanStaysOpen(s, s.wan.value);
      } else if s.current.Some? {
        EagerAgain(s, s.current.value);
      } else {
        EagerNext(s);
      }
    }
  }

  lemma WanStaysOpen(s: Sess, e: Exec)
    requires s.summon != 1 && s.summon != 3 && s.wan == Some(e)
    ensures OnEmpty(s, EAGER) != Outcome(s.(lifecycle := Closed), NoContent, [])
  {
    if e.Done() { EagerNext(s.(wan := None, current := None)); }
  }

  // ---- whole runs ----

  /** What happens to a device that rotates its id at every Inform, or never. */
  function Rotating(h: Happening, rotates: bool): Happening {
    if h.Inform? then h.(rotated := rotates) else h
  }

  function RunView(l: Line, rotates: bool, evs: seq<(Happening, World)>): seq<Seen>
    decreases |evs|
  {
    if evs == [] then [] else
      var h := Rotating(evs[0].0, rotates);
      [Sight(l, h, evs[0].1)] + RunView(Moved(l, h, evs[0].1), rotates, evs[1..])
  }

  /** The Inform of a device finds nothing left over. One that comes once the session has left the map finds none
      anyway, unless requests have made another session meanwhile. */
  predicate UnnoticedAt(l: Line, inf: Informed) {
    match l.place
    case Bound => Unnoticed(l.bound, inf)
    case Gone => true
    case Stray(s) => !Busy(l.bound) && !Busy(s) && Unnoticed(s, inf)
  }

  /** Every Inform of the run of a device that keeps its id finds nothing left over. */
  predicate UnnoticedRun(l: Line, evs: seq<(Happening, World)>)
    decreases |evs|
  {
    evs == [] ||
      ((evs[0].0.Inform? ==> UnnoticedAt(l, evs[0].0.informed))
       && UnnoticedRun(Moved(l, Rotating(evs[0].0, false), evs[0].1), evs[1..]))
  }

  lemma UnnoticedMeeting(l: Line, inf: Informed, w: World)
    requires UnnoticedAt(l, inf)
    ensures var r, k := OnInform(Meeting(l, true), inf, w), OnInform(Meeting(l, false), inf, w);
      SameSeen(r, k) && Like(r.sess, k.sess)
  {
    match l.place {
      case Bound => UnnoticedIsLike(l.bound, inf, w);
      case Gone =>
      case Stray(s) => UnnoticedIsLike(s, inf, w);
    }
  }

  /** Both devices meet the same session, or their bound ones look the same. */
  lemma AlikeInform(l: Line, m: Line, inf: Informed, w: World)
    requires LikeLine(l, m) && UnnoticedAt(m, inf)
    ensures Sight(l, Inform(inf, true), w) == Sight(m, Inform(inf, false), w)
    ensures LikeLine(Moved(l, Inform(inf, true), w), Moved(m, Inform(inf, false), w))
  {
    LikeMeeting(l, m, true);
    LikeInform(Meeting(l, true), Meeting(m, true), inf, w);
    UnnoticedMeeting(m, inf, w);
    LikeTrans(OnInform(Meeting(l, true), inf, w).sess, OnInform(Meeting(m, true), inf, w).sess,
      OnInform(Meeting(m, false), inf, w).sess);
  }

  lemma {:induction false} AlikeRuns(l: Line, m: Line, evs: seq<(Happening, World)>)
    requires LikeLine(l, m) && UnnoticedRun(m, evs)
    ensures RunView(l, true, evs) == RunView(m, false, evs)
    decreases |evs|
  {
    if evs != [] {
      var h, w := evs[0].0, evs[0].1;
      if h.Inform? { AlikeInform(l, m, h.informed, w); } else { LikeStep(l, m, h, w); }
      AlikeRuns(Moved(l, Rotating(h, true), w), Moved(m, Rotating(h, false), w), evs[1..]);
    }
  }

  /** Over a whole run in which every Inform finds nothing left over, a device that rotates its id at every Inform
      gets the replies, and causes the writes, of one that never does. */
  lemma RotatedRunIsKeptRun(l: Line, evs: seq<(Happening, World)>)
    requires UnnoticedRun(l, evs)
    ensures RunView(l, true, evs) == RunView(l, false, evs)
  {
    AlikeRuns(l, l, evs);
  }

  /** A device in the middle of a summon: under its old id the summon goes on, under a fresh one it is forgotten. */
  lemma InterruptedSummonShows(w: World)
    ensures var s, inf := FRESH_SESS.(summon := 2, names := ["a"]), Informed(false, true, false, [], false, "", []);
      && OnInform(s, inf, w).sess.summon == 2 && OnInform(Adopted(s), inf, w).sess.summon == 0
      && !(forall u: World, xs :: LooksSame(s, inf, u, xs))
  {
    var s, inf := FRESH_SESS.(summon := 2, names := ["a"]), Informed(false, true, false, [], false, "", []);
    RotationIsInvisibleIff(s, inf);
  }

  /** An idle device with a driver, and a full summon asked for through the API: under its old id the driver's default
      parameters are pushed at the end, under a fresh one nobody knows the driver. */
  lemma ForgottenDriverShows(schema: string, w: World)
    ensures var s, inf := FRESH_SESS.(lifecycle := Processing, gear := Gear(Some(schema), true)),
      Informed(false, true, true, [], false, schema, []);
      && OnInform(s, inf, w).sess.gear.driver && !OnInform(Adopted(s), inf, w).sess.gear.driver
      && !(forall u: World, xs :: LooksSame(s, inf, u, xs))
  {
    var s := FRESH_SESS.(lifecycle := Processing, gear := Gear(Some(schema), true));
    var inf := Informed(false, true, true, [], false, schema, []);
    RotationIsInvisibleIff(s, inf);
    NothingNext(s.(bootstrap := false, summon := 1, schema := schema), Facing(w, s.gear));
    NothingNext(FRESH_SESS.(bootstrap := false, summon := 1, schema := schema), Facing(w, FRESH_SESS.gear));
  }

  // ---- does the work in flight survive it? ----

  function Provisioner(vars: map<string, string>): World {
    var plan: (Task, nat) -> Build := (t, n) =>
      Provisions(Exec([Flows.Step.Step(SetParams, "", "", "", map[])], [true], vars, 0), map[]);
    EAGER.(built := g => plan, build := plan)
  }

  lemma OpensTask(s: Sess, w: World)
    requires s.pending != [] && w.markOk(s.pending[0], |s.pending| - 1)
      && w.build(s.pending[0], |s.pending| - 1).Provisions?
    requires !w.build(s.pending[0], |s.pending| - 1).start.Done()
    ensures var o, e := DispatchNext(s, w), w.build(s.pending[0], |s.pending| - 1).start;
      o.reply == Ask(e) && o.sess.wan == Some(e)
  {
  }

  lemma QuietInformKeepsWork(s: Sess, inf: Informed, w: World)
    requires !(inf.stored && inf.fullSummon && s.pending != [])
    ensures SameWork(OnInform(s, inf, w).sess, s)
  {
    if inf.stored && !inf.fullSummon {
      TaskedKeepsWork(s.(bootstrap := inf.bootstrap), inf, w);
    }
  }

  lemma TaskedKeepsWork(s: Sess, inf: Informed, w: World)
    ensures SameWork(Tasked(s, inf, w), s)
  {
  }

  /** Tasks left over are started by a full summon: two worlds start two different flows. */
  lemma LeftoverStarts(s: Sess, inf: Informed, vars: map<string, string>)
    requires inf.stored && inf.fullSummon && s.pending != []
    ensures var wan := OnInform(s, inf, Provisioner(vars)).sess.wan; wan.Some? && wan.value.vars == vars
  {
    var w := Provisioner(vars);
    assert Facing(w, s.gear) == w;
    OpensTask(s.(bootstrap := inf.bootstrap, summon := 1, schema := inf.schema), w);
  }

  /** The work in flight is the same after the Inform under either id exactly when the old session has no tasks left
      over that a full summon would start. */
  lemma RotationKeepsWorkIff(s: Sess, inf: Informed)
    ensures (forall w: World :: SameWork(OnInform(Adopted(s), inf, w).sess, OnInform(s, inf, w).sess)) <==>
      !(inf.stored && inf.fullSummon && s.pending != [])
  {
    AdoptedFields(s);
    if inf.stored && inf.fullSummon && s.pending != [] {
      var none: map<string, string>, one: map<string, string> := map[], map["a" := ""];
      assert "a" in one && "a" !in none;
      LeftoverStarts(s, inf, none);
      LeftoverStarts(s, inf, one);
      QuietInformKeepsWork(Adopted(s), inf, Provisioner(none));
      QuietInformKeepsWork(Adopted(s), inf, Provisioner(one));
    } else {
      forall w: World ensures SameWork(OnInform(Adopted(s), inf, w).sess, OnInform(s, inf, w).sess) {
        QuietInformKeepsWork(Adopted(s), inf, w);
        QuietInformKeepsWork(s, inf, w);
      }
    }
  }

  /** A provision in flight is awaited in its new session exactly when the Inform schedules no summon. */
  lemma ResumeIff(s: Sess, e: Exec, inf: Informed, w: World)
    requires AwaitsStep(s, e)
    ensures AwaitsStep(OnInform(Adopted(s), inf, w).sess, e) <==> !(inf.stored && (inf.fullSummon || inf.targets != []))
  {
    AdoptedFields(s);
    QuietInformKeepsWork(Adopted(s), inf, w);
  }

  /** Some requests, and then an Inform under a fresh id that schedules no summon. */
  datatype Leg = Leg(xs: seq<Exchange>, inf: Informed, w: World)

  predicate Unscheduled(inf: Informed) {
    inf.stored && !inf.fullSummon && inf.targets == []
  }

  function AfterLegs(s: Sess, legs: seq<Leg>): Sess
    decreases |legs|
  {
    if legs == [] then s
    else AfterLegs(OnInform(Adopted(StateAfter(s, legs[0].xs)), legs[0].inf, legs[0].w).sess, legs[1..])
  }

  function LegAcks(legs: seq<Leg>): seq<string> {
    if legs == [] then [] else Acks(legs[0].xs) + LegAcks(legs[1..])
  }

  predicate ConformingLegs(e: Exec, legs: seq<Leg>)
    decreases |legs|
  {
    legs == [] ||
      (ConformingRun(e, legs[0].xs) && Unscheduled(legs[0].inf) && ConformingLegs(After(e, Acks(legs[0].xs)),
        legs[1..]))
  }

  lemma LegKeepsStep(s: Sess, e: Exec, leg: Leg) returns (next: Sess)
    requires AwaitsStep(s, e) && ConformingRun(e, leg.xs) && Unscheduled(leg.inf) && |Acks(leg.xs)| < StepsLeft(e)
    ensures next == OnInform(Adopted(StateAfter(s, leg.xs)), leg.inf, leg.w).sess
    ensures AwaitsStep(next, After(e, Acks(leg.xs))) && next.current == s.current
    ensures StepsLeft(After(e, Acks(leg.xs))) == StepsLeft(e) - |Acks(leg.xs)|
  {
    LockStep(s, e, leg.xs);
    var mid := StateAfter(s, leg.xs);
    ResumeIff(mid, After(e, Acks(leg.xs)), leg.inf, leg.w);
    AdoptedFields(mid);
    QuietInformKeepsWork(Adopted(mid), leg.inf, leg.w);
    next := OnInform(Adopted(mid), leg.inf, leg.w).sess;
  }

  /** Lock step goes on across sessions: whatever the number of fresh ids in between, the session bound last awaits
      the step after all replies so far, for the same task. */
  lemma {:induction false} ProvisionSurvivesRotations(s: Sess, e: Exec, legs: seq<Leg>)
    requires AwaitsStep(s, e) && ConformingLegs(e, legs) && |LegAcks(legs)| < StepsLeft(e)
    ensures var t := AfterLegs(s, legs); AwaitsStep(t, After(e, LegAcks(legs))) && t.current == s.current
    decreases |legs|
  {
    if legs != [] {
      var next := LegKeepsStep(s, e, legs[0]);
      ProvisionSurvivesRotations(next, After(e, Acks(legs[0].xs)), legs[1..]);
      AfterConcat(e, Acks(legs[0].xs), LegAcks(legs[1..]));
    }
  }

  /** With a targeted summon it does not: its values start the next pending task while the provision is still in flight,
      and the acknowledgement of that task moves the provision on. */
  lemma SummonOvertakesProvision(s: Sess, e: Exec, t: Task, params: map<string, string>)
    requires s.wan == Some(e) && e.AtRest() && !e.Done() && StepsLeft(e) > 1 && !s.followUp
    requires s.summon == 4 && !s.refresh && s.pending == [t] && t.kind == Ordinary
    ensures var o := Serve(s, ValuesResponse(params, None), EAGER);
      && o.reply == TaskRequest(Marked(t)) && o.sess.current == Some(Marked(t)) && o.sess.wan == Some(e)
      && !e.Advance().Done() && Serve(o.sess, SetParamsResponse, EAGER).reply == Ask(e.Advance())
  {
    var o := ServeIn(s, ValuesResponse(params, None), EAGER);
    OvertakingValues(s, t, params);
    EagerFaces(s.gear);
    EagerFaces(o.sess.gear);
    RepliesThatMove(o.sess, e, SetParamsResponse, EAGER);
  }

  lemma OvertakingValues(s: Sess, t: Task, params: map<string, string>)
    requires s.summon == 4 && !s.refresh && s.pending == [t] && t.kind == Ordinary
    ensures var o := ServeIn(s, ValuesResponse(params, None), EAGER);
      && o.reply == TaskRequest(Marked(t)) && o.sess.current == Some(Marked(t)) && o.sess.wan == s.wan
      && o.sess.summon == 0 && o.sess.followUp == s.followUp
  {
    var idle := s.(summon := 0, targets := [], refresh := false);
    EagerFaces(Known(s));
    LearnedKeeps(idle);
    assert ServeIn(s, ValuesResponse(params, None), EAGER) == DispatchNext(Learned(idle), EAGER);
    EagerNext(Learned(idle));
  }

  lemma LearnedKeeps(s: Sess)
    ensures var l := Learned(s);
      && l.pending == s.pending && l.wan == s.wan && l.followUp == s.followUp && l.summon == s.summon
  {
  }
}
