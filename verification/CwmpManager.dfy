/** Session bookkeeping and adoption: a CPE that rotates its session id between requests
    finds the work in flight in its new session. */
module CwmpManager {
  import opened GoStrings
  import opened Provisioning
  import opened CwmpSpec
  import opened Tasks
  import opened CwmpSession
  import opened DeviceLine
  import Rotation

  // ---- one device over any number of sessions ----

  /** All session objects a device has had, oldest first, and which of them are still in the
      session map. The last one is bound to the serial. */
  datatype Fleet = Fleet(objs: seq<Sess>, live: set<nat>)

  /** An Inform under a fresh session id, any other request of the device, or a full summon asked for through the API.
      */
  datatype Event = Renewed(informed: Informed) | Work(request: Request) | Summoned

  /** A request that comes when the bound session has left the map meets a session that is none of these. */
  function FleetStep(f: Fleet, ev: Event, w: World): Fleet
    requires f.objs != []
  {
    var n := |f.objs| - 1;
    var prev := f.objs[n];
    match ev
    case Renewed(inf) =>
      var next := OnInform(Adopted(prev), inf, w).sess;
      Fleet(f.objs[n := if Busy(prev) then Emptied(prev) else prev] + [next],
            (if Busy(prev) then f.live - {n} else f.live) + {n + 1})
    case Work(r) =>
      if n !in f.live then f
      else Fleet(f.objs[n := Serve(prev, r, w).sess], if Closes(prev, r) then f.live - {n} else f.live)
    case Summoned => f.(objs := f.objs[n := Triggered(prev)])
  }

  function Run(f: Fleet, evs: seq<(Event, World)>): Fleet
    requires f.objs != []
    decreases |evs|
  {
    if evs == [] then f else Run(FleetStep(f, evs[0].0, evs[0].1), evs[1..])
  }

  /** Work in flight is held by the bound session only. */
  predicate OneHolder(f: Fleet) {
    f.objs != [] && forall i | 0 <= i < |f.objs| - 1 :: !Busy(f.objs[i])
  }

  /** An Inform under a fresh id moves the work in flight, unchanged, to the new session. The
      previous session ends with none and, if it had any, out of the session map. */
  lemma InformConservesWork(f: Fleet, inf: Informed, w: World)
    requires f.objs != []
    ensures var f', n := FleetStep(f, Renewed(inf), w), |f.objs| - 1;
      && |f'.objs| == |f.objs| + 1 && f'.objs[..n] == f.objs[..n]
      && Rotation.SameWork(f'.objs[n + 1], f.objs[n]) && !Busy(f'.objs[n])
      && (Busy(f.objs[n]) ==> n !in f'.live) && n + 1 in f'.live
  {
  }

  /** Over every run of Informs, dispatches and completions, at most one session of the
      device holds work, and it is the one bound last. */
  lemma {:induction false} RunKeepsOneHolder(f: Fleet, evs: seq<(Event, World)>)
    requires OneHolder(f)
    ensures OneHolder(Run(f, evs))
    decreases |evs|
  {
    if evs != [] {
      var f', n := FleetStep(f, evs[0].0, evs[0].1), |f.objs| - 1;
      match evs[0].0 {
        case Renewed(inf) =>
          InformConservesWork(f, inf, evs[0].1);
          forall i | 0 <= i < |f'.objs| - 1 ensures !Busy(f'.objs[i]) {
            if i < n { assert f'.objs[..n][i] == f.objs[i]; }
          }
        case _ =>
      }
      RunKeepsOneHolder(f', evs[1..]);
    }
  }

  /** What the event is to the line of the device. */
  function Happened(ev: Event): Happening {
    match ev
    case Renewed(inf) => Inform(inf, true)
    case Work(r) => Post(r)
    case Summoned => Trigger
  }

  /** The line is about the session bound last, and knows whether that one is still in the session map. */
  predicate LineOf(f: Fleet, l: Line) {
    f.objs != [] && l.bound == f.objs[|f.objs| - 1] && (l.place.Bound? <==> |f.objs| - 1 in f.live)
  }

  lemma LineStep(f: Fleet, l: Line, ev: Event, w: World)
    requires LineOf(f, l) && forall i | i in f.live :: i < |f.objs|
    ensures LineOf(FleetStep(f, ev, w), Moved(l, Happened(ev), w))
    ensures forall i | i in FleetStep(f, ev, w).live :: i < |FleetStep(f, ev, w).objs|
  {
  }

  function LineRun(l: Line, evs: seq<(Event, World)>): Line
    decreases |evs|
  {
    if evs == [] then l else LineRun(Moved(l, Happened(evs[0].0), evs[0].1), evs[1..])
  }

  /** Over every run of a device that changes its id at every Inform, the session bound last, and whether it can still
      be reached, are those of the line. */
  lemma {:induction false} FleetIsLine(f: Fleet, l: Line, evs: seq<(Event, World)>)
    requires LineOf(f, l) && forall i | i in f.live :: i < |f.objs|
    ensures LineOf(Run(f, evs), LineRun(l, evs))
    decreases |evs|
  {
    if evs != [] {
      LineStep(f, l, evs[0].0, evs[0].1);
      FleetIsLine(FleetStep(f, evs[0].0, evs[0].1), Moved(l, Happened(evs[0].0), evs[0].1), evs[1..]);
    }
  }

  /** Adoption into a session that is not fresh: the previous session's work survives exactly
      when the current session had no task of its own (or already held the same work). */
  lemma AdoptionConservesIff(prev: Sess, cur: Sess)
    requires Busy(prev)
    ensures Rotation.SameWork(Inherit(prev, cur), prev) <==> (cur.current.None? || Rotation.SameWork(cur, prev))
  {
  }

  // ---- the session objects of one device ----

  /** Sessions have ids, all different. */
  predicate HaveIds(objs: seq<Session>) {
    && (forall i | 0 <= i < |objs| :: objs[i].id != "")
    && (forall i, j | 0 <= i < j < |objs| :: objs[i].id != objs[j].id)
  }

  ghost predicate Shows(objs: seq<Session>, states: seq<Sess>)
    reads *
  {
    |objs| == |states| && forall i | 0 <= i < |objs| :: objs[i].State() == states[i]
  }

  /** live are the sessions found in the session map. */
  predicate Listed(sessions: map<string, Session>, objs: seq<Session>, live: set<nat>) {
    && (forall i | i in live :: i < |objs|)
    && (forall i: nat | i < |objs| :: i in live <==> objs[i].id in sessions && sessions[objs[i].id] == objs[i])
  }

  lemma ListedStep(sessions: map<string, Session>, objs: seq<Session>, s: Session, live: set<nat>, busy: bool)
    requires HaveIds(objs) && Listed(sessions, objs, live) && objs != [] && s.id != ""
    requires forall i | 0 <= i < |objs| :: objs[i].id != s.id
    ensures var n, more := |objs| - 1, sessions[s.id := s];
      HaveIds(objs + [s]) && Listed(if busy then more - {objs[n].id} else more, objs + [s], (if busy then live - {n}
        else live) + {n + 1})
  {
  }

  lemma ShowsOneMore(objs: seq<Session>, s: Session, states: seq<Sess>)
    requires objs != [] && |states| == |objs| + 1
    requires Shows(objs[..|objs| - 1], states[..|objs| - 1])
    requires objs[|objs| - 1].State() == states[|objs| - 1] && s.State() == states[|objs|]
    ensures Shows(objs + [s], states)
  {
    forall i | 0 <= i <= |objs| ensures (objs + [s])[i].State() == states[i] {
      if i < |objs| - 1 { assert objs[..|objs| - 1][i].State() == states[..|objs| - 1][i]; }
    }
  }

  lemma InformedFleet(f: Fleet, inf: Informed, w: World)
    requires f.objs != []
    ensures var g, n := FleetStep(f, Renewed(inf), w), |f.objs| - 1;
      && |g.objs| == n + 2 && g.objs[..n] == f.objs[..n]
      && g.objs[n] == (if Busy(f.objs[n]) then Emptied(f.objs[n]) else f.objs[n])
      && g.objs[n + 1] == OnInform(Adopted(f.objs[n]), inf, w).sess
      && g.live == (if Busy(f.objs[n]) then f.live - {n} else f.live) + {n + 1}
  {
  }

  ghost function ReprOf(s: Option<Session>): set<object>
    reads if s.Some? then {s.value} else {}
  {
    if s.Some? then s.value.Repr() else {}
  }

  ghost function StateOf(s: Option<Session>): Sess
    reads ReprOf(s)
  {
    if s.Some? then s.value.State() else FRESH_SESS
  }

  // ---- the manager object ----

  class SessionManager {
    var sessions: map<string, Session>
    var bySerial: map<string, Session>
    var byRpcId: map<string, Session>

    constructor ()
      ensures sessions == map[] && bySerial == map[] && byRpcId == map[]
    {
      sessions, bySerial, byRpcId := map[], map[], map[];
    }

    method GetOrCreate(id: string) returns (s: Session)
      modifies this`sessions
      ensures id in sessions && sessions == old(sessions)[id := s]
      ensures if id in old(sessions) then s == old(sessions)[id] else fresh(s) && s.id == id && s.State() == FRESH_SESS
    {
      if id in sessions {
        s := sessions[id];
      } else {
        s := new Session(id);
        sessions := sessions[id := s];
      }
    }

    method BindSerial(serial: string, s: Session)
      modifies this`bySerial
      ensures bySerial == if serial == "" then old(bySerial) else old(bySerial)[serial := s]
    {
      if serial != "" {
        bySerial := bySerial[serial := s];
      }
    }

    /** The id of a request that the server sends leads to its session, until a reply takes it. */
    method BindRpcId(id: string, s: Session)
      modifies this`byRpcId
      ensures byRpcId == if id == "" then old(byRpcId) else old(byRpcId)[id := s]
    {
      if id != "" {
        byRpcId := byRpcId[id := s];
      }
    }

    /** A binding is used at most once. */
    method TakeByRpcId(id: string) returns (s: Option<Session>)
      modifies this`byRpcId
      ensures s == if id != "" && id in old(byRpcId) then Some(old(byRpcId)[id]) else None
      ensures byRpcId == if s.Some? then old(byRpcId) - {id} else old(byRpcId)
    {
      if id == "" || id !in byRpcId {
        return None;
      }
      s := Some(byRpcId[id]);
      byRpcId := byRpcId - {id};
    }

    /** Move the work in flight of the session last bound to serial into current. */
    method AdoptInFlightBySerial(serial: string, current: Session) returns (adopted: bool)
      modifies this`sessions, current, if serial in bySerial then {bySerial[serial]} else {}
      ensures adopted ==
        (serial != "" && serial in bySerial && bySerial[serial] != current && old(Busy(bySerial[serial].State())))
      ensures !adopted ==> current.State() == old(current.State()) && sessions == old(sessions)
      ensures !adopted && serial in bySerial ==> bySerial[serial].State() == old(bySerial[serial].State())
      ensures adopted ==> var prev := bySerial[serial];
        && current.State() == Inherit(old(prev.State()), old(current.State()))
        && prev.State() == Emptied(old(prev.State()))
        && current.wan == (if old(current.current).None? then old(prev.wan) else old(current.wan)) && prev.wan == null
        && sessions == if prev.id == "" then old(sessions) else old(sessions) - {prev.id}
    {
      if serial == "" || serial !in bySerial || bySerial[serial] == current {
        return false;
      }
      var prev := bySerial[serial];
      if prev.current.None? && prev.wan == null && !prev.followUp {
        return false;
      }
      current.InheritFrom(prev);
      prev.Vacate();
      if prev.id != "" {
        sessions := sessions - {prev.id};
      }
      return true;
    }

    /** handleInform: adopt, bind, then load the session. One reply is written. */
    method HandleInform(serial: string, current: Session, inf: Informed, o: Outside, wire: Wire)
      requires o.Consistent()
      modifies this, wire, current, if serial in bySerial then {bySerial[serial]} else {}
      ensures var cur := old(current.State());
        var busy := serial != "" && serial in old(bySerial) && old(bySerial)[serial] != current
          && old(Busy(bySerial[serial].State()));
        var from := if busy then Inherit(old(bySerial[serial].State()), cur) else cur;
        var r := OnInform(from, inf, o.world);
        && current.State() == r.sess
        && wire.sent == old(wire.sent) + [r.reply] && wire.writes == old(wire.writes) + r.writes
      ensures bySerial == if serial == "" then old(bySerial) else old(bySerial)[serial := current]
      ensures serial != "" && serial in old(bySerial) && old(bySerial)[serial] != current ==>
        var prev := old(bySerial)[serial];
        var busy := old(Busy(bySerial[serial].State()));
        && prev.State() == (if busy then Emptied(old(bySerial[serial].State())) else old(bySerial[serial].State()))
        && sessions == (if busy && prev.id != "" then old(sessions) - {prev.id} else old(sessions))
    {
      AdoptAndBind(serial, current);
      LoadSession(current, inf, o, wire);
    }

    /** The session of a device that has moved on to current. */
    ghost predicate Left(serial: string, current: Session)
      reads this
    {
      serial != "" && serial in bySerial && bySerial[serial] != current
    }

    method AdoptAndBind(serial: string, current: Session)
      modifies this`sessions, this`bySerial, current, if serial in bySerial then {bySerial[serial]} else {}
      ensures bySerial == if serial == "" then old(bySerial) else old(bySerial)[serial := current]
      ensures !old(Left(serial, current)) ==> current.State() == old(current.State())
      ensures old(Left(serial, current)) ==>
        var prev, work := old(bySerial)[serial], old(bySerial[serial].State());
        && current.State() == (if Busy(work) then Inherit(work, old(current.State())) else old(current.State()))
        && prev.State() == (if Busy(work) then Emptied(work) else work)
      ensures sessions == if old(Left(serial, current)) && old(Busy(bySerial[serial].State()))
        && old(bySerial)[serial].id != ""
                          then old(sessions) - {old(bySerial)[serial].id} else old(sessions)
    {
      var _ := AdoptInFlightBySerial(serial, current);
      BindSerial(serial, current);
    }

    /** An Inform under a session id the server has not seen. */
    method ServeInform(id: string, serial: string, inf: Informed, o: Outside, wire: Wire) returns (s: Session)
      requires o.Consistent() && id !in sessions && serial != "" && serial in bySerial
      modifies this, wire, bySerial[serial]
      ensures fresh(s) && s.id == id && bySerial == old(bySerial)[serial := s]
      ensures var prev := old(bySerial)[serial];
        var work := old(bySerial[serial].State());
        && s.State() == OnInform(Adopted(work), inf, o.world).sess
        && prev.State() == (if Busy(work) then Emptied(work) else work)
        && sessions == (if Busy(work) && prev.id != "" then old(sessions)[id := s] - {prev.id}
             else old(sessions)[id := s])
    {
      s := GetOrCreate(id);
      HandleInform(serial, s, inf, o, wire);
    }

    /** One Inform under a fresh id: what it leaves of each session object and of the session map. */
    method InformObjects(id: string, serial: string, inf: Informed, o: Outside, wire: Wire, ghost objs: seq<Session>,
                         ghost work: Sess,
                         ghost others: seq<Sess>) returns (s: Session)
      requires o.Consistent() && id !in sessions && serial != "" && serial in bySerial
      requires HaveIds(objs) && objs != [] && bySerial[serial] == objs[|objs| - 1]
      requires objs[|objs| - 1].State() == work && Shows(objs[..|objs| - 1], others)
      modifies this, wire, bySerial[serial]
      ensures serial in bySerial && bySerial[serial] == s && s.id == id && s.State() == OnInform(Adopted(work), inf,
        o.world).sess
      ensures objs[|objs| - 1].State() == (if Busy(work) then Emptied(work) else work)
        && Shows(objs[..|objs| - 1], others)
      ensures var prev := objs[|objs| - 1];
        sessions == if Busy(work) then old(sessions)[id := s] - {prev.id} else old(sessions)[id := s]
    {
      s := ServeInform(id, serial, inf, o, wire);
      forall i | 0 <= i < |objs| - 1 ensures objs[..|objs| - 1][i].State() == others[i] {
        assert objs[i].id != objs[|objs| - 1].id;
      }
    }

    /** One Inform through the manager is one step of the fleet. */
    method InformStep(id: string, serial: string, inf: Informed, o: Outside, wire: Wire, ghost objs: seq<Session>,
                      ghost f: Fleet)
      returns (s: Session)
      requires o.Consistent() && id != "" && id !in sessions && serial != "" && serial in bySerial
      requires HaveIds(objs) && Shows(objs, f.objs) && Listed(sessions, objs, f.live)
      requires objs != [] && bySerial[serial] == objs[|objs| - 1] && forall i | 0 <= i < |objs| :: objs[i].id != id
      modifies this, wire, bySerial[serial]
      ensures serial in bySerial && bySerial[serial] == s
      ensures var g := FleetStep(f, Renewed(inf), o.world);
        HaveIds(objs + [s]) && Shows(objs + [s], g.objs) && Listed(sessions, objs + [s], g.live)
    {
      ghost var n, known := |objs| - 1, sessions;
      s := InformObjects(id, serial, inf, o, wire, objs, f.objs[n], f.objs[..n]);
      ListedStep(known, objs, s, f.live, Busy(f.objs[n]));
      InformedFleet(f, inf, o.world);
      ShowsOneMore(objs, s, FleetStep(f, Renewed(inf), o.world).objs);
    }

    /** An empty POST under a session id: the session answers, and leaves the map when it had nothing to do. */
    method ServeEmpty(id: string, o: Outside, wire: Wire) returns (s: Session)
      requires o.Consistent() && id in sessions
      modifies this`sessions, wire, sessions[id].Repr()
      ensures s == old(sessions)[id] && s.State() == Serve(old(sessions[id].State()), Empty, o.world).sess
      ensures wire.sent == old(wire.sent) + [Serve(old(sessions[id].State()), Empty, o.world).reply]
      ensures sessions == if Closes(old(sessions[id].State()), Empty) then old(sessions) - {id} else old(sessions)
    {
      s := GetOrCreate(id);
      var idle := s.summon != 1 && s.summon != 3 && s.wan == null && s.current.None? && s.pending == [];
      s.ServeHttp(Empty, o, wire);
      if idle {
        sessions := sessions - {id};
      }
    }

    /** A full summon asked for through the API: the session of the device is marked at once, unless it is closed. */
    method TriggerFullSummon(serial: string)
      modifies if serial in bySerial then {bySerial[serial]} else {}
      ensures serial != "" && serial in bySerial ==>
        && bySerial[serial].State() == Triggered(old(bySerial[serial].State()))
        && bySerial[serial].wan == old(bySerial[serial].wan)
      ensures serial == "" && serial in bySerial ==> bySerial[serial].State() == old(bySerial[serial].State())
    {
      if serial != "" && serial in bySerial {
        bySerial[serial].MarkTriggered();
      }
    }

    // requests that are no Informs

    /** The session that asked, if the request carries the id of its RPC; otherwise the one with the session id. */
    ghost function RouteOf(id: string, rpcId: string): Option<Session>
      reads this
    {
      if rpcId != "" && rpcId in byRpcId then Some(byRpcId[rpcId])
      else if id in sessions then Some(sessions[id])
      else None
    }

    method Route(id: string, rpcId: string) returns (s: Session)
      modifies this`sessions, this`byRpcId
      ensures if old(RouteOf(id, rpcId)).Some? then s == old(RouteOf(id, rpcId)).value
        else fresh(s) && s.State() == FRESH_SESS
      ensures byRpcId == if rpcId != "" then old(byRpcId) - {rpcId} else old(byRpcId)
      ensures id in sessions && sessions == old(sessions)[id := sessions[id]]
      ensures id in old(sessions) ==> sessions == old(sessions)
    {
      s := GetOrCreate(id);
      var mapped := TakeByRpcId(rpcId);
      if mapped.Some? {
        s := mapped.value;
      }
    }

    /** A request that is neither empty nor an Inform: served by the session it belongs to, whatever session id it
        comes under. The reply, if it is an RPC with an id, is bound to that session. */
    method ServeReply(id: string, rpcId: string, r: Request, nextId: string, o: Outside, wire: Wire)
      returns (s: Session)
      requires o.Consistent()
      modifies this`sessions, this`byRpcId, wire, ReprOf(RouteOf(id, rpcId))
      ensures old(RouteOf(id, rpcId)).Some? ==> s == old(RouteOf(id, rpcId)).value
      ensures var outcome := Serve(old(StateOf(RouteOf(id, rpcId))), r, o.world);
        && s.State() == outcome.sess
        && wire.sent == old(wire.sent) + [outcome.reply] && wire.writes == old(wire.writes) + outcome.writes
      ensures var kept := if rpcId != "" then old(byRpcId) - {rpcId} else old(byRpcId);
        byRpcId == if nextId != "" then kept[nextId := s] else kept
    {
      s := Route(id, rpcId);
      AnswerAndBind(s, r, nextId, o, wire);
    }

    method AnswerAndBind(s: Session, r: Request, nextId: string, o: Outside, wire: Wire)
      requires o.Consistent()
      modifies this`byRpcId, wire, s.Repr()
      ensures var outcome := Serve(old(s.State()), r, o.world);
        && s.State() == outcome.sess
        && wire.sent == old(wire.sent) + [outcome.reply] && wire.writes == old(wire.writes) + outcome.writes
      ensures byRpcId == if nextId != "" then old(byRpcId)[nextId := s] else old(byRpcId)
    {
      s.ServeHttp(r, o, wire);
      BindRpcId(nextId, s);
    }

    method LoadSession(current: Session, inf: Informed, o: Outside, wire: Wire)
      requires o.Consistent()
      modifies wire, current
      ensures var r := OnInform(old(current.State()), inf, o.world);
        && current.State() == r.sess
        && wire.sent == old(wire.sent) + [r.reply] && wire.writes == old(wire.writes) + r.writes
    {
      current.NoteBootstrap(inf.bootstrap);
      if !inf.stored {
        wire.sent := wire.sent + [SoapFault];
      } else if inf.fullSummon {
        current.ScheduleSummon(inf.schema);
        StaysConsistent(o, current.gear);
        current.DispatchNextOrClose(o.Facing(current.gear), wire);
      } else {
        StartSession(current, inf, o, wire);
      }
    }

    method StartSession(current: Session, inf: Informed, o: Outside, wire: Wire)
      modifies wire, current
      requires current.bootstrap == inf.bootstrap
      ensures var t := Tasked(old(current.State()), inf, o.world);
        && current.State() == Inject(t, GlobalTasks(t, o.world), o.world)
        && wire.sent == old(wire.sent) + [InformResponse] && wire.writes == old(wire.writes) + MarkWrites(t, o.world)
    {
      if inf.targets != [] {
        current.ScheduleTargetedSummon(inf.targets, inf.refresh, inf.schema);
      }
      current.LoadTasks(inf.tasks, inf.schema, o.world.provisioned);
      current.InjectGlobalDefaultParams(o, wire);
      wire.sent := wire.sent + [InformResponse];
    }
  }
}
