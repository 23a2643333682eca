/** Everything that happens to one device, as a run of the queue: requests, Informs, triggers, new tasks and
    cancels. */
module DeviceRuns {
  import opened GoStrings
  import opened Tasks
  import opened CwmpSpec
  import opened DeviceLine
  import opened CwmpQueue
  import Q = TaskQueue

  // ---- an Inform loads the queue ----

  lemma PendingCons(ids: seq<string>, data: map<string, Task>)
    requires ids != []
    ensures Q.PendingTasks(ids, data) ==
      (if ids[0] in data && data[ids[0]].status == Pending then [data[ids[0]]] else []) + Q.PendingTasks(ids[1..], data)
  {
    assert ids == [ids[0]] + ids[1..];
    Q.PendingAppend([ids[0]], ids[1..], data);
    assert [ids[0]][..0] == [];
  }

  function PendingOf(ids: seq<string>, data: map<string, Task>): map<string, Task> {
    map id | id in ids && id in data && data[id].status == Pending :: data[id]
  }

  lemma PendingOfCons(ids: seq<string>, data: map<string, Task>)
    requires ids != []
    ensures PendingOf(ids, data) ==
      if ids[0] in data && data[ids[0]].status == Pending then PendingOf(ids[1..], data)[ids[0] := data[ids[0]]]
      else PendingOf(ids[1..], data)
  {
    assert ids == [ids[0]] + ids[1..];
  }

  /** Listed once each, under their own id, for this device. */
  predicate ListedFor(ids: seq<string>, data: map<string, Task>, serial: string) {
    ids == [] ||
    (&& ListedFor(ids[1..], data, serial) && ids[0] !in ids[1..]
     && (ids[0] in data ==>
           data[ids[0]].id == ids[0] && data[ids[0]].serial == serial && Tracked(data[ids[0]]) && Proper(data[ids[0]])))
  }

  lemma {:induction false} DistinctIsListed(ids: seq<string>, data: map<string, Task>, serial: string)
    requires Q.Distinct(ids)
    requires forall id | id in ids && id in data ::
      data[id].id == id && data[id].serial == serial && Tracked(data[id]) && Proper(data[id])
    ensures ListedFor(ids, data, serial)
  {
    if ids != [] {
      assert ids == [ids[0]] + ids[1..];
      DistinctIsListed(ids[1..], data, serial);
    }
  }

  /** The tasks DequeuePending returns, as copies. */
  lemma {:induction false} PendingCopies(ids: seq<string>, data: map<string, Task>, serial: string)
    requires ListedFor(ids, data, serial)
    ensures Queued(Q.PendingTasks(ids, data), serial) && Copies(Q.PendingTasks(ids, data)) == PendingOf(ids, data)
  {
    if ids != [] {
      var rest := Q.PendingTasks(ids[1..], data);
      PendingCons(ids, data);
      PendingOfCons(ids, data);
      PendingCopies(ids[1..], data, serial);
      if ids[0] in data && data[ids[0]].status == Pending {
        assert ([data[ids[0]]] + rest)[1..] == rest;
      } else {
        assert [] + rest == rest;
      }
    }
  }

  function KeptOf(held: map<string, Task>, serial: string): map<string, Task> {
    map id | id in held && held[id].serial == serial && held[id].status != Pending :: held[id]
  }

  lemma KeptIsInFlight(sys: Q.System, cur: Option<Task>, ts: seq<Task>, serial: string)
    requires Mirrors(sys, cur, ts, serial)
    ensures KeptOf(sys.held, serial) == CopyOf(cur)
  {
    var all := CopyOf(cur) + Copies(ts);
    QueuedArePending(ts, serial);
    forall id ensures id in KeptOf(sys.held, serial) <==> id in CopyOf(cur) {
      assert id in OfSerial(sys.held, serial) <==> id in all;
      assert id in all ==> OfSerial(sys.held, serial)[id] == all[id];
    }
    forall id | id in CopyOf(cur) ensures sys.held[id] == CopyOf(cur)[id] {
      assert all[id] == OfSerial(sys.held, serial)[id];
    }
  }

  lemma {:induction false} QueuedArePending(ts: seq<Task>, serial: string)
    requires Queued(ts, serial)
    ensures forall id | id in Copies(ts) :: Copies(ts)[id].status == Pending
  {
    if ts != [] { QueuedArePending(ts[1..], serial); }
  }

  /** A task in flight is not pending in the store. */
  lemma InFlightIsNotPending(sys: Q.System, cur: Option<Task>, ts: seq<Task>, serial: string)
    requires Mirrors(sys, cur, ts, serial) && Q.CopiesFit(sys) && cur.Some? && Tracked(cur.value)
    ensures cur.value.id in sys.store.data && sys.store.data[cur.value.id].status != Pending
  {
    HeldCopy(sys, cur, ts, serial, cur.value);
    assert Q.CopyFits(sys, cur.value.id);
  }

  /** What an Inform reads from the queue. */
  function Read(st: Q.Store, serial: string, readOk: bool): seq<Task> {
    if readOk then Q.PendingTasks(Q.ListOf(st, serial), st.data) else []
  }

  function ReadCopies(st: Q.Store, serial: string, readOk: bool): map<string, Task> {
    if readOk then PendingOf(Q.ListOf(st, serial), st.data) else map[]
  }

  /** What Load leaves of a device's copies. */
  lemma LoadedCopies(sys: Q.System, serial: string, readOk: bool)
    requires forall id | id in Q.ListOf(sys.store, serial) && id in sys.store.data ::
      sys.store.data[id].serial == serial
    ensures OfSerial(Q.Step(sys, Q.Load(serial, readOk)).held, serial) ==
            KeptOf(sys.held, serial) + ReadCopies(sys.store, serial, readOk)
  {
  }

  lemma RecordsOfList(sys: Q.System, serial: string)
    requires Q.Invariant(sys)
    ensures var ids, data := Q.ListOf(sys.store, serial), sys.store.data;
      Q.Distinct(ids) && forall id | id in ids && id in data ::
        data[id].id == id && data[id].serial == serial && Tracked(data[id]) && Proper(data[id])
  {
    Q.InvariantMeans(sys, serial);
    var h := Q.HistoryOf(sys, serial);
    Q.UnretiredSubset(h, sys.retired);
    forall id | id in Q.ListOf(sys.store, serial) ensures id in sys.store.data && Q.RecordFits(sys, id)
      && !Synthetic(id) {
      Q.NotListed(sys, serial, id);
    }
  }

  lemma ReadMirrors(sys: Q.System, serial: string, readOk: bool)
    requires Q.Invariant(sys)
    ensures Queued(Read(sys.store, serial, readOk), serial)
    ensures Copies(Read(sys.store, serial, readOk)) == ReadCopies(sys.store, serial, readOk)
  {
    RecordsOfList(sys, serial);
    DistinctIsListed(Q.ListOf(sys.store, serial), sys.store.data, serial);
    PendingCopies(Q.ListOf(sys.store, serial), sys.store.data, serial);
  }

  /** Whatever was pending before, afterwards the copies are the task in flight and what was read. */
  lemma LoadMove(sys: Q.System, cur: Option<Task>, ts: seq<Task>, serial: string, readOk: bool) returns (next: Q.System)
    requires Mirrors(sys, cur, ts, serial) && Q.Invariant(sys)
    ensures Moves(sys, Some(Q.Load(serial, readOk)), next, []) && Mirrors(next, cur, Read(sys.store, serial, readOk),
      serial)
  {
    RecordsOfList(sys, serial);
    LoadedCopies(sys, serial, readOk);
    KeptIsInFlight(sys, cur, ts, serial);
    ReadMirrors(sys, serial, readOk);
    if cur.Some? && Tracked(cur.value) { InFlightIsNotPending(sys, cur, ts, serial); }
    next := Q.Step(sys, Q.Load(serial, readOk));
  }

  // ---- all that happens to one device ----

  /** made: the collection tasks an Inform adds. readOk: whether the queue could be read. */
  datatype Turn =
    | Happens(what: Happening, made: seq<Task>, readOk: bool)
    | Add(task: Task)
    | CancelTask(id: string)

  datatype Device = Device(store: Q.Store, line: Line)

  predicate AllMadeUp(ts: seq<Task>) {
    forall i | 0 <= i < |ts| :: Synthetic(ts[i].id)
  }

  /** New tasks are new, an Inform loads what it reads, made-up tasks have their ids. */
  predicate Possible(d: Device, turn: Turn, w: World, serial: string) {
    match turn
    case Happens(h, made, readOk) =>
      && (h.Post? ==> Admissible(d.store, h.request, w))
      && (h.Inform? ==>
            MakesUp(w) && AllMadeUp(made) && h.informed.tasks == made + Read(d.store, serial, readOk))
    case Add(t) => t.id !in d.store.data && t.status == Pending && t.attempts == 0 && Q.Enqueuable(t)
    case CancelTask(_) => true
  }

  /** The status writes of what happens, with their outcomes. */
  function StatusOfTurn(d: Device, h: Happening, w: World): seq<(Task, bool)> {
    match Answer(d.line, h, w)
    case Some(o) => StatusTasks(o.writes)
    case None => []
  }

  predicate Cancels(d: Device, id: string) {
    id in d.store.data && !Terminal(d.store.data[id].status)
  }

  /** The store afterwards is computed from the status writes of the session alone. */
  function TurnOf(d: Device, turn: Turn, w: World): Device {
    match turn
    case Happens(h, _, _) => Device(Q.Applied(d.store, StatusOfTurn(d, h, w)), Moved(d.line, h, w))
    case Add(t) => d.(store := Q.Enqueued(d.store, t))
    case CancelTask(id) =>
      if Cancels(d, id) then d.(store := Q.Updated(d.store, d.store.data[id].(status := Cancelled))) else d
  }

  /** The ids of the new tasks of a device, in order. */
  function Added(turns: seq<(Turn, World)>, serial: string): seq<string>
    decreases |turns|
  {
    if turns == [] then [] else AddedBy(turns[0].0, serial) + Added(turns[1..], serial)
  }

  function AddedBy(turn: Turn, serial: string): seq<string> {
    if turn.Add? && turn.task.serial == serial then [turn.task.id] else []
  }

  /** The ids of the terminal status writes that the store took, and of the tasks that were cancelled unfinished. */
  function Finished(d: Device, turns: seq<(Turn, World)>): set<string>
    decreases |turns|
  {
    if turns == [] then {}
    else FinishedBy(d, turns[0].0, turns[0].1) + Finished(TurnOf(d, turns[0].0, turns[0].1), turns[1..])
  }

  function FinishedBy(d: Device, turn: Turn, w: World): set<string> {
    match turn
    case Happens(h, _, _) => Q.TerminalIds(StatusOfTurn(d, h, w))
    case Add(_) => {}
    case CancelTask(id) => if Cancels(d, id) then {id} else {}
  }

  /** The queue model agrees with the device. */
  ghost predicate Represents(sys: Q.System, d: Device, serial: string) {
    && Q.Invariant(sys) && sys.store == d.store && Settled(d.line)
    && Mirrors(sys, Met(d.line).current, Met(d.line).pending, serial)
  }

  /** What a turn adds to the history of the device and to the finished ids. */
  ghost predicate Records(sys: Q.System, next: Q.System, added: seq<string>, finished: set<string>, serial: string) {
    Q.HistoryOf(next, serial) == Q.HistoryOf(sys, serial) + added && next.retired == sys.retired + finished
  }

  lemma TaskedSession(s: Sess, inf: Informed, w: World)
    requires inf.stored && !inf.fullSummon
    ensures var o, t := OnInform(s, inf, w), Tasked(s.(bootstrap := inf.bootstrap), inf, w);
      && o.sess.current == s.current && o.sess.pending == GlobalTasks(t, w) + inf.tasks && o.writes == MarkWrites(t, w)
  {
  }

  lemma LoadingInform(sys: Q.System, s: Sess, inf: Informed, made: seq<Task>, readOk: bool, w: World, serial: string)
    returns (evs: seq<Q.Event>)
    requires Mirrors(sys, s.current, s.pending, serial) && Q.Invariant(sys)
    requires inf.stored && !inf.fullSummon && MakesUp(w) && AllMadeUp(made)
    requires inf.tasks == made + Read(sys.store, serial, readOk)
    ensures var o := OnInform(s, inf, w); Explains(sys, evs, o.sess.current, o.sess.pending, serial, o.writes)
  {
    var next := LoadMove(sys, s.current, s.pending, serial, readOk);
    TaskedSession(s, inf, w);
    var t := Tasked(s.(bootstrap := inf.bootstrap), inf, w);
    InjectedMirrors(next, s.current, made, Read(sys.store, serial, readOk), serial);
    InjectedMirrors(next, s.current, GlobalTasks(t, w), inf.tasks, serial);
    MarksAreNoStatus(t, w);
    evs := Last(sys, Some(Q.Load(serial, readOk)), next, s.current, GlobalTasks(t, w) + inf.tasks, serial,
      MarkWrites(t, w));
  }

  /** The tasks of a session that the device does not come back to, except perhaps the one in flight. */
  lemma LeaveTasks(sys: Q.System, cur: Option<Task>, ts: seq<Task>, keeps: bool, serial: string)
    returns (evs: seq<Q.Event>)
    requires Mirrors(sys, cur, ts, serial) && Q.Invariant(sys)
    ensures Explains(sys, evs, if keeps then cur else None, [], serial, [])
  {
    if keeps {
      var next := LoadMove(sys, cur, ts, serial, false);
      evs := Last(sys, Some(Q.Load(serial, false)), next, cur, [], serial, []);
    } else {
      var ev, mid := Forget(sys, cur, ts, serial);
      if ev.Some? { Q.StepKeepsInvariant(sys, ev.value); }
      var next := LoadMove(mid, None, ts, serial, false);
      evs := Both(sys, ev, mid, Some(Q.Load(serial, false)), next, None, [], serial, [], []);
    }
  }

  lemma MeetingTasks(l: Line, rotated: bool)
    requires Settled(l)
    ensures var s, m := Met(l), Meeting(l, rotated);
      && m.current == (if rotated && l.place.Stray? then None else s.current)
      && m.pending == (if rotated then [] else s.pending)
  {
  }

  /** A session whose pending tasks are left behind with its old id. */
  lemma LeftBehind(sys: Q.System, l: Line, rotated: bool, serial: string) returns (evs: seq<Q.Event>)
    requires Mirrors(sys, Met(l).current, Met(l).pending, serial) && Q.Invariant(sys) && Settled(l)
    ensures Explains(sys, evs, Meeting(l, rotated).current, Meeting(l, rotated).pending, serial, [])
    ensures var mid := Q.Run(sys, evs); Q.Invariant(mid) && mid.store == sys.store
  {
    MeetingTasks(l, rotated);
    if rotated {
      evs := LeaveTasks(sys, Met(l).current, Met(l).pending, !l.place.Stray?, serial);
    } else {
      Nothing(sys, Met(l).current, Met(l).pending, serial, []);
      evs := [];
    }
    Q.RunKeepsInvariant(sys, evs);
    Q.StoreIsApplied(sys, evs);
  }

  /** An Inform is queue events as well: a load, or whatever a full summon starts. */
  lemma InformIsEvents(sys: Q.System, l: Line, inf: Informed, rotated: bool, made: seq<Task>, readOk: bool, w: World,
                       serial: string)
    returns (evs: seq<Q.Event>)
    requires Mirrors(sys, Met(l).current, Met(l).pending, serial) && Q.Invariant(sys) && Settled(l)
    requires MakesUp(w) && AllMadeUp(made) && inf.tasks == made + Read(sys.store, serial, readOk)
    ensures var o := OnInform(Meeting(l, rotated), inf, w);
      Explains(sys, evs, o.sess.current, o.sess.pending, serial, o.writes)
  {
    var s := Meeting(l, rotated);
    evs := LeftBehind(sys, l, rotated, serial);
    if inf.stored {
      var mid := Q.Run(sys, evs);
      var more := StoredInform(mid, s, inf, made, readOk, w, serial);
      var o := OnInform(s, inf, w);
      Then(sys, evs, mid, s.current, s.pending, more, o.sess.current, o.sess.pending, serial, [], o.writes);
      assert [] + o.writes == o.writes;
      evs := evs + more;
    }
  }

  lemma StoredInform(sys: Q.System, s: Sess, inf: Informed, made: seq<Task>, readOk: bool, w: World, serial: string)
    returns (evs: seq<Q.Event>)
    requires Mirrors(sys, s.current, s.pending, serial) && Q.Invariant(sys) && inf.stored
    requires MakesUp(w) && AllMadeUp(made) && inf.tasks == made + Read(sys.store, serial, readOk)
    ensures var o := OnInform(s, inf, w); Explains(sys, evs, o.sess.current, o.sess.pending, serial, o.writes)
  {
    if inf.fullSummon {
      evs := DispatchEvents(sys, s.(bootstrap := inf.bootstrap, summon := 1, schema := inf.schema), Facing(w, s.gear),
        serial);
    } else {
      evs := LoadingInform(sys, s, inf, made, readOk, w, serial);
    }
  }

  /** Requests and Informs as events; a trigger leaves the tasks alone. */
  lemma HappeningEvents(sys: Q.System, d: Device, turn: Turn, w: World, serial: string) returns (evs: seq<Q.Event>)
    requires Represents(sys, d, serial) && turn.Happens? && Possible(d, turn, w, serial)
    ensures var writes := if Answer(d.line, turn.what, w).Some? then Answer(d.line, turn.what, w).value.writes else [];
      var s := Met(Moved(d.line, turn.what, w));
      Explains(sys, evs, s.current, s.pending, serial, writes)
  {
    match turn.what {
      case Post(r) =>
        evs := RequestEvents(sys, Met(d.line), r, Facing(w, Met(d.line).gear), serial);
        ClosedIsEmpty(d.line, r, w);
      case Inform(inf, rotated) =>
        evs := InformIsEvents(sys, d.line, inf, rotated, turn.made, turn.readOk, w, serial);
      case Trigger =>
        Nothing(sys, Met(d.line).current, Met(d.line).pending, serial, []);
        evs := [];
    }
  }

  /** Leaving the session map loses no task. */
  lemma ClosedIsEmpty(l: Line, r: Request, w: World)
    ensures var s, o := Met(Asked(l, r, Serve(Met(l), r, w).sess)), Serve(Met(l), r, w);
      s.current == o.sess.current && s.pending == o.sess.pending
  {
    if Closes(Met(l), r) { assert OnEmpty(Met(l), Facing(w, Met(l).gear)).sess == Met(l).(lifecycle := Closed); }
  }

  lemma HappeningTurn(sys: Q.System, d: Device, turn: Turn, w: World, serial: string) returns (evs: seq<Q.Event>)
    requires Represents(sys, d, serial) && turn.Happens? && Possible(d, turn, w, serial)
    ensures Q.EnabledRun(sys, evs) && Represents(Q.Run(sys, evs), TurnOf(d, turn, w), serial)
    ensures Records(sys, Q.Run(sys, evs), [], FinishedBy(d, turn, w), serial)
  {
    evs := HappeningEvents(sys, d, turn, w, serial);
    Q.StoreIsApplied(sys, evs);
    Q.RetiredIsTraced(sys, evs);
    Q.RunKeepsInvariant(sys, evs);
    StaysSettled(d.line, turn.what, w);
  }

  lemma OneEvent(sys: Q.System, ev: Q.Event)
    requires Q.Enabled(sys, ev)
    ensures Q.EnabledRun(sys, [ev]) && Q.Run(sys, [ev]) == Q.Step(sys, ev)
  {
    TraceCons(sys, ev, []);
    assert [ev] + [] == [ev];
  }

  lemma EnqueueRecords(sys: Q.System, t: Task, serial: string)
    requires Q.Enabled(sys, Q.Enqueue(t))
    ensures var next := Q.Step(sys, Q.Enqueue(t));
      && next.store == Q.Enqueued(sys.store, t) && next.held == sys.held
      && Records(sys, next, AddedBy(Add(t), serial), {}, serial)
  {
  }

  /** An event of the store alone. */
  lemma StoreEvent(sys: Q.System, d: Device, ev: Q.Event, store: Q.Store, serial: string)
    requires Represents(sys, d, serial) && Q.Enabled(sys, ev)
    requires Q.Step(sys, ev).store == store && Q.Step(sys, ev).held == sys.held
    ensures Q.EnabledRun(sys, [ev]) && Q.Run(sys, [ev]) == Q.Step(sys, ev)
    ensures Represents(Q.Step(sys, ev), d.(store := store), serial)
  {
    OneEvent(sys, ev);
    Q.StepKeepsInvariant(sys, ev);
    SameCopies(sys, Q.Step(sys, ev), Met(d.line).current, Met(d.line).pending, serial);
  }

  lemma AddTurn(sys: Q.System, d: Device, t: Task, w: World, serial: string) returns (evs: seq<Q.Event>)
    requires Represents(sys, d, serial) && Possible(d, Add(t), w, serial)
    ensures Q.EnabledRun(sys, evs) && Represents(Q.Run(sys, evs), TurnOf(d, Add(t), w), serial)
    ensures Records(sys, Q.Run(sys, evs), AddedBy(Add(t), serial), {}, serial)
  {
    EnqueueRecords(sys, t, serial);
    StoreEvent(sys, d, Q.Enqueue(t), Q.Enqueued(d.store, t), serial);
    evs := [Q.Enqueue(t)];
  }

  lemma CancelTurn(sys: Q.System, d: Device, id: string, w: World, serial: string) returns (evs: seq<Q.Event>)
    requires Represents(sys, d, serial)
    ensures Q.EnabledRun(sys, evs) && Represents(Q.Run(sys, evs), TurnOf(d, CancelTask(id), w), serial)
    ensures Records(sys, Q.Run(sys, evs), [], FinishedBy(d, CancelTask(id), w), serial)
  {
    evs := [];
    if Cancels(d, id) {
      StoreEvent(sys, d, Q.Cancel(id), Q.Updated(d.store, d.store.data[id].(status := Cancelled)), serial);
      evs := [Q.Cancel(id)];
    }
  }

  /** Whatever happens to the device is queue events. */
  lemma TurnIsEvents(sys: Q.System, d: Device, turn: Turn, w: World, serial: string) returns (evs: seq<Q.Event>)
    requires Represents(sys, d, serial) && Possible(d, turn, w, serial)
    ensures Q.EnabledRun(sys, evs) && Represents(Q.Run(sys, evs), TurnOf(d, turn, w), serial)
    ensures Records(sys, Q.Run(sys, evs), AddedBy(turn, serial), FinishedBy(d, turn, w), serial)
  {
    match turn {
      case Happens(_, _, _) => evs := HappeningTurn(sys, d, turn, w, serial);
      case Add(t) => evs := AddTurn(sys, d, t, w, serial);
      case CancelTask(id) => evs := CancelTurn(sys, d, id, w, serial);
    }
  }

  predicate PossibleRun(d: Device, turns: seq<(Turn, World)>, serial: string)
    decreases |turns|
  {
    turns == [] ||
      (Possible(d, turns[0].0, turns[0].1, serial) && PossibleRun(TurnOf(d, turns[0].0, turns[0].1), turns[1..],
        serial))
  }

  function DeviceRun(d: Device, turns: seq<(Turn, World)>): Device
    decreases |turns|
  {
    if turns == [] then d else DeviceRun(TurnOf(d, turns[0].0, turns[0].1), turns[1..])
  }

  lemma RecordsJoin(a: Q.System, b: Q.System, c: Q.System, u: seq<string>, v: seq<string>, f: set<string>,
                    g: set<string>, serial: string)
    requires Records(a, b, u, f, serial) && Records(b, c, v, g, serial)
    ensures Records(a, c, u + v, f + g, serial)
  {
  }

  /** Every run of a device is a run of the queue model, with the same new tasks and the same finished ones. */
  lemma {:induction false} DeviceRunIsQueueRun(sys: Q.System, d: Device, turns: seq<(Turn, World)>, serial: string)
    returns (evs: seq<Q.Event>)
    requires Represents(sys, d, serial) && PossibleRun(d, turns, serial)
    ensures Q.EnabledRun(sys, evs) && Represents(Q.Run(sys, evs), DeviceRun(d, turns), serial)
    ensures Records(sys, Q.Run(sys, evs), Added(turns, serial), Finished(d, turns), serial)
    decreases |turns|
  {
    evs := [];
    if turns != [] {
      var turn, w := turns[0].0, turns[0].1;
      var first := TurnIsEvents(sys, d, turn, w, serial);
      var mid := Q.Run(sys, first);
      var rest := DeviceRunIsQueueRun(mid, TurnOf(d, turn, w), turns[1..], serial);
      RunsJoin(sys, first, rest);
      RecordsJoin(sys, mid, Q.Run(mid, rest), AddedBy(turn, serial), Added(turns[1..], serial), FinishedBy(d, turn, w),
        Finished(TurnOf(d, turn, w), turns[1..]), serial);
      evs := first + rest;
    }
  }

  const NEW_DEVICE := Device(Q.INITIAL.store, NEW_LINE)

  /** From the empty queue, after every run of Informs, requests, triggers, new tasks and cancels, with any writes
      refused: the device list holds, in the order of enqueueing and once each, exactly the ids of the new tasks of the
      device that no write has finished; no listed record is finished; and what the queue hands out is all its pending
      tasks in that order. */
  lemma DeviceRunKeepsList(turns: seq<(Turn, World)>, serial: string)
    requires PossibleRun(NEW_DEVICE, turns, serial)
    ensures var st := DeviceRun(NEW_DEVICE, turns).store;
      var ids, added := Q.ListOf(st, serial), Added(turns, serial);
      && ids == Q.Unretired(added, Finished(NEW_DEVICE, turns)) && Q.Distinct(ids)
      && Q.PendingTasks(ids, st.data) == Q.PendingTasks(added, st.data)
      && forall id | id in ids ::
           id in st.data && st.data[id].serial == serial && !Terminal(st.data[id].status)
  {
    Q.InitialInvariant();
    assert OfSerial(Q.INITIAL.held, serial) == map[];
    assert CopyOf(None) + Copies([]) == map[];
    var evs := DeviceRunIsQueueRun(Q.INITIAL, NEW_DEVICE, turns, serial);
    Q.InvariantMeans(Q.Run(Q.INITIAL, evs), serial);
    assert [] + Added(turns, serial) == Added(turns, serial);
    assert {} + Finished(NEW_DEVICE, turns) == Finished(NEW_DEVICE, turns);
  }
}
