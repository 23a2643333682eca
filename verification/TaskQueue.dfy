/** The per-device task queue: a FIFO list of ids, a table of task records, and the status
    lifecycle that has to keep the two in agreement. */
module TaskQueue {
  import opened GoStrings
  import opened Tasks

  /** queue: ids per device serial; data: record per id. */
  datatype Store = Store(queue: map<string, seq<string>>, data: map<string, Task>)

  function ListOf(st: Store, serial: string): seq<string> {
    if serial in st.queue then st.queue[serial] else []
  }

  /** LREM with count 0: drop every occurrence. */
  function Without(ids: seq<string>, id: string): seq<string> {
    if ids == [] then []
    else if ids[0] == id then Without(ids[1..], id)
    else [ids[0]] + Without(ids[1..], id)
  }

  function Enqueued(st: Store, t: Task): Store {
    Store(st.queue[t.serial := ListOf(st, t.serial) + [t.id]], st.data[t.id := t])
  }

  function Updated(st: Store, t: Task): Store {
    Store(if Terminal(t.status) then st.queue[t.serial := Without(ListOf(st, t.serial), t.id)] else st.queue,
          st.data[t.id := t])
  }

  /** The tasks of the listed ids that are pending, in list order; ids without a record are skipped. */
  function PendingTasks(ids: seq<string>, data: map<string, Task>): seq<Task> {
    if ids == [] then []
    else
      var rest := PendingTasks(ids[..|ids| - 1], data);
      var id := ids[|ids| - 1];
      if id in data && data[id].status == Pending then rest + [data[id]] else rest
  }

  datatype CancelResult = CancelOk | NotFound | AlreadyTerminal | WriteFailed

  /** The stored list and table, as Redis keeps them. */
  class RedisQueue {
    var queue: map<string, seq<string>>
    var data: map<string, Task>

    ghost function State(): Store
      reads this
    {
      Store(queue, data)
    }

    constructor ()
      ensures State() == Store(map[], map[])
    {
      queue, data := map[], map[];
    }

    method Enqueue(t: Task)
      modifies this
      ensures State() == Enqueued(old(State()), t)
    {
      queue := queue[t.serial := (if t.serial in queue then queue[t.serial] else []) + [t.id]];
      data := data[t.id := t];
    }

    method DequeuePending(serial: string) returns (pending: seq<Task>)
      ensures pending == PendingTasks(ListOf(State(), serial), data)
    {
      pending := [];
      var ids := if serial in queue then queue[serial] else [];
      for i := 0 to |ids|
        invariant pending == PendingTasks(ids[..i], data)
      {
        assert ids[..i + 1][..i] == ids[..i];
        if ids[i] in data && data[ids[i]].status == Pending {
          pending := pending + [data[ids[i]]];
        }
      }
      assert ids[..|ids|] == ids;
    }

    /** writeOk is the outcome of the SET command. */
    method UpdateStatus(t: Task, writeOk: bool)
      modifies this
      ensures State() == if writeOk then Updated(old(State()), t) else old(State())
    {
      if !writeOk {
        return;
      }
      data := data[t.id := t];
      if t.status == Completed || t.status == Failed || t.status == Cancelled {
        queue := queue[t.serial := Without(if t.serial in queue then queue[t.serial] else [], t.id)];
      }
    }

    method Cancel(id: string, writeOk: bool) returns (r: CancelResult)
      modifies this
      ensures r == (if id !in old(data) then NotFound else if Terminal(old(data)[id].status) then AlreadyTerminal
                    else if writeOk then CancelOk else WriteFailed)
      ensures State() == if r.CancelOk? then Updated(old(State()), old(data)[id].(status := Cancelled))
        else old(State())
    {
      if id !in data {
        return NotFound;
      }
      var t := data[id];
      if t.status == Completed || t.status == Failed || t.status == Cancelled {
        return AlreadyTerminal;
      }
      UpdateStatus(t.(status := Cancelled), writeOk);
      r := if writeOk then CancelOk else WriteFailed;
    }
  }

  // ---- queue and sessions together ----

  /** held: the copies sessions work on. history: ids enqueued per device, oldest first. dispatches: successful
      dispatches per task. retired: ids that have been stored with a terminal status at some point. */
  datatype System = System(
    store: Store, held: map<string, Task>, history: map<string, seq<string>>, dispatches: map<string, nat>,
      retired: set<string>)

  /** writeOk is the outcome of the status write an event attempts. */
  datatype Event =
    | Enqueue(t: Task)
    /** An Inform of the device: its session keeps what is in flight and, unless reading the queue fails, loads what is
        pending. */
    | Load(serial: string, readOk: bool)
    /** dispatchTask on a held copy. When the write is refused, a queued copy is dropped; a copy in flight stays and
        counts the attempt all the same. */
    | Dispatch(id: string, writeOk: bool)
    /** The request of a dispatched task cannot be built and the session keeps the copy. */
    | Fail(id: string, writeOk: bool)
    /** completeTask on a copy in flight. */
    | Complete(id: string, ok: bool, writeOk: bool)
    /** A session lets go of a copy in flight: a diagnostic has started, or another task takes its place. */
    | Release(id: string)
    /** Cancelling a stored task, whether or not a session holds a copy. */
    | Cancel(id: string)
    /** A TransferComplete or a collected diagnostic: the stored record is rewritten whatever its status. */
    | Report(id: string, ok: bool, writeOk: bool)
    /** A status write of a task that was never enqueued. */
    | Unlisted(t: Task, writeOk: bool)

  /** Collection tasks are made up by sessions. */
  predicate Enqueuable(t: Task) {
    !Synthetic(t.id) && t.kind != DiagResult
  }

  predicate Enabled(s: System, ev: Event) {
    match ev
    case Enqueue(t) => t.id !in s.store.data && t.status == Pending && t.attempts == 0 && Enqueuable(t)
    case Load(_, _) => true
    case Dispatch(id, _) => id in s.held
    case Fail(id, _) => id in s.held && s.held[id].status == Executing
    case Complete(id, _, _) => id in s.held && s.held[id].status != Pending
    case Release(id) => id in s.held && s.held[id].status != Pending
    case Cancel(id) => id in s.store.data && !Terminal(s.store.data[id].status)
    case Report(id, _, _) => id in s.store.data
    case Unlisted(t, _) => Synthetic(t.id)
  }

  function HistoryOf(s: System, serial: string): seq<string> {
    if serial in s.history then s.history[serial] else []
  }

  function Verdict(ok: bool): (v: Status)
    ensures Terminal(v)
  {
    if ok then Completed else Failed
  }

  function Write(s: System, t: Task): System {
    s.(store := Updated(s.store, t), retired := if Terminal(t.status) then s.retired + {t.id} else s.retired)
  }

  function Started(t: Task): Task {
    t.(status := Executing, attempts := t.attempts + 1)
  }

  function Dispatches(s: System, id: string): nat {
    if id in s.dispatches then s.dispatches[id] else 0
  }

  /** The status write an event attempts, and its outcome. */
  function Attempted(s: System, ev: Event): Option<(Task, bool)>
    requires Enabled(s, ev)
  {
    match ev
    case Dispatch(id, ok) => Some((Started(s.held[id]), ok))
    case Fail(id, ok) => Some((s.held[id].(status := Failed), ok))
    case Complete(id, v, ok) => Some((s.held[id].(status := Verdict(v)), ok))
    case Cancel(id) => Some((s.store.data[id].(status := Cancelled), true))
    case Report(id, v, ok) => Some((s.store.data[id].(status := Verdict(v)), ok))
    case Unlisted(t, ok) => Some((t, ok))
    case _ => None
  }

  /** The system once the store has taken or refused the write. */
  function Noted(s: System, ev: Event): System
    requires Enabled(s, ev)
  {
    var a := Attempted(s, ev);
    if a.Some? && a.value.1 then Write(s, a.value.0) else s
  }

  /** The copies an event leaves. */
  function Copies(s: System, ev: Event): map<string, Task>
    requires Enabled(s, ev)
  {
    match ev
    case Load(serial, readOk) =>
      var data := s.store.data;
      (map id | id in s.held && (s.held[id].serial != serial || s.held[id].status != Pending) :: s.held[id])
      + if readOk then map id | id in ListOf(s.store, serial) && id in data && data[id].status == Pending :: data[id]
        else map[]
    case Dispatch(id, ok) =>
      if ok || s.held[id].status != Pending then s.held[id := Started(s.held[id])] else s.held - {id}
    case Fail(id, _) => s.held[id := s.held[id].(status := Failed)]
    case Complete(id, _, _) => s.held - {id}
    case Release(id) => s.held - {id}
    case _ => s.held
  }

  function Step(s: System, ev: Event): System
    requires Enabled(s, ev)
  {
    match ev
    case Enqueue(t) =>
      s.(store := Enqueued(s.store, t), history := s.history[t.serial := HistoryOf(s, t.serial) + [t.id]],
         dispatches := s.dispatches[t.id := 0])
    case Dispatch(id, ok) =>
      Noted(s, ev).(held := Copies(s, ev),
                    dispatches := if ok then s.dispatches[id := Dispatches(s, id) + 1] else s.dispatches)
    case _ => Noted(s, ev).(held := Copies(s, ev))
  }

  // ---- what commands and events leave in the store ----

  /** Dropping an id keeps all the other entries in their order. */
  lemma {:induction false} WithoutKeepsOthers(a: seq<string>, x: string, b: seq<string>, id: string)
    ensures Without([], id) == [] && Without([x], id) == if x == id then [] else [x]
    ensures Without(a + b, id) == Without(a, id) + Without(b, id)
  {
    if a == [] {
      assert a + b == b;
    } else {
      assert (a + b)[1..] == a[1..] + b;
      WithoutKeepsOthers(a[1..], x, b, id);
    }
  }

  /** A new task goes to the end of the list of its device, and its record is stored; nothing else changes. */
  lemma EnqueueAppends(st: Store, t: Task, serial: string, id: string)
    ensures var e := Enqueued(st, t);
      && ListOf(e, serial) == (if serial in st.queue then st.queue[serial] else [])
                              + (if serial == t.serial then [t.id] else [])
      && (id in e.data <==> id == t.id || id in st.data)
      && (id in e.data ==> e.data[id] == if id == t.id then t else st.data[id])
  {
    if serial != t.serial { assert ListOf(st, serial) + [] == ListOf(st, serial); }
  }

  /** A status write stores the record; a completed, failed or cancelled task leaves the list of its device, and any
      other stays. */
  lemma UpdateStores(st: Store, t: Task, serial: string, id: string)
    ensures var u, over := Updated(st, t), t.status in {Completed, Failed, Cancelled};
      && ListOf(u, serial) == (if serial == t.serial && over then Without(ListOf(st, serial), t.id)
                               else ListOf(st, serial))
      && (id in u.data <==> id == t.id || id in st.data)
      && (id in u.data ==> u.data[id] == if id == t.id then t else st.data[id])
  {
  }

  /** Loading a list keeps its order and passes over ids without a record and records that are not pending. */
  lemma {:induction false} PendingInOrder(a: seq<string>, id: string, b: seq<string>, data: map<string, Task>)
    ensures PendingTasks([], data) == []
    ensures PendingTasks([id], data) == if id in data && data[id].status == Pending then [data[id]] else []
    ensures PendingTasks(a + b, data) == PendingTasks(a, data) + PendingTasks(b, data)
  {
    assert [id][..0] == [] && [id][0] == id;
    if b == [] {
      assert a + b == a;
    } else {
      assert (a + b)[..|a + b| - 1] == a + b[..|b| - 1] && (a + b)[|a + b| - 1] == b[|b| - 1];
      PendingInOrder(a, id, b[..|b| - 1], data);
    }
  }

  /** What is on record after a dispatch whose write is taken: the copy as executing with one attempt more; when its
      request cannot be built, as failed. */
  lemma DispatchStores(s: System, ev: Event, id: string)
    requires Enabled(s, ev) && IdsMatch(s) && forall i | i in s.held :: s.held[i].id == i
    ensures ev == Dispatch(id, true) ==>
      var t := s.held[id].(status := Executing, attempts := s.held[id].attempts + 1);
      Step(s, ev).store.data == s.store.data[id := t] && Step(s, ev).held == s.held[id := t]
    ensures ev == Fail(id, true) ==>
      var t := s.held[id].(status := Failed);
      Step(s, ev).store.data == s.store.data[id := t] && Step(s, ev).held == s.held[id := t]
  {
  }

  /** An end is stored as completed or failed and lets go of the copy; a cancel marks the record, and a report rewrites
      it. */
  lemma EndStores(s: System, ev: Event, id: string)
    requires Enabled(s, ev) && IdsMatch(s) && forall i | i in s.held :: s.held[i].id == i
    ensures ev == Complete(id, true, true) ==>
      Step(s, ev).store.data == s.store.data[id := s.held[id].(status := Completed)] && id !in Step(s, ev).held
    ensures ev == Complete(id, false, true) ==>
      Step(s, ev).store.data == s.store.data[id := s.held[id].(status := Failed)] && id !in Step(s, ev).held
    ensures ev == Cancel(id) ==>
      Step(s, ev).store.data == s.store.data[id := s.store.data[id].(status := Cancelled)] && Step(s, ev).held == s.held
    ensures ev == Report(id, true, true) ==>
      Step(s, ev).store.data == s.store.data[id := s.store.data[id].(status := Completed)] && Step(s, ev).held == s.held
    ensures ev == Report(id, false, true) ==>
      Step(s, ev).store.data == s.store.data[id := s.store.data[id].(status := Failed)] && Step(s, ev).held == s.held
  {
  }

  /** A write the store refuses leaves it as it is. A queued copy that cannot be dispatched is dropped; one in flight
      stays and counts the attempt. */
  lemma RefusedStoresNothing(s: System, ev: Event, id: string)
    requires Enabled(s, ev)
    requires ev == Dispatch(id, false) || ev == Fail(id, false) || ev == Complete(id, true, false)
      || ev == Complete(id, false, false) || ev == Report(id, true, false) || ev == Report(id, false, false)
      || ev == Release(id)
    ensures Step(s, ev).store == s.store && Step(s, ev).history == s.history && Step(s, ev).retired == s.retired
    ensures ev.Dispatch? && s.held[id].status == Pending ==> Step(s, ev).held == s.held - {id}
    ensures ev.Dispatch? && s.held[id].status != Pending ==>
      Step(s, ev).held == s.held[id := s.held[id].(status := Executing, attempts := s.held[id].attempts + 1)]
    ensures ev.Release? || ev.Complete? ==> Step(s, ev).held == s.held - {id}
  {
  }

  /** An Inform drops the queued copies of the device, keeps what is in flight, and holds what its list says is
      pending. */
  lemma LoadHolds(s: System, serial: string, readOk: bool, id: string)
    ensures var l, listed := Step(s, Load(serial, readOk)), id in ListOf(s.store, serial) && id in s.store.data;
      && l.store == s.store
      && (id in l.held <==>
            || (id in s.held && (s.held[id].serial != serial || s.held[id].status != Pending))
            || (readOk && listed && s.store.data[id].status == Pending))
      && (readOk && listed && s.store.data[id].status == Pending ==> l.held[id] == s.store.data[id])
  {
  }

  // ---- the invariant of all runs ----

  /** The ids of h that have never been terminal. */
  function Unretired(h: seq<string>, retired: set<string>): seq<string> {
    if h == [] then []
    else if h[0] !in retired then [h[0]] + Unretired(h[1..], retired)
    else Unretired(h[1..], retired)
  }

  predicate Distinct(ids: seq<string>) {
    forall i, j | 0 <= i < j < |ids| :: ids[i] != ids[j]
  }

  predicate IdsMatch(s: System) {
    forall id | id in s.store.data :: s.store.data[id].id == id
  }

  /** Records are filed under their id, and the history of a device lists its tasks once each. */
  predicate Filed(s: System) {
    && IdsMatch(s)
    && (forall serial | serial in s.history :: Distinct(s.history[serial]))
    && (forall serial | serial in s.history :: forall i | 0 <= i < |s.history[serial]| ::
          s.history[serial][i] in s.store.data && s.store.data[s.history[serial][i]].serial == serial)
    && (forall serial | serial in s.history :: forall i | 0 <= i < |s.history[serial]| ::
         !Synthetic(s.history[serial][i]))
    && (forall id | id in s.store.data && !Synthetic(id) :: id in HistoryOf(s, s.store.data[id].serial))
  }

  /** A device's list holds exactly its ids that have never been terminal, in enqueue order. */
  ghost predicate ListsUnretired(s: System) {
    forall serial :: ListOf(s.store, serial) == Unretired(HistoryOf(s, serial), s.retired)
  }

  /** The status of a record tells whether it can have been retired; its attempts are at least its dispatches. */
  predicate RecordFits(s: System, id: string)
    requires id in s.store.data
  {
    !Synthetic(id) ==>
      && s.store.data[id].kind != DiagResult
      && (Terminal(s.store.data[id].status) ==> id in s.retired)
      && (s.store.data[id].status == Pending ==> id !in s.retired)
      && id in s.dispatches && s.store.data[id].attempts >= s.dispatches[id]
  }

  /** A copy differs from its record in status and attempts only. It may be ahead in attempts once it is in flight, and
      the record of a task that was never retired is pending or executing as the copy is queued or in flight. */
  predicate CopyFits(s: System, id: string)
    requires id in s.held
  {
    var copy := s.held[id];
    && id in s.store.data && !Synthetic(id)
    && var record := s.store.data[id];
    && copy == record.(status := copy.status, attempts := copy.attempts) && copy.attempts >= record.attempts
    && (copy.status == Pending ==> copy.attempts == record.attempts)
    && (copy.status != Pending ==> record.status != Pending)
    && (id !in s.retired ==> record.status == if copy.status == Pending then Pending else Executing)
  }

  predicate CopiesFit(s: System) {
    && s.retired <= s.store.data.Keys
    && (forall id | id in s.store.data :: RecordFits(s, id))
    && (forall id | id in s.held :: CopyFits(s, id))
  }

  ghost predicate Invariant(s: System) {
    Filed(s) && ListsUnretired(s) && CopiesFit(s)
  }

  lemma {:induction false} UnretiredAppend(h: seq<string>, id: string, retired: set<string>)
    requires id !in retired
    ensures Unretired(h + [id], retired) == Unretired(h, retired) + [id]
  {
    if h == [] {
      assert h + [id] == [id];
    } else {
      assert (h + [id])[1..] == h[1..] + [id];
      UnretiredAppend(h[1..], id, retired);
    }
  }

  lemma {:induction false} UnretiredRemoved(h: seq<string>, id: string, retired: set<string>)
    ensures Unretired(h, retired + {id}) == Without(Unretired(h, retired), id)
  {
    if h != [] {
      UnretiredRemoved(h[1..], id, retired);
    }
  }

  lemma {:induction false} UnretiredElsewhere(h: seq<string>, id: string, retired: set<string>)
    requires id !in h
    ensures Unretired(h, retired + {id}) == Unretired(h, retired)
  {
    if h != [] {
      UnretiredElsewhere(h[1..], id, retired);
    }
  }

  lemma {:induction false} UnretiredSubset(h: seq<string>, retired: set<string>)
    ensures forall id :: id in Unretired(h, retired) <==> id in h && id !in retired
    ensures Distinct(h) ==> Distinct(Unretired(h, retired))
  {
    if h != [] {
      UnretiredSubset(h[1..], retired);
      var rest := Unretired(h[1..], retired);
      if Distinct(h) {
        assert forall j | 0 <= j < |rest| :: rest[j] in rest;
        assert h[0] !in h[1..];
      }
    }
  }

  lemma {:induction false} PendingAppend(a: seq<string>, b: seq<string>, data: map<string, Task>)
    ensures PendingTasks(a + b, data) == PendingTasks(a, data) + PendingTasks(b, data)
  {
    if b == [] {
      assert a + b == a;
    } else {
      var n := |b| - 1;
      assert (a + b)[..|a + b| - 1] == a + b[..n];
      PendingAppend(a, b[..n], data);
    }
  }

  /** Leaving out retired ids loses no pending task. */
  lemma {:induction false} PendingOfUnretired(h: seq<string>, retired: set<string>, data: map<string, Task>)
    requires forall id | id in h && id in retired && id in data :: data[id].status != Pending
    ensures PendingTasks(Unretired(h, retired), data) == PendingTasks(h, data)
  {
    if h != [] {
      PendingOfUnretired(h[1..], retired, data);
      assert h == [h[0]] + h[1..];
      PendingAppend([h[0]], h[1..], data);
      PendingAppend([h[0]], Unretired(h[1..], retired), data);
    }
  }

  // what a step does to the lists

  lemma NotListed(s: System, serial: string, id: string)
    requires Filed(s)
    ensures id in HistoryOf(s, serial) ==> !Synthetic(id) && id in s.store.data && s.store.data[id].serial == serial
  {
    if id in HistoryOf(s, serial) {
      var i :| 0 <= i < |s.history[serial]| && s.history[serial][i] == id;
    }
  }

  /** Rewriting a record under its own id and serial, or writing one that no list names, keeps filing and lists. */
  lemma WriteKeepsLists(s: System, t: Task)
    requires Filed(s) && ListsUnretired(s)
    requires Synthetic(t.id) || (t.id in s.store.data && t.serial == s.store.data[t.id].serial)
    ensures Filed(Write(s, t)) && ListsUnretired(Write(s, t))
  {
    var s' := Write(s, t);
    forall serial ensures ListOf(s'.store, serial) == Unretired(HistoryOf(s', serial), s'.retired) {
      var h := HistoryOf(s, serial);
      if serial == t.serial {
        UnretiredRemoved(h, t.id, s.retired);
      } else {
        NotListed(s, serial, t.id);
        UnretiredElsewhere(h, t.id, s.retired);
      }
    }
  }

  lemma EnqueueKeepsLists(s: System, t: Task)
    requires Filed(s) && ListsUnretired(s) && s.retired <= s.store.data.Keys && Enabled(s, Enqueue(t))
    ensures ListsUnretired(Step(s, Enqueue(t)))
  {
    var s' := Step(s, Enqueue(t));
    forall serial ensures ListOf(s'.store, serial) == Unretired(HistoryOf(s', serial), s'.retired) {
      UnretiredAppend(HistoryOf(s, serial), t.id, s.retired);
    }
  }

  lemma EnqueueKeepsFiled(s: System, t: Task)
    requires Filed(s) && Enabled(s, Enqueue(t))
    ensures Filed(Step(s, Enqueue(t)))
  {
    var s' := Step(s, Enqueue(t));
    var h := HistoryOf(s, t.serial);
    NotListed(s, t.serial, t.id);
    assert Distinct(h + [t.id]);
    forall id | id in s'.store.data && !Synthetic(id) ensures id in HistoryOf(s', s'.store.data[id].serial) {
      if id == t.id { assert (h + [t.id])[|h|] == id; }
    }
  }

  lemma SameStoreKeeps(s: System, s': System)
    requires Filed(s) && ListsUnretired(s) && s'.store == s.store && s'.history == s.history && s'.retired == s.retired
    ensures Filed(s') && ListsUnretired(s')
  {
    forall serial ensures ListOf(s'.store, serial) == Unretired(HistoryOf(s', serial), s'.retired) {
      assert ListOf(s.store, serial) == Unretired(HistoryOf(s, serial), s.retired);
    }
  }

  /** The task an event is about, if it is about one. */
  function Subject(ev: Event): Option<string> {
    match ev
    case Enqueue(t) => Some(t.id)
    case Load(_, _) => None
    case Dispatch(id, _) => Some(id)
    case Fail(id, _) => Some(id)
    case Complete(id, _, _) => Some(id)
    case Release(id) => Some(id)
    case Cancel(id) => Some(id)
    case Report(id, _, _) => Some(id)
    case Unlisted(t, _) => Some(t.id)
  }

  lemma AttemptIsFiled(s: System, ev: Event)
    requires CopiesFit(s) && IdsMatch(s) && Enabled(s, ev) && Attempted(s, ev).Some?
    ensures var t := Attempted(s, ev).value.0;
      Subject(ev) == Some(t.id) && (Synthetic(t.id) || (t.id in s.store.data && t.serial == s.store.data[t.id].serial))
  {
    if Subject(ev).value in s.held { assert CopyFits(s, Subject(ev).value); }
  }

  lemma StepKeepsLists(s: System, ev: Event)
    requires Invariant(s) && Enabled(s, ev)
    ensures Filed(Step(s, ev)) && ListsUnretired(Step(s, ev))
  {
    if ev.Enqueue? {
      EnqueueKeepsLists(s, ev.t);
      EnqueueKeepsFiled(s, ev.t);
    } else {
      NotedKeepsLists(s, ev);
      SameStoreKeeps(Noted(s, ev), Step(s, ev));
    }
  }

  lemma NotedKeepsLists(s: System, ev: Event)
    requires Invariant(s) && Enabled(s, ev)
    ensures Filed(Noted(s, ev)) && ListsUnretired(Noted(s, ev))
  {
    if Attempted(s, ev).Some? {
      AttemptIsFiled(s, ev);
      WriteKeepsLists(s, Attempted(s, ev).value.0);
    }
  }

  // what a step does to the copies

  /** What a step keeps for a task it is not about. */
  lemma OthersKeep(s: System, ev: Event, id: string)
    requires CopiesFit(s) && IdsMatch(s) && Enabled(s, ev) && Subject(ev) != Some(id) && !ev.Load?
    ensures var s' := Step(s, ev);
      && (id in s'.store.data <==> id in s.store.data) && (id in s.store.data ==> s'.store.data[id] == s.store.data[id])
      && (id in s'.held <==> id in s.held) && (id in s.held ==> s'.held[id] == s.held[id])
      && (id in s'.retired <==> id in s.retired)
      && (id in s'.dispatches <==> id in s.dispatches) && (id in s.dispatches ==> s'.dispatches[id] == s.dispatches[id])
  {
    if Attempted(s, ev).Some? { AttemptIsFiled(s, ev); }
  }

  /** What a step leaves for the task it is about. */
  predicate Fits(s: System, id: string) {
    && (id in s.retired ==> id in s.store.data)
    && (id in s.store.data ==> RecordFits(s, id))
    && (id in s.held ==> CopyFits(s, id))
  }

  lemma SubjectFits(s: System, ev: Event)
    requires CopiesFit(s) && IdsMatch(s) && Enabled(s, ev) && Subject(ev).Some?
    ensures Fits(Step(s, ev), Subject(ev).value)
  {
    SubjectRecordFits(s, ev, Subject(ev).value);
    SubjectCopyFits(s, ev, Subject(ev).value);
  }

  lemma SubjectRecordFits(s: System, ev: Event, id: string)
    requires CopiesFit(s) && IdsMatch(s) && Enabled(s, ev) && Subject(ev) == Some(id)
    ensures var s' := Step(s, ev);
      (id in s'.retired ==> id in s'.store.data) && (id in s'.store.data ==> RecordFits(s', id))
  {
    if id in s.store.data { assert RecordFits(s, id); }
    if id in s.held { assert CopyFits(s, id); }
  }

  lemma SubjectCopyFits(s: System, ev: Event, id: string)
    requires CopiesFit(s) && IdsMatch(s) && Enabled(s, ev) && Subject(ev) == Some(id)
    ensures id in Step(s, ev).held ==> CopyFits(Step(s, ev), id)
  {
    if id in s.store.data { assert RecordFits(s, id); }
    if id in s.held { assert CopyFits(s, id); }
  }

  lemma LoadFits(s: System, serial: string, readOk: bool, id: string)
    requires Invariant(s) && id in Step(s, Load(serial, readOk)).held
    ensures CopyFits(Step(s, Load(serial, readOk)), id)
  {
    if id in s.held { assert CopyFits(s, id); }
    if id in s.store.data { assert RecordFits(s, id); }
    NotListed(s, serial, id);
    UnretiredSubset(HistoryOf(s, serial), s.retired);
    assert ListOf(s.store, serial) == Unretired(HistoryOf(s, serial), s.retired);
  }

  lemma UnchangedFits(s: System, s': System, id: string)
    requires CopiesFit(s)
    requires id in s'.store.data <==> id in s.store.data
    requires id in s.store.data ==> s'.store.data[id] == s.store.data[id]
    requires (id in s'.held <==> id in s.held) && (id in s.held ==> s'.held[id] == s.held[id])
    requires id in s'.retired <==> id in s.retired
    requires (id in s'.dispatches <==> id in s.dispatches)
      && (id in s.dispatches ==> s'.dispatches[id] == s.dispatches[id])
    ensures Fits(s', id)
  {
    if id in s.store.data { assert RecordFits(s, id); }
    if id in s.held { assert CopyFits(s, id); }
  }

  lemma LoadKeepsFit(s: System, serial: string, readOk: bool, id: string)
    requires Invariant(s)
    ensures Fits(Step(s, Load(serial, readOk)), id)
  {
    if id in Step(s, Load(serial, readOk)).held { LoadFits(s, serial, readOk, id); }
    if id in s.store.data { assert RecordFits(s, id); }
  }

  lemma StepFits(s: System, ev: Event, id: string)
    requires Invariant(s) && Enabled(s, ev)
    ensures Fits(Step(s, ev), id)
  {
    if ev.Load? {
      LoadKeepsFit(s, ev.serial, ev.readOk, id);
    } else if Subject(ev) == Some(id) {
      SubjectFits(s, ev);
    } else {
      OthersKeep(s, ev, id);
      UnchangedFits(s, Step(s, ev), id);
    }
  }

  lemma FitsIsCopiesFit(s: System)
    requires forall id :: Fits(s, id)
    ensures CopiesFit(s)
  {
    assert forall id | id in s.retired :: Fits(s, id);
    assert forall id | id in s.store.data :: Fits(s, id);
    assert forall id | id in s.held :: Fits(s, id);
  }

  lemma StepKeepsCopies(s: System, ev: Event)
    requires Invariant(s) && Enabled(s, ev)
    ensures CopiesFit(Step(s, ev))
  {
    forall id ensures Fits(Step(s, ev), id) { StepFits(s, ev, id); }
    FitsIsCopiesFit(Step(s, ev));
  }

  lemma StepKeepsInvariant(s: System, ev: Event)
    requires Invariant(s) && Enabled(s, ev)
    ensures Invariant(Step(s, ev))
  {
    StepKeepsLists(s, ev);
    StepKeepsCopies(s, ev);
  }

  // ---- runs ----

  predicate EnabledRun(s: System, evs: seq<Event>)
    decreases |evs|
  {
    evs != [] ==> Enabled(s, evs[0]) && EnabledRun(Step(s, evs[0]), evs[1..])
  }

  function Run(s: System, evs: seq<Event>): System
    requires EnabledRun(s, evs)
    decreases |evs|
  {
    if evs == [] then s else Run(Step(s, evs[0]), evs[1..])
  }

  const INITIAL := System(Store(map[], map[]), map[], map[], map[], {})

  lemma {:induction false} RunKeepsInvariant(s: System, evs: seq<Event>)
    requires Invariant(s) && EnabledRun(s, evs)
    ensures Invariant(Run(s, evs))
    decreases |evs|
  {
    if evs != [] {
      StepKeepsInvariant(s, evs[0]);
      RunKeepsInvariant(Step(s, evs[0]), evs[1..]);
    }
  }

  lemma InitialInvariant()
    ensures Invariant(INITIAL)
  {
    forall x ensures ListOf(INITIAL.store, x) == Unretired(HistoryOf(INITIAL, x), INITIAL.retired) {}
  }

  /** The list of a device is duplicate-free and holds exactly its ids that were never terminal, in enqueue order;
      DequeuePending returns all pending tasks of the device in that order. */
  ghost predicate ListAgrees(s: System, serial: string) {
    && Distinct(ListOf(s.store, serial))
    && ListOf(s.store, serial) == Unretired(HistoryOf(s, serial), s.retired)
    && PendingTasks(ListOf(s.store, serial), s.store.data) == PendingTasks(HistoryOf(s, serial), s.store.data)
    && forall id | id in ListOf(s.store, serial) ::
         id in s.store.data && s.store.data[id].serial == serial && !Terminal(s.store.data[id].status)
  }

  /** What the invariant says about one device. */
  lemma InvariantMeans(s: System, serial: string)
    requires Invariant(s)
    ensures ListAgrees(s, serial)
  {
    var h := HistoryOf(s, serial);
    UnretiredSubset(h, s.retired);
    forall id | id in h ensures id in s.store.data && RecordFits(s, id) && s.store.data[id].serial == serial
      && !Synthetic(id) {
      NotListed(s, serial, id);
    }
    PendingOfUnretired(h, s.retired, s.store.data);
    assert ListOf(s.store, serial) == Unretired(h, s.retired);
  }

  /** Over every run from the empty queue, with refused writes, cancels and late reports at any time, every list agrees
      with the lifecycle of its tasks, and no attempt count is below the number of dispatches. */
  lemma QueueAgreesWithLifecycle(evs: seq<Event>, serial: string)
    requires EnabledRun(INITIAL, evs)
    ensures var s := Run(INITIAL, evs);
      && ListAgrees(s, serial)
      && forall id | id in s.store.data && !Synthetic(id) :: s.store.data[id].attempts >= Dispatches(s, id)
  {
    InitialInvariant();
    RunKeepsInvariant(INITIAL, evs);
    var s := Run(INITIAL, evs);
    InvariantMeans(s, serial);
    forall id | id in s.store.data && !Synthetic(id) ensures s.store.data[id].attempts >= Dispatches(s, id) {
      assert RecordFits(s, id);
    }
  }

  // ---- when the attempts of a task are its dispatches ----

  /** The copy of id counts an attempt that its record does not. */
  predicate Ahead(s: System, id: string) {
    id in s.held && id in s.store.data && s.held[id].attempts > s.store.data[id].attempts
  }

  predicate Exact(s: System, id: string) {
    id in s.store.data ==> s.store.data[id].attempts == Dispatches(s, id)
  }

  /** The store takes a write of the copy of id. */
  predicate TakesCopy(ev: Event, id: string) {
    match ev
    case Dispatch(i, ok) => i == id && ok
    case Fail(i, ok) => i == id && ok
    case Complete(i, _, ok) => i == id && ok
    case _ => false
  }

  /** No write of the run records an attempt that was refused before. */
  predicate NeverCatchesUp(s: System, evs: seq<Event>, id: string)
    requires EnabledRun(s, evs)
    decreases |evs|
  {
    evs == [] || (!(TakesCopy(evs[0], id) && Ahead(s, id)) && NeverCatchesUp(Step(s, evs[0]), evs[1..], id))
  }

  lemma SubjectExactIff(s: System, ev: Event, id: string)
    requires CopiesFit(s) && IdsMatch(s) && Enabled(s, ev) && Subject(ev) == Some(id) && !Synthetic(id)
    ensures Exact(Step(s, ev), id) <==> Exact(s, id) && !(TakesCopy(ev, id) && Ahead(s, id))
  {
    if id in s.held { assert CopyFits(s, id); }
    if id in s.store.data { assert RecordFits(s, id); }
  }

  lemma ExactStepIff(s: System, ev: Event, id: string)
    requires CopiesFit(s) && IdsMatch(s) && Enabled(s, ev) && !Synthetic(id)
    ensures Exact(Step(s, ev), id) <==> Exact(s, id) && !(TakesCopy(ev, id) && Ahead(s, id))
  {
    if Subject(ev) == Some(id) {
      SubjectExactIff(s, ev, id);
    } else if !ev.Load? {
      OthersKeep(s, ev, id);
    }
  }

  lemma {:induction false} ExactRunIff(s: System, evs: seq<Event>, id: string)
    requires Invariant(s) && EnabledRun(s, evs) && !Synthetic(id)
    ensures Exact(Run(s, evs), id) <==> Exact(s, id) && NeverCatchesUp(s, evs, id)
    decreases |evs|
  {
    if evs != [] {
      ExactStepIff(s, evs[0], id);
      StepKeepsInvariant(s, evs[0]);
      ExactRunIff(Step(s, evs[0]), evs[1..], id);
    }
  }

  /** Over every run the attempts of a task are its successful dispatches if and only if the store never takes a write
      of a copy that counts a refused attempt. */
  lemma AttemptsAreDispatchesIff(evs: seq<Event>, id: string)
    requires EnabledRun(INITIAL, evs) && !Synthetic(id)
    ensures Exact(Run(INITIAL, evs), id) <==> NeverCatchesUp(INITIAL, evs, id)
  {
    InitialInvariant();
    ExactRunIff(INITIAL, evs, id);
  }

  /** A re-dispatch of id has been refused since the store last took a write of its copy; owed says so of the past. */
  predicate Owes(s: System, evs: seq<Event>, id: string, owed: bool)
    requires EnabledRun(s, evs)
    decreases |evs|
  {
    if evs == [] then owed else Owes(Step(s, evs[0]), evs[1..], id, OwesNext(s, evs[0], id, owed))
  }

  predicate OwesNext(s: System, ev: Event, id: string, owed: bool) {
    match ev
    case Dispatch(i, ok) => if i == id then !ok else owed
    case Fail(i, ok) => owed && !(i == id && ok)
    case Load(_, _) => owed && id in s.held && s.held[id].status != Pending
    case _ => owed
  }

  lemma SubjectOwesStep(s: System, ev: Event, id: string, owed: bool)
    requires CopiesFit(s) && IdsMatch(s) && Enabled(s, ev) && Subject(ev) == Some(id) && !Synthetic(id)
    requires id in s.held ==> (owed <==> Ahead(s, id))
    ensures id in Step(s, ev).held ==> (OwesNext(s, ev, id, owed) <==> Ahead(Step(s, ev), id))
  {
    if id in s.held { assert CopyFits(s, id); }
  }

  lemma LoadOwesStep(s: System, serial: string, readOk: bool, id: string, owed: bool)
    requires Invariant(s) && (id in s.held ==> (owed <==> Ahead(s, id)))
    ensures var s' := Step(s, Load(serial, readOk));
      id in s'.held ==> (OwesNext(s, Load(serial, readOk), id, owed) <==> Ahead(s', id))
  {
    if id in s.held { assert CopyFits(s, id); }
    if id in Step(s, Load(serial, readOk)).held { LoadFits(s, serial, readOk, id); }
  }

  lemma OwesStep(s: System, ev: Event, id: string, owed: bool)
    requires Invariant(s) && Enabled(s, ev) && !Synthetic(id) && (id in s.held ==> (owed <==> Ahead(s, id)))
    ensures id in Step(s, ev).held ==> (OwesNext(s, ev, id, owed) <==> Ahead(Step(s, ev), id))
  {
    if ev.Load? {
      LoadOwesStep(s, ev.serial, ev.readOk, id, owed);
    } else if Subject(ev) == Some(id) {
      SubjectOwesStep(s, ev, id, owed);
    } else {
      OthersKeep(s, ev, id);
      if id in s.held { assert CopyFits(s, id); }
    }
  }

  lemma {:induction false} OwesRun(s: System, evs: seq<Event>, id: string, owed: bool)
    requires Invariant(s) && EnabledRun(s, evs) && !Synthetic(id) && (id in s.held ==> (owed <==> Ahead(s, id)))
    ensures id in Run(s, evs).held ==> (Owes(s, evs, id, owed) <==> Ahead(Run(s, evs), id))
    decreases |evs|
  {
    if evs != [] {
      OwesStep(s, evs[0], id, owed);
      StepKeepsInvariant(s, evs[0]);
      OwesRun(Step(s, evs[0]), evs[1..], id, OwesNext(s, evs[0], id, owed));
    }
  }

  /** Over every run a copy counts the same attempts as its record, unless a re-dispatch has been refused since the
      store last took a write of the copy. */
  lemma CopyIsAheadIff(evs: seq<Event>, id: string)
    requires EnabledRun(INITIAL, evs) && id in Run(INITIAL, evs).held
    ensures var s := Run(INITIAL, evs);
      && id in s.store.data && s.held[id].attempts >= s.store.data[id].attempts
      && (s.held[id].attempts == s.store.data[id].attempts <==> !Owes(INITIAL, evs, id, false))
  {
    InitialInvariant();
    RunKeepsInvariant(INITIAL, evs);
    assert CopyFits(Run(INITIAL, evs), id);
    OwesRun(INITIAL, evs, id, false);
  }

  // ---- when the list is exactly the tasks that are not finished ----

  /** The ids of h whose record is not terminal. */
  function LiveIds(h: seq<string>, data: map<string, Task>): seq<string> {
    if h == [] then []
    else if h[0] in data && !Terminal(data[h[0]].status) then [h[0]] + LiveIds(h[1..], data)
    else LiveIds(h[1..], data)
  }

  /** No enqueued task that was finished once is unfinished now. */
  predicate NoneRevived(s: System) {
    forall id | id in s.retired && id in s.store.data && !Synthetic(id) :: Terminal(s.store.data[id].status)
  }

  ghost predicate ListsLive(s: System) {
    forall serial :: ListOf(s.store, serial) == LiveIds(HistoryOf(s, serial), s.store.data)
  }

  lemma {:induction false} UnretiredIsLive(h: seq<string>, s: System)
    requires forall id | id in h :: id in s.store.data && (id in s.retired <==> Terminal(s.store.data[id].status))
    ensures Unretired(h, s.retired) == LiveIds(h, s.store.data)
  {
    if h != [] {
      assert h[0] in h;
      UnretiredIsLive(h[1..], s);
    }
  }

  lemma {:induction false} LiveMembers(h: seq<string>, data: map<string, Task>, id: string)
    ensures id in LiveIds(h, data) <==> id in h && id in data && !Terminal(data[id].status)
  {
    if h != [] { LiveMembers(h[1..], data, id); }
  }

  /** The lists hold exactly the unfinished tasks if and only if no finished task has been revived. */
  lemma ListsLiveIff(s: System)
    requires Invariant(s)
    ensures ListsLive(s) <==> NoneRevived(s)
  {
    if NoneRevived(s) {
      forall serial ensures ListOf(s.store, serial) == LiveIds(HistoryOf(s, serial), s.store.data) {
        forall id | id in HistoryOf(s, serial)
          ensures id in s.store.data && (id in s.retired <==> Terminal(s.store.data[id].status))
        {
          NotListed(s, serial, id);
          assert RecordFits(s, id);
        }
        UnretiredIsLive(HistoryOf(s, serial), s);
      }
    } else {
      var id :| id in s.retired && id in s.store.data && !Synthetic(id) && !Terminal(s.store.data[id].status);
      var serial := s.store.data[id].serial;
      LiveMembers(HistoryOf(s, serial), s.store.data, id);
      UnretiredSubset(HistoryOf(s, serial), s.retired);
      assert ListOf(s.store, serial) != LiveIds(HistoryOf(s, serial), s.store.data);
    }
  }

  /** The one way to revive a task: the store takes the dispatch of a copy that a session holds after the task was
      finished. */
  lemma RevivalIff(s: System, ev: Event)
    requires Invariant(s) && Enabled(s, ev) && NoneRevived(s)
    ensures NoneRevived(Step(s, ev)) <==> !(ev.Dispatch? && ev.writeOk && ev.id in s.retired)
  {
    var s' := Step(s, ev);
    if ev.Dispatch? && ev.writeOk && ev.id in s.retired {
      assert CopyFits(s, ev.id);
      assert ev.id in s'.retired && s'.store.data[ev.id].status == Executing;
    } else {
      forall id | id in s'.retired && id in s'.store.data && !Synthetic(id) ensures Terminal(s'.store.data[id].status) {
        RetiredSettles(s, ev, id);
      }
    }
  }

  lemma RetiredSettles(s: System, ev: Event, id: string)
    requires Invariant(s) && Enabled(s, ev) && NoneRevived(s) && !(ev.Dispatch? && ev.writeOk && ev.id in s.retired)
    requires id in Step(s, ev).retired && id in Step(s, ev).store.data && !Synthetic(id)
    ensures Terminal(Step(s, ev).store.data[id].status)
  {
    if !ev.Load? && Subject(ev) != Some(id) {
      OthersKeep(s, ev, id);
    } else {
      SubjectSettles(s, ev, id);
    }
  }

  lemma SubjectSettles(s: System, ev: Event, id: string)
    requires Invariant(s) && Enabled(s, ev) && NoneRevived(s) && (ev.Load? || Subject(ev) == Some(id)) && !Synthetic(id)
    requires !(ev.Dispatch? && ev.writeOk && ev.id in s.retired) && !(ev.Enqueue? && ev.t.id == id)
    requires id in Step(s, ev).retired && id in Step(s, ev).store.data
    ensures Terminal(Step(s, ev).store.data[id].status)
  {
    if Attempted(s, ev).Some? && Attempted(s, ev).value.1 {
      AttemptIsFiled(s, ev);
      EndsTask(s, ev);
    } else {
      StoreUntouched(s, ev);
    }
  }

  /** Every write but that of a dispatch ends a task. */
  lemma EndsTask(s: System, ev: Event)
    requires Enabled(s, ev) && Attempted(s, ev).Some? && !ev.Dispatch? && !ev.Unlisted?
    ensures Terminal(Attempted(s, ev).value.0.status)
  {
  }

  lemma StoreUntouched(s: System, ev: Event)
    requires Enabled(s, ev) && !(Attempted(s, ev).Some? && Attempted(s, ev).value.1) && !ev.Enqueue?
    ensures Step(s, ev).store == s.store && Step(s, ev).retired == s.retired
  {
  }

  // ---- when a finished task stays as it is ----

  /** After every event of the run the record of id is rec. */
  predicate Stays(s: System, evs: seq<Event>, id: string, rec: Task)
    requires EnabledRun(s, evs)
    decreases |evs|
  {
    evs != [] ==>
      var s' := Step(s, evs[0]);
      id in s'.store.data && s'.store.data[id] == rec && Stays(s', evs[1..], id, rec)
  }

  /** The store takes no dispatch of id and nothing else that differs from what is recorded: another outcome, or an
      attempt that was refused before. */
  predicate Quiet(s: System, ev: Event, id: string, recorded: Status) {
    match ev
    case Dispatch(i, ok) => i == id ==> !ok
    case Fail(i, ok) => i == id && ok ==> recorded == Failed && !Ahead(s, id)
    case Complete(i, v, ok) => i == id && ok ==> Verdict(v) == recorded && !Ahead(s, id)
    case Report(i, v, ok) => i == id && ok ==> Verdict(v) == recorded
    case _ => true
  }

  predicate AllQuiet(s: System, evs: seq<Event>, id: string, recorded: Status)
    requires EnabledRun(s, evs)
    decreases |evs|
  {
    evs == [] || (Quiet(s, evs[0], id, recorded) && AllQuiet(Step(s, evs[0]), evs[1..], id, recorded))
  }

  /** What an event about id itself does to its finished record. */
  lemma SubjectStaysIff(s: System, ev: Event, id: string)
    requires CopiesFit(s) && Enabled(s, ev) && Subject(ev) == Some(id) && !Synthetic(id)
    requires id in s.store.data && s.store.data[id].id == id && Terminal(s.store.data[id].status)
    ensures id in Step(s, ev).store.data
    ensures Step(s, ev).store.data[id] == s.store.data[id] <==> Quiet(s, ev, id, s.store.data[id].status)
    ensures id !in s.held ==> id !in Step(s, ev).held
  {
    if id in s.held { assert CopyFits(s, id); }
  }

  lemma LoadLeavesFinished(s: System, serial: string, readOk: bool, id: string)
    requires id in s.store.data && Terminal(s.store.data[id].status)
    ensures Step(s, Load(serial, readOk)).store == s.store
    ensures id !in s.held ==> id !in Step(s, Load(serial, readOk)).held
  {
  }

  lemma StaysOneStepIff(s: System, ev: Event, id: string)
    requires CopiesFit(s) && IdsMatch(s) && Enabled(s, ev) && !Synthetic(id)
    requires id in s.store.data && Terminal(s.store.data[id].status)
    ensures id in Step(s, ev).store.data
    ensures Step(s, ev).store.data[id] == s.store.data[id] <==> Quiet(s, ev, id, s.store.data[id].status)
    ensures id !in s.held ==> id !in Step(s, ev).held
  {
    if ev.Load? {
      LoadLeavesFinished(s, ev.serial, ev.readOk, id);
    } else if Subject(ev) == Some(id) {
      SubjectStaysIff(s, ev, id);
    } else {
      OthersKeep(s, ev, id);
    }
  }

  /** Over every run a finished task keeps its record exactly when the store takes no dispatch of a copy of it, no
      report or completion with another outcome, and no write that counts an attempt refused before. */
  lemma {:induction false} TerminalStaysIff(s: System, evs: seq<Event>, id: string)
    requires Invariant(s) && EnabledRun(s, evs) && !Synthetic(id)
    requires id in s.store.data && Terminal(s.store.data[id].status)
    ensures Stays(s, evs, id, s.store.data[id]) <==> AllQuiet(s, evs, id, s.store.data[id].status)
    decreases |evs|
  {
    if evs != [] {
      StaysOneStepIff(s, evs[0], id);
      StepKeepsInvariant(s, evs[0]);
      if Quiet(s, evs[0], id, s.store.data[id].status) {
        TerminalStaysIff(Step(s, evs[0]), evs[1..], id);
      }
    }
  }

  /** Every report on id that the store takes gives the recorded outcome. */
  predicate ReportsAgree(evs: seq<Event>, id: string, recorded: Status) {
    evs == [] || (ReportAgrees(evs[0], id, recorded) && ReportsAgree(evs[1..], id, recorded))
  }

  predicate ReportAgrees(ev: Event, id: string, recorded: Status) {
    ev.Report? && ev.id == id && ev.writeOk ==> Verdict(ev.ok) == recorded
  }

  /** When no session holds a copy, only a report with another outcome can change the record. */
  lemma {:induction false} UnheldStaysIff(s: System, evs: seq<Event>, id: string)
    requires Invariant(s) && EnabledRun(s, evs) && !Synthetic(id)
    requires id in s.store.data && Terminal(s.store.data[id].status) && id !in s.held
    ensures Stays(s, evs, id, s.store.data[id]) <==> ReportsAgree(evs, id, s.store.data[id].status)
    decreases |evs|
  {
    if evs != [] {
      StaysOneStepIff(s, evs[0], id);
      StepKeepsInvariant(s, evs[0]);
      UnheldIsQuietIff(s, evs[0], id, s.store.data[id].status);
      if Quiet(s, evs[0], id, s.store.data[id].status) {
        UnheldStaysIff(Step(s, evs[0]), evs[1..], id);
      }
    }
  }

  lemma UnheldIsQuietIff(s: System, ev: Event, id: string, recorded: Status)
    requires Enabled(s, ev) && id !in s.held
    ensures Quiet(s, ev, id, recorded) <==> ReportAgrees(ev, id, recorded)
  {
  }

  // ---- the store is what the writes make of it ----

  /** The status writes a run attempts, with their outcomes, in order. */
  function Trace(s: System, evs: seq<Event>): seq<(Task, bool)>
    requires EnabledRun(s, evs)
    decreases |evs|
  {
    if evs == [] then [] else WritesOf(s, evs[0]) + Trace(Step(s, evs[0]), evs[1..])
  }

  function WritesOf(s: System, ev: Event): seq<(Task, bool)>
    requires Enabled(s, ev)
  {
    if Attempted(s, ev).Some? then [Attempted(s, ev).value] else []
  }

  /** The store after some status writes: those it refused leave it alone. */
  function Applied(st: Store, writes: seq<(Task, bool)>): Store
    decreases |writes|
  {
    if writes == [] then st else Applied(if writes[0].1 then Updated(st, writes[0].0) else st, writes[1..])
  }

  lemma {:induction false} AppliedConcat(st: Store, a: seq<(Task, bool)>, b: seq<(Task, bool)>)
    ensures Applied(st, a + b) == Applied(Applied(st, a), b)
    decreases |a|
  {
    if a == [] {
      assert a + b == b;
    } else {
      assert (a + b)[1..] == a[1..] + b;
      AppliedConcat(if a[0].1 then Updated(st, a[0].0) else st, a[1..], b);
    }
  }

  predicate EnqueuesNothing(evs: seq<Event>) {
    evs == [] || (!evs[0].Enqueue? && EnqueuesNothing(evs[1..]))
  }

  lemma OneWrite(st: Store, write: (Task, bool))
    ensures Applied(st, [write]) == if write.1 then Updated(st, write.0) else st
  {
    assert [write][1..] == [];
  }

  /** After any run without new tasks the store is the fold of the status writes it took. */
  lemma {:induction false} StoreIsApplied(s: System, evs: seq<Event>)
    requires EnabledRun(s, evs) && EnqueuesNothing(evs)
    ensures Run(s, evs).store == Applied(s.store, Trace(s, evs))
    decreases |evs|
  {
    if evs != [] {
      StoreIsApplied(Step(s, evs[0]), evs[1..]);
      AppliedConcat(s.store, WritesOf(s, evs[0]), Trace(Step(s, evs[0]), evs[1..]));
      if Attempted(s, evs[0]).Some? { OneWrite(s.store, Attempted(s, evs[0]).value); }
    }
  }

  /** The ids that the writes a store took finish. */
  function TerminalIds(writes: seq<(Task, bool)>): set<string>
    decreases |writes|
  {
    if writes == [] then {}
    else (if writes[0].1 && Terminal(writes[0].0.status) then {writes[0].0.id} else {}) + TerminalIds(writes[1..])
  }

  lemma {:induction false} TerminalConcat(a: seq<(Task, bool)>, b: seq<(Task, bool)>)
    ensures TerminalIds(a + b) == TerminalIds(a) + TerminalIds(b)
    decreases |a|
  {
    if a == [] {
      assert a + b == b;
    } else {
      assert (a + b)[1..] == a[1..] + b;
      TerminalConcat(a[1..], b);
    }
  }

  lemma StepRetires(s: System, ev: Event)
    requires Enabled(s, ev) && !ev.Enqueue?
    ensures Step(s, ev).history == s.history && Step(s, ev).retired == s.retired + TerminalIds(WritesOf(s, ev))
  {
    if Attempted(s, ev).Some? {
      assert [Attempted(s, ev).value][1..] == [];
    }
  }

  /** A run without new tasks keeps the histories, and retires exactly the ids of the terminal writes it took. */
  lemma {:induction false} RetiredIsTraced(s: System, evs: seq<Event>)
    requires EnabledRun(s, evs) && EnqueuesNothing(evs)
    ensures Run(s, evs).history == s.history && Run(s, evs).retired == s.retired + TerminalIds(Trace(s, evs))
    decreases |evs|
  {
    if evs != [] {
      StepRetires(s, evs[0]);
      RetiredIsTraced(Step(s, evs[0]), evs[1..]);
      TerminalConcat(WritesOf(s, evs[0]), Trace(Step(s, evs[0]), evs[1..]));
    }
  }

  // ---- two runs the code allows ----

  lemma RunCons(s: System, ev: Event, rest: seq<Event>)
    requires Enabled(s, ev) && EnabledRun(Step(s, ev), rest)
    ensures EnabledRun(s, [ev] + rest) && Run(s, [ev] + rest) == Run(Step(s, ev), rest)
  {
    assert ([ev] + rest)[1..] == rest;
  }

  /** A queued task, loaded by a session. */
  lemma LoadedTask(t: Task) returns (s: System)
    requires t.status == Pending && t.attempts == 0 && Enqueuable(t)
    ensures Enabled(INITIAL, Enqueue(t)) && s == Step(Step(INITIAL, Enqueue(t)), Load(t.serial, true))
    ensures t.id in s.held && s.held[t.id] == t && t.id in s.store.data && s.store.data[t.id] == t
    ensures Dispatches(s, t.id) == 0
  {
    s := Step(Step(INITIAL, Enqueue(t)), Load(t.serial, true));
    assert ListOf(Step(INITIAL, Enqueue(t)).store, t.serial) == [t.id];
  }

  /** Three events after the task was loaded. */
  lemma ThreeEvents(t: Task, s: System, a: Event, b: Event, c: Event) returns (evs: seq<Event>)
    requires Enabled(INITIAL, Enqueue(t)) && s == Step(Step(INITIAL, Enqueue(t)), Load(t.serial, true))
    requires Enabled(s, a) && Enabled(Step(s, a), b) && Enabled(Step(Step(s, a), b), c)
    ensures evs == [Enqueue(t)] + ([Load(t.serial, true)] + ([a] + ([b] + ([c] + []))))
    ensures EnabledRun(INITIAL, evs) && Run(INITIAL, evs) == Step(Step(Step(s, a), b), c)
  {
    RunCons(Step(Step(s, a), b), c, []);
    RunCons(Step(s, a), b, [c] + []);
    RunCons(s, a, [b] + ([c] + []));
    RunCons(Step(INITIAL, Enqueue(t)), Load(t.serial, true), [a] + ([b] + ([c] + [])));
    RunCons(INITIAL, Enqueue(t), [Load(t.serial, true)] + ([a] + ([b] + ([c] + []))));
    evs := [Enqueue(t)] + ([Load(t.serial, true)] + ([a] + ([b] + ([c] + []))));
  }

  lemma HeldAfterReport(s: System, id: string, t: Task)
    requires t.id == id && id in s.held && s.held[id] == t && t.status == Pending && id in s.store.data
      && s.store.data[id] == t
    ensures var s' := Step(s, Dispatch(id, true));
      && Enabled(s', Report(id, true, true)) && Enabled(Step(s', Report(id, true, true)), Dispatch(id, true))
      && var s'' := Step(Step(s', Report(id, true, true)), Dispatch(id, true));
         id in s''.store.data && s''.store.data[id] == t.(status := Executing, attempts := t.attempts + 2)
           && id in s''.retired
  {
  }

  /** The firmware path: a download is dispatched, its TransferComplete arrives while the session still holds the
      task, and the next empty POST dispatches the held copy again. The finished task is executing once more. */
  lemma DownloadComesBack(t: Task) returns (evs: seq<Event>)
    requires t.status == Pending && t.attempts == 0 && Enqueuable(t)
    ensures evs == [Enqueue(t)]
      + ([Load(t.serial, true)]
        + ([Dispatch(t.id, true)] + ([Report(t.id, true, true)] + ([Dispatch(t.id, true)] + []))))
    ensures EnabledRun(INITIAL, evs)
    ensures var s := Run(INITIAL, evs);
      t.id in s.store.data && s.store.data[t.id] == t.(status := Executing, attempts := 2) && !NoneRevived(s)
  {
    var s := LoadedTask(t);
    HeldAfterReport(s, t.id, t);
    evs := ThreeEvents(t, s, Dispatch(t.id, true), Report(t.id, true, true), Dispatch(t.id, true));
  }

  lemma HeldAfterRefusal(s: System, id: string, t: Task)
    requires t.id == id && id in s.held && s.held[id] == t && t.status == Pending && id in s.store.data
      && s.store.data[id] == t
    ensures var s' := Step(s, Dispatch(id, true));
      && Enabled(s', Dispatch(id, false)) && Enabled(Step(s', Dispatch(id, false)), Dispatch(id, true))
      && var s'' := Step(Step(s', Dispatch(id, false)), Dispatch(id, true));
         id in s''.store.data && s''.store.data[id].attempts == t.attempts + 3
         && Dispatches(s'', id) == Dispatches(s, id) + 2
  {
  }

  /** A refused re-dispatch and then a successful one: three attempts, two dispatches. */
  lemma RefusedAttemptIsCounted(t: Task) returns (evs: seq<Event>)
    requires t.status == Pending && t.attempts == 0 && Enqueuable(t)
    ensures EnabledRun(INITIAL, evs) && !Exact(Run(INITIAL, evs), t.id)
    ensures var s := Run(INITIAL, evs);
      t.id in s.store.data && s.store.data[t.id].attempts == 3 && Dispatches(s, t.id) == 2
  {
    var s := LoadedTask(t);
    HeldAfterRefusal(s, t.id, t);
    evs := ThreeEvents(t, s, Dispatch(t.id, true), Dispatch(t.id, false), Dispatch(t.id, true));
  }
}
