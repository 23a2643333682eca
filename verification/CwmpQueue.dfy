/** The two views of a task brought together: what a device's requests do to its session is a run of the queue. */
module CwmpQueue {
  import opened GoStrings
  import opened Provisioning
  import opened Tasks
  import opened CwmpSpec
  import opened CwmpProtocol
  import Q = TaskQueue

  // ---- the copies a session holds ----

  /** Tasks that sessions make up live in the session only. */
  predicate Tracked(t: Task) {
    !Synthetic(t.id)
  }

  /** Collection tasks are made up. */
  predicate Proper(t: Task) {
    t.kind == DiagResult ==> Synthetic(t.id)
  }

  function CopyOf(cur: Option<Task>): map<string, Task> {
    if cur.Some? && Tracked(cur.value) then map[cur.value.id := cur.value] else map[]
  }

  function Copies(ts: seq<Task>): map<string, Task> {
    if ts == [] then map[]
    else if Tracked(ts[0]) then Copies(ts[1..])[ts[0].id := ts[0]]
    else Copies(ts[1..])
  }

  /** A queued copy: of this device, pending, and not queued again behind. */
  predicate Waits(t: Task, behind: seq<Task>, serial: string) {
    Proper(t) && (Tracked(t) ==> t.serial == serial && t.status == Pending && t.id !in Copies(behind))
  }

  predicate Queued(ts: seq<Task>, serial: string) {
    ts == [] || (Queued(ts[1..], serial) && Waits(ts[0], ts[1..], serial))
  }

  predicate InFlight(cur: Option<Task>, ts: seq<Task>, serial: string) {
    cur.Some? ==>
      Proper(cur.value) &&
      (Tracked(cur.value) ==> cur.value.serial == serial && cur.value.status != Pending && cur.value.id !in Copies(ts))
  }

  function OfSerial(held: map<string, Task>, serial: string): map<string, Task> {
    map id | id in held && held[id].serial == serial :: held[id]
  }

  /** The copies held for a device are exactly its session's task in flight and its pending tasks. */
  predicate Mirrors(sys: Q.System, cur: Option<Task>, ts: seq<Task>, serial: string) {
    && Queued(ts, serial) && InFlight(cur, ts, serial)
    && OfSerial(sys.held, serial) == CopyOf(cur) + Copies(ts)
  }

  // ---- writes ----

  /** The status writes of a request and their outcomes. */
  function StatusTasks(writes: seq<Write>): seq<(Task, bool)> {
    if writes == [] then []
    else if writes[0].StatusOf? then [(writes[0].task, writes[0].ok)] + StatusTasks(writes[1..])
    else StatusTasks(writes[1..])
  }

  lemma {:induction false} StatusConcat(a: seq<Write>, b: seq<Write>)
    ensures StatusTasks(a + b) == StatusTasks(a) + StatusTasks(b)
    decreases |a|
  {
    if a == [] {
      assert a + b == b;
    } else {
      assert (a + b)[1..] == a[1..] + b;
      StatusConcat(a[1..], b);
    }
  }

  lemma OneStatus(t: Task, ok: bool)
    ensures StatusTasks([StatusOf(t, ok)]) == [(t, ok)]
    ensures StatusTasks(StatusWrites(t, ok)) == if t.kind == DiagResult then [] else [(t, ok)]
  {
    assert [StatusOf(t, ok)][1..] == [];
  }

  lemma SavesAreNoStatus(params: map<string, string>)
    ensures StatusTasks(Saves(params)) == []
    ensures StatusTasks([SaveParams(params)]) == []
  {
    assert [SaveParams(params)][1..] == [];
  }

  lemma SyncIsNoStatus(setParams: map<string, string>, mark: bool, creds: map<string, string>)
    ensures StatusTasks(SyncWrites(setParams, mark, creds)) == []
  {
    SavesAreNoStatus(setParams);
    SavesAreNoStatus(PROVISIONED_MARK);
    SavesAreNoStatus(creds);
    var marks := if mark then [SaveParams(PROVISIONED_MARK)] else [];
    StatusConcat(Saves(setParams), marks);
    StatusConcat(Saves(setParams) + marks, Saves(creds));
  }

  lemma MarksAreNoStatus(s: Sess, w: World)
    ensures StatusTasks(MarkWrites(s, w)) == []
  {
    SavesAreNoStatus(PROVISIONED_MARK);
  }

  // ---- a part of a request as events ----

  /** The events lead to a system that mirrors the session and attempt its status writes in order, with their
      outcomes. */
  predicate Explains(sys: Q.System, evs: seq<Q.Event>, cur: Option<Task>, ts: seq<Task>, serial: string,
                     writes: seq<Write>) {
    && Q.EnabledRun(sys, evs) && Q.EnqueuesNothing(evs) && Mirrors(Q.Run(sys, evs), cur, ts, serial)
    && Q.Trace(sys, evs) == StatusTasks(writes)
  }

  /** At most one event, and the writes it attempts. */
  predicate Moves(sys: Q.System, ev: Option<Q.Event>, next: Q.System, written: seq<Write>) {
    match ev
    case None => next == sys && StatusTasks(written) == []
    case Some(e) =>
      Q.Enabled(sys, e) && !e.Enqueue? && next == Q.Step(sys, e) && Q.WritesOf(sys, e) == StatusTasks(written)
  }

  function Events(ev: Option<Q.Event>): seq<Q.Event> {
    if ev.None? then [] else [ev.value]
  }

  lemma TraceCons(sys: Q.System, ev: Q.Event, rest: seq<Q.Event>)
    requires Q.Enabled(sys, ev) && Q.EnabledRun(Q.Step(sys, ev), rest)
    ensures Q.EnabledRun(sys, [ev] + rest) && Q.Run(sys, [ev] + rest) == Q.Run(Q.Step(sys, ev), rest)
    ensures Q.Trace(sys, [ev] + rest) == Q.WritesOf(sys, ev) + Q.Trace(Q.Step(sys, ev), rest)
    ensures Q.EnqueuesNothing([ev] + rest) <==> !ev.Enqueue? && Q.EnqueuesNothing(rest)
  {
    assert ([ev] + rest)[1..] == rest;
  }

  lemma Prepend(sys: Q.System, ev: Option<Q.Event>, next: Q.System, evs: seq<Q.Event>, cur: Option<Task>, ts: seq<Task>,
                serial: string, written: seq<Write>, more: seq<Write>)
    requires Moves(sys, ev, next, written) && Explains(next, evs, cur, ts, serial, more)
    ensures Explains(sys, Events(ev) + evs, cur, ts, serial, written + more)
  {
    StatusConcat(written, more);
    if ev.Some? {
      TraceCons(sys, ev.value, evs);
    } else {
      assert [] + evs == evs;
    }
  }

  lemma Nothing(sys: Q.System, cur: Option<Task>, ts: seq<Task>, serial: string, written: seq<Write>)
    requires Mirrors(sys, cur, ts, serial) && StatusTasks(written) == []
    ensures Explains(sys, [], cur, ts, serial, written)
  {
  }

  lemma Last(sys: Q.System, ev: Option<Q.Event>, next: Q.System, cur: Option<Task>, ts: seq<Task>, serial: string,
             written: seq<Write>) returns (evs: seq<Q.Event>)
    requires Moves(sys, ev, next, written) && Mirrors(next, cur, ts, serial)
    ensures Explains(sys, evs, cur, ts, serial, written)
  {
    Nothing(next, cur, ts, serial, []);
    Prepend(sys, ev, next, [], cur, ts, serial, written, []);
    assert written + [] == written;
    evs := Events(ev) + [];
  }

  /** Two events, one after the other. */
  lemma Both(sys: Q.System, e: Option<Q.Event>, mid: Q.System, f: Option<Q.Event>, next: Q.System, cur: Option<Task>,
             ts: seq<Task>, serial: string, a: seq<Write>, b: seq<Write>) returns (evs: seq<Q.Event>)
    requires Moves(sys, e, mid, a) && Moves(mid, f, next, b) && Mirrors(next, cur, ts, serial)
    ensures Explains(sys, evs, cur, ts, serial, a + b)
  {
    var rest := Last(mid, f, next, cur, ts, serial, b);
    Prepend(sys, e, mid, rest, cur, ts, serial, a, b);
    evs := Events(e) + rest;
  }

  lemma {:induction false} RunsJoin(sys: Q.System, a: seq<Q.Event>, b: seq<Q.Event>)
    requires Q.EnabledRun(sys, a) && Q.EnabledRun(Q.Run(sys, a), b)
    ensures Q.EnabledRun(sys, a + b) && Q.Run(sys, a + b) == Q.Run(Q.Run(sys, a), b)
    ensures Q.EnqueuesNothing(a + b) <==> Q.EnqueuesNothing(a) && Q.EnqueuesNothing(b)
    decreases |a|
  {
    if a == [] {
      assert a + b == b;
    } else {
      RunsJoin(Q.Step(sys, a[0]), a[1..], b);
      assert a + b == [a[0]] + (a[1..] + b);
      TraceCons(sys, a[0], a[1..] + b);
    }
  }

  lemma {:induction false} TracesJoin(sys: Q.System, a: seq<Q.Event>, b: seq<Q.Event>)
    requires Q.EnabledRun(sys, a) && Q.EnabledRun(Q.Run(sys, a), b) && Q.EnabledRun(sys, a + b)
    ensures Q.Trace(sys, a + b) == Q.Trace(sys, a) + Q.Trace(Q.Run(sys, a), b)
    decreases |a|
  {
    if a == [] {
      assert a + b == b;
    } else {
      RunsJoin(Q.Step(sys, a[0]), a[1..], b);
      TracesJoin(Q.Step(sys, a[0]), a[1..], b);
      assert a + b == [a[0]] + (a[1..] + b);
      TraceCons(sys, a[0], a[1..] + b);
      var next := Q.Step(sys, a[0]);
      TracesAssociate(Q.WritesOf(sys, a[0]), Q.Trace(next, a[1..]), Q.Trace(Q.Run(next, a[1..]), b));
    }
  }

  lemma TracesAssociate(a: seq<(Task, bool)>, b: seq<(Task, bool)>, c: seq<(Task, bool)>)
    ensures (a + b) + c == a + (b + c)
  {
  }

  /** One explained part of a request after another. */
  lemma Then(sys: Q.System, a: seq<Q.Event>, mid: Q.System, c: Option<Task>, u: seq<Task>, b: seq<Q.Event>,
             cur: Option<Task>,
             ts: seq<Task>, serial: string, written: seq<Write>, more: seq<Write>)
    requires Explains(sys, a, c, u, serial, written) && mid == Q.Run(sys, a) && Explains(mid, b, cur, ts, serial, more)
    ensures Explains(sys, a + b, cur, ts, serial, written + more)
  {
    RunsJoin(sys, a, b);
    TracesJoin(sys, a, b);
    StatusConcat(written, more);
  }

  // ---- one event on the copies of a device ----

  lemma HeldCopy(sys: Q.System, cur: Option<Task>, ts: seq<Task>, serial: string, t: Task)
    requires Mirrors(sys, cur, ts, serial) && Tracked(t)
    requires cur == Some(t) || (ts != [] && ts[0] == t)
    ensures t.id in sys.held && sys.held[t.id] == t && t.serial == serial
  {
    assert t.id in (CopyOf(cur) + Copies(ts)) && (CopyOf(cur) + Copies(ts))[t.id] == t;
    assert t.id in OfSerial(sys.held, serial);
  }

  lemma OfSerialUpdate(held: map<string, Task>, serial: string, t: Task)
    requires t.serial == serial
    ensures OfSerial(held[t.id := t], serial) == OfSerial(held, serial)[t.id := t]
  {
  }

  lemma OfSerialRemove(held: map<string, Task>, serial: string, id: string)
    ensures OfSerial(held - {id}, serial) == OfSerial(held, serial) - {id}
  {
  }

  /** The copies while t, just started, is nobody's yet. */
  predicate Between(sys: Q.System, cur: Option<Task>, t: Task, ts: seq<Task>, serial: string) {
    && Queued(ts, serial) && InFlight(cur, ts, serial) && InFlight(Some(t), ts, serial)
    && OfSerial(sys.held, serial) == (CopyOf(cur) + Copies(ts)) + CopyOf(Some(t))
    && (cur.Some? && Tracked(cur.value) && Tracked(t) ==> cur.value.id != t.id)
    && (t.kind != DiagResult ==> t.status == Executing)
  }

  /** A status write of a made-up task. */
  lemma UnlistedMove(sys: Q.System, t: Task, ok: bool) returns (ev: Option<Q.Event>, next: Q.System)
    requires !Tracked(t)
    ensures Moves(sys, ev, next, [StatusOf(t, ok)]) && next.held == sys.held
  {
    OneStatus(t, ok);
    ev := Some(Q.Unlisted(t, ok));
    next := Q.Step(sys, ev.value);
  }

  lemma MadeUpMove(sys: Q.System, t: Task, ok: bool) returns (ev: Option<Q.Event>, next: Q.System)
    requires !Tracked(t)
    ensures Moves(sys, ev, next, StatusWrites(t, ok)) && next.held == sys.held
  {
    OneStatus(t, ok);
    ev, next := None, sys;
    if t.kind != DiagResult { ev, next := UnlistedMove(sys, t, ok); }
  }

  lemma SameCopies(sys: Q.System, next: Q.System, cur: Option<Task>, ts: seq<Task>, serial: string)
    requires Mirrors(sys, cur, ts, serial) && next.held == sys.held
    ensures Mirrors(next, cur, ts, serial)
  {
  }

  // the head of the queue

  lemma HeadIsNotCurrent(sys: Q.System, cur: Option<Task>, t: Task, ts: seq<Task>, serial: string)
    requires Mirrors(sys, cur, [t] + ts, serial)
    ensures Queued(ts, serial) && Waits(t, ts, serial) && InFlight(cur, ts, serial)
    ensures Copies([t] + ts) == if Tracked(t) then Copies(ts)[t.id := t] else Copies(ts)
    ensures cur.Some? && Tracked(cur.value) && Tracked(t) ==> cur.value.id != t.id
  {
    assert ([t] + ts)[1..] == ts;
  }

  lemma OverwriteLast(a: map<string, Task>, b: map<string, Task>, id: string, t: Task, t': Task)
    ensures (a + b[id := t])[id := t'] == (a + b) + map[id := t']
  {
  }

  lemma StartTracked(sys: Q.System, cur: Option<Task>, t: Task, ts: seq<Task>, serial: string) returns (next: Q.System)
    requires Mirrors(sys, cur, [t] + ts, serial) && Tracked(t)
    ensures Moves(sys, Some(Q.Dispatch(t.id, true)), next, StatusWrites(Marked(t), true))
    ensures Between(next, cur, Marked(t), ts, serial)
  {
    HeadIsNotCurrent(sys, cur, t, ts, serial);
    HeldCopy(sys, cur, [t] + ts, serial, t);
    OneStatus(Marked(t), true);
    OfSerialUpdate(sys.held, serial, Marked(t));
    OverwriteLast(CopyOf(cur), Copies(ts), t.id, t, Marked(t));
    next := Q.Step(sys, Q.Dispatch(t.id, true));
  }

  lemma StartHead(sys: Q.System, cur: Option<Task>, t: Task, ts: seq<Task>, serial: string)
    returns (ev: Option<Q.Event>, next: Q.System)
    requires Mirrors(sys, cur, [t] + ts, serial)
    ensures Moves(sys, ev, next, StatusWrites(Marked(t), true)) && Between(next, cur, Marked(t), ts, serial)
  {
    if Tracked(t) {
      next := StartTracked(sys, cur, t, ts, serial);
      ev := Some(Q.Dispatch(t.id, true));
    } else {
      HeadIsNotCurrent(sys, cur, t, ts, serial);
      ev, next := MadeUpMove(sys, Marked(t), true);
      assert (CopyOf(cur) + Copies(ts)) + CopyOf(Some(Marked(t))) == CopyOf(cur) + Copies(ts);
    }
  }

  /** The head is refused: a queued copy is dropped. */
  lemma DropHead(sys: Q.System, cur: Option<Task>, t: Task, ts: seq<Task>, serial: string)
    returns (ev: Option<Q.Event>, next: Q.System)
    requires Mirrors(sys, cur, [t] + ts, serial)
    ensures Moves(sys, ev, next, StatusWrites(Marked(t), false)) && Mirrors(next, cur, ts, serial)
  {
    HeadIsNotCurrent(sys, cur, t, ts, serial);
    if Tracked(t) {
      HeldCopy(sys, cur, [t] + ts, serial, t);
      OneStatus(Marked(t), false);
      OfSerialRemove(sys.held, serial, t.id);
      assert (CopyOf(cur) + Copies(ts)[t.id := t]) - {t.id} == CopyOf(cur) + Copies(ts);
      ev := Some(Q.Dispatch(t.id, false));
      next := Q.Step(sys, ev.value);
    } else {
      ev, next := MadeUpMove(sys, Marked(t), false);
    }
  }

  // a task that has been started

  lemma RemoveStarted(sys: Q.System, cur: Option<Task>, t: Task, ts: seq<Task>, serial: string)
    requires Between(sys, cur, t, ts, serial) && Tracked(t)
    ensures t.id in sys.held && sys.held[t.id] == t
    ensures OfSerial(sys.held - {t.id}, serial) == CopyOf(cur) + Copies(ts)
  {
    assert t.id in OfSerial(sys.held, serial) && OfSerial(sys.held, serial)[t.id] == t;
    OfSerialRemove(sys.held, serial, t.id);
    assert ((CopyOf(cur) + Copies(ts)) + CopyOf(Some(t))) - {t.id} == CopyOf(cur) + Copies(ts);
  }

  /** It could not be built, and nobody keeps it. */
  lemma EndStarted(sys: Q.System, cur: Option<Task>, t: Task, ts: seq<Task>, ok: bool, serial: string)
    returns (ev: Option<Q.Event>, next: Q.System)
    requires Between(sys, cur, t, ts, serial)
    ensures Moves(sys, ev, next, StatusWrites(FailedTask(t), ok)) && Mirrors(next, cur, ts, serial)
  {
    if Tracked(t) {
      RemoveStarted(sys, cur, t, ts, serial);
      OneStatus(FailedTask(t), ok);
      ev := Some(Q.Complete(t.id, false, ok));
      next := Q.Step(sys, ev.value);
    } else {
      assert (CopyOf(cur) + Copies(ts)) + CopyOf(Some(t)) == CopyOf(cur) + Copies(ts);
      ev, next := MadeUpMove(sys, FailedTask(t), ok);
    }
  }

  lemma RemoveFirst(t: Task, b: map<string, Task>, c: map<string, Task>)
    requires t.id !in b && t.id !in c
    ensures ((map[t.id := t] + b) + c) - {t.id} == b + c
  {
  }

  lemma Swapped(b: map<string, Task>, t: Task)
    requires t.id !in b
    ensures b + map[t.id := t] == map[t.id := t] + b
  {
  }

  lemma ReleaseCurrent(sys: Q.System, cur: Task, new': Option<Task>, ts: seq<Task>, serial: string)
    returns (next: Q.System)
    requires Tracked(cur) && Queued(ts, serial) && InFlight(Some(cur), ts, serial) && InFlight(new', ts, serial)
    requires OfSerial(sys.held, serial) == (CopyOf(Some(cur)) + Copies(ts)) + CopyOf(new') && cur.id !in CopyOf(new')
    ensures Moves(sys, Some(Q.Release(cur.id)), next, []) && Mirrors(next, new', ts, serial)
  {
    assert cur.id in OfSerial(sys.held, serial) && OfSerial(sys.held, serial)[cur.id] == cur;
    OfSerialRemove(sys.held, serial, cur.id);
    RemoveFirst(cur, Copies(ts), CopyOf(new'));
    if new'.Some? && Tracked(new'.value) { Swapped(Copies(ts), new'.value); }
    next := Q.Step(sys, Q.Release(cur.id));
  }

  /** The task that was in flight is let go of; new', if any, takes its place. */
  lemma Displace(sys: Q.System, cur: Option<Task>, new': Option<Task>, ts: seq<Task>, serial: string)
    returns (ev: Option<Q.Event>, next: Q.System)
    requires Queued(ts, serial) && InFlight(cur, ts, serial) && InFlight(new', ts, serial)
    requires OfSerial(sys.held, serial) == (CopyOf(cur) + Copies(ts)) + CopyOf(new')
    requires cur.Some? && Tracked(cur.value) ==> cur.value.id !in CopyOf(new')
    ensures Moves(sys, ev, next, []) && Mirrors(next, new', ts, serial)
  {
    if cur.Some? && Tracked(cur.value) {
      next := ReleaseCurrent(sys, cur.value, new', ts, serial);
      ev := Some(Q.Release(cur.value.id));
    } else {
      assert (CopyOf(cur) + Copies(ts)) + CopyOf(new') == CopyOf(new') + Copies(ts);
      ev, next := None, sys;
    }
  }

  lemma TakePlace(sys: Q.System, cur: Option<Task>, t: Task, ts: seq<Task>, serial: string)
    returns (ev: Option<Q.Event>, next: Q.System)
    requires Between(sys, cur, t, ts, serial)
    ensures Moves(sys, ev, next, []) && Mirrors(next, Some(t), ts, serial)
  {
    ev, next := Displace(sys, cur, Some(t), ts, serial);
  }

  // the task in flight

  lemma ReplaceCurrent(sys: Q.System, t: Task, t': Task, ts: seq<Task>, serial: string)
    requires Mirrors(sys, Some(t), ts, serial) && Tracked(t) && t'.id == t.id && t'.serial == t.serial
    ensures OfSerial(sys.held[t.id := t'], serial) == CopyOf(Some(t')) + Copies(ts)
  {
    HeldCopy(sys, Some(t), ts, serial, t);
    OfSerialUpdate(sys.held, serial, t');
    assert (CopyOf(Some(t)) + Copies(ts))[t.id := t'] == CopyOf(Some(t')) + Copies(ts);
  }

  /** It is dispatched again: with or without the store's consent the copy counts the attempt. */
  lemma RestartCurrent(sys: Q.System, t: Task, ts: seq<Task>, ok: bool, serial: string)
    returns (ev: Option<Q.Event>, next: Q.System)
    requires Mirrors(sys, Some(t), ts, serial)
    ensures Moves(sys, ev, next, StatusWrites(Marked(t), ok)) && Mirrors(next, Some(Marked(t)), ts, serial)
  {
    if Tracked(t) {
      HeldCopy(sys, Some(t), ts, serial, t);
      ReplaceCurrent(sys, t, Marked(t), ts, serial);
      OneStatus(Marked(t), ok);
      ev := Some(Q.Dispatch(t.id, ok));
      next := Q.Step(sys, ev.value);
    } else {
      ev, next := MadeUpMove(sys, Marked(t), ok);
    }
  }

  /** Its request cannot be built: the session keeps it, failed. */
  lemma FailCurrent(sys: Q.System, t: Task, ts: seq<Task>, ok: bool, serial: string)
    returns (ev: Option<Q.Event>, next: Q.System)
    requires Mirrors(sys, Some(t), ts, serial) && (t.kind != DiagResult ==> t.status == Executing)
    ensures Moves(sys, ev, next, StatusWrites(FailedTask(t), ok)) && Mirrors(next, Some(FailedTask(t)), ts, serial)
  {
    if Tracked(t) {
      HeldCopy(sys, Some(t), ts, serial, t);
      ReplaceCurrent(sys, t, FailedTask(t), ts, serial);
      OneStatus(FailedTask(t), ok);
      ev := Some(Q.Fail(t.id, ok));
      next := Q.Step(sys, ev.value);
    } else {
      ev, next := MadeUpMove(sys, FailedTask(t), ok);
    }
  }

  /** It ends, and the session lets go of it. */
  lemma EndCurrent(sys: Q.System, t: Task, ts: seq<Task>, verdict: bool, ok: bool, serial: string)
    returns (ev: Option<Q.Event>, next: Q.System)
    requires Mirrors(sys, Some(t), ts, serial)
    ensures Moves(sys, ev, next, [StatusOf(Ended(t, verdict), ok)]) && Mirrors(next, None, ts, serial)
  {
    if Tracked(t) {
      HeldCopy(sys, Some(t), ts, serial, t);
      OneStatus(Ended(t, verdict), ok);
      OfSerialRemove(sys.held, serial, t.id);
      assert (CopyOf(Some(t)) + Copies(ts)) - {t.id} == CopyOf(None) + Copies(ts);
      ev := Some(Q.Complete(t.id, verdict, ok));
      next := Q.Step(sys, ev.value);
    } else {
      ev, next := UnlistedMove(sys, Ended(t, verdict), ok);
      assert CopyOf(Some(t)) == CopyOf(None);
    }
  }

  // ---- one attempt to send a task ----

  predicate Refused(t: Task, n: nat, w: World) {
    t.kind != DiagResult && !w.markOk(t, n)
  }

  /** The task is failed but the session takes it over. */
  predicate KeptEmpty(t: Task, n: nat, w: World) {
    w.build(t, n).Provisions? && w.build(t, n).start.Done()
  }

  lemma AttemptCases(s: Sess, t: Task, own: bool, w: World)
    ensures var a, n, m, f := Attempt(s, t, own, w), |s.pending|, Marked(t), FailedTask(Marked(t));
      && a.sess.pending == s.pending
      && (Refused(t, n, w) ==> a.request.None? && a.writes == StatusWrites(m, false)
                               && a.sess.current == (if own then Some(m) else s.current))
      && (!Refused(t, n, w) && Runs(t, n, w) ==>
            a.request.Some? && a.writes == StatusWrites(m, true) && a.sess.current == Some(m))
      && (!Refused(t, n, w) && !Runs(t, n, w) ==>
            && a.request.None? && a.writes == StatusWrites(m, true) + StatusWrites(f, w.endOk(f, n))
            && a.sess.current == (if own || KeptEmpty(t, n, w) then Some(f) else s.current))
  {
  }

  lemma AttemptHead(sys: Q.System, s: Sess, t: Task, w: World, serial: string) returns (evs: seq<Q.Event>)
    requires Mirrors(sys, s.current, [t] + s.pending, serial)
    ensures var a := Attempt(s, t, false, w); Explains(sys, evs, a.sess.current, a.sess.pending, serial, a.writes)
  {
    AttemptCases(s, t, false, w);
    if Refused(t, |s.pending|, w) {
      var e, next := DropHead(sys, s.current, t, s.pending, serial);
      evs := Last(sys, e, next, s.current, s.pending, serial, StatusWrites(Marked(t), false));
    } else if Runs(t, |s.pending|, w) {
      evs := SendHead(sys, s.current, t, s.pending, serial);
    } else {
      evs := FailHead(sys, s.current, t, s.pending, KeptEmpty(t, |s.pending|, w), w.endOk(FailedTask(Marked(t)),
        |s.pending|), serial);
    }
  }

  lemma SendHead(sys: Q.System, cur: Option<Task>, t: Task, ts: seq<Task>, serial: string) returns (evs: seq<Q.Event>)
    requires Mirrors(sys, cur, [t] + ts, serial)
    ensures Explains(sys, evs, Some(Marked(t)), ts, serial, StatusWrites(Marked(t), true))
  {
    var e, mid := StartHead(sys, cur, t, ts, serial);
    var f, next := TakePlace(mid, cur, Marked(t), ts, serial);
    evs := Both(sys, e, mid, f, next, Some(Marked(t)), ts, serial, StatusWrites(Marked(t), true), []);
    assert StatusWrites(Marked(t), true) + [] == StatusWrites(Marked(t), true);
  }

  lemma FailHead(sys: Q.System, cur: Option<Task>, t: Task, ts: seq<Task>, keep: bool, ok: bool, serial: string)
    returns (evs: seq<Q.Event>)
    requires Mirrors(sys, cur, [t] + ts, serial)
    ensures var f := FailedTask(Marked(t));
      Explains(sys, evs, if keep then Some(f) else cur, ts, serial, StatusWrites(Marked(t), true) + StatusWrites(f, ok))
  {
    var m, failed := Marked(t), StatusWrites(FailedTask(Marked(t)), ok);
    var e, mid := StartHead(sys, cur, t, ts, serial);
    if keep {
      var f, taken := TakePlace(mid, cur, m, ts, serial);
      var g, next := FailCurrent(taken, m, ts, ok, serial);
      var rest := Both(mid, f, taken, g, next, Some(FailedTask(m)), ts, serial, [], failed);
      assert [] + failed == failed;
      Prepend(sys, e, mid, rest, Some(FailedTask(m)), ts, serial, StatusWrites(m, true), failed);
      evs := Events(e) + rest;
    } else {
      var f, next := EndStarted(mid, cur, m, ts, ok, serial);
      evs := Both(sys, e, mid, f, next, cur, ts, serial, StatusWrites(m, true), failed);
    }
  }

  lemma AttemptAgain(sys: Q.System, s: Sess, t: Task, w: World, serial: string) returns (evs: seq<Q.Event>)
    requires Mirrors(sys, s.current, s.pending, serial) && s.current == Some(t)
    ensures var a := Attempt(s, t, true, w); Explains(sys, evs, a.sess.current, a.sess.pending, serial, a.writes)
  {
    var m, n := Marked(t), |s.pending|;
    AttemptCases(s, t, true, w);
    var e, mid := RestartCurrent(sys, t, s.pending, !Refused(t, n, w), serial);
    if Refused(t, n, w) || Runs(t, n, w) {
      evs := Last(sys, e, mid, Some(m), s.pending, serial, StatusWrites(m, !Refused(t, n, w)));
    } else {
      var ok := w.endOk(FailedTask(m), n);
      var f, next := FailCurrent(mid, m, s.pending, ok, serial);
      evs := Both(sys, e, mid, f, next, Some(FailedTask(m)), s.pending, serial, StatusWrites(m, true),
        StatusWrites(FailedTask(m), ok));
    }
  }

  // ---- dispatching ----

  /** The tasks the outside adds are made up. */
  predicate MakesUp(w: World) {
    && (w.defaults.Some? ==> Synthetic(w.defaults.value.id))
    && (w.globals.Pushing? ==> Synthetic(w.globals.task.id))
  }

  lemma {:induction false} DispatchEvents(sys: Q.System, s: Sess, w: World, serial: string) returns (evs: seq<Q.Event>)
    requires Mirrors(sys, s.current, s.pending, serial)
    ensures var o := DispatchNext(s, w); Explains(sys, evs, o.sess.current, o.sess.pending, serial, o.writes)
    decreases |s.pending|, 0
  {
    if s.pending == [] {
      evs := [];
    } else {
      var rest, t := s.(pending := s.pending[1..]), s.pending[0];
      assert [t] + rest.pending == s.pending;
      var first := AttemptHead(sys, rest, t, w, serial);
      evs := ContinueEvents(sys, first, Attempt(rest, t, false, w), w, serial);
    }
  }

  /** An attempt that sends nothing is followed by the next task. */
  lemma {:induction false} ContinueEvents(sys: Q.System, first: seq<Q.Event>, a: Attempted, w: World, serial: string)
    returns (evs: seq<Q.Event>)
    requires Explains(sys, first, a.sess.current, a.sess.pending, serial, a.writes)
    ensures var o := if a.request.Some? then Outcome(a.sess, a.request.value, a.writes)
      else Logged(a.writes, DispatchNext(a.sess, w));
      Explains(sys, evs, o.sess.current, o.sess.pending, serial, o.writes)
    decreases |a.sess.pending|, 1
  {
    if a.request.Some? {
      evs := first;
    } else {
      var mid, o := Q.Run(sys, first), DispatchNext(a.sess, w);
      var more := DispatchEvents(mid, a.sess, w, serial);
      Then(sys, first, mid, a.sess.current, a.sess.pending, more, o.sess.current, o.sess.pending, serial, a.writes,
        o.writes);
      evs := first + more;
    }
  }

  /** An empty POST dispatches the task in flight again. */
  lemma AgainEvents(sys: Q.System, s: Sess, w: World, serial: string) returns (evs: seq<Q.Event>)
    requires Mirrors(sys, s.current, s.pending, serial) && s.current.Some?
    ensures var o := DispatchTask(s, s.current.value, true, w);
      Explains(sys, evs, o.sess.current, o.sess.pending, serial, o.writes)
  {
    var first := AttemptAgain(sys, s, s.current.value, w, serial);
    evs := ContinueEvents(sys, first, Attempt(s, s.current.value, true, w), w, serial);
  }

  /** After at most one event, dispatching goes on. */
  lemma GoOn(sys: Q.System, ev: Option<Q.Event>, next: Q.System, s: Sess, written: seq<Write>, w: World, serial: string)
    returns (evs: seq<Q.Event>)
    requires Moves(sys, ev, next, written) && Mirrors(next, s.current, s.pending, serial)
    ensures var o := Logged(written, DispatchNext(s, w));
      Explains(sys, evs, o.sess.current, o.sess.pending, serial, o.writes)
  {
    evs := DispatchEvents(next, s, w, serial);
    var o := DispatchNext(s, w);
    Prepend(sys, ev, next, evs, o.sess.current, o.sess.pending, serial, written, o.writes);
    evs := Events(ev) + evs;
  }

  // ---- the end of the task in flight ----

  lemma FinishCurrent(sys: Q.System, s: Sess, saved: seq<Write>, ok: bool, w: World, serial: string)
    returns (ev: Option<Q.Event>, next: Q.System)
    requires Mirrors(sys, s.current, s.pending, serial) && StatusTasks(saved) == []
    ensures Moves(sys, ev, next, saved + Finishing(s.current, ok, |s.pending|, w))
      && Mirrors(next, None, s.pending, serial)
  {
    StatusConcat(saved, Finishing(s.current, ok, |s.pending|, w));
    if s.current.Some? {
      var t := s.current.value;
      ev, next := EndCurrent(sys, t, s.pending, ok, w.endOk(Ended(t, ok), |s.pending|), serial);
    } else {
      ev, next := None, sys;
    }
  }

  lemma FinishEvents(sys: Q.System, s: Sess, saved: seq<Write>, ok: bool, w: World, serial: string)
    returns (evs: seq<Q.Event>)
    requires Mirrors(sys, s.current, s.pending, serial) && StatusTasks(saved) == []
    ensures var o := FinishTask(s, saved, ok, w); Explains(sys, evs, o.sess.current, o.sess.pending, serial, o.writes)
  {
    var ev, next := FinishCurrent(sys, s, saved, ok, w, serial);
    evs := GoOn(sys, ev, next, s.(current := None), saved + Finishing(s.current, ok, |s.pending|, w), w, serial);
  }

  lemma Forget(sys: Q.System, cur: Option<Task>, ts: seq<Task>, serial: string)
    returns (ev: Option<Q.Event>, next: Q.System)
    requires Mirrors(sys, cur, ts, serial)
    ensures Moves(sys, ev, next, []) && Mirrors(next, None, ts, serial)
    ensures cur.Some? && Tracked(cur.value) ==> ev == Some(Q.Release(cur.value.id))
  {
    assert (CopyOf(cur) + Copies(ts)) + CopyOf(None) == CopyOf(cur) + Copies(ts);
    if cur.Some? && Tracked(cur.value) {
      next := ReleaseCurrent(sys, cur.value, None, ts, serial);
      ev := Some(Q.Release(cur.value.id));
    } else {
      ev, next := Displace(sys, cur, None, ts, serial);
    }
  }

  /** The session lets go of the task in flight, whose record stays as it is. */
  lemma ForgetEvents(sys: Q.System, s: Sess, w: World, serial: string) returns (evs: seq<Q.Event>)
    requires Mirrors(sys, s.current, s.pending, serial)
    ensures var o := DispatchNext(s.(current := None), w);
      Explains(sys, evs, o.sess.current, o.sess.pending, serial, o.writes)
  {
    var ev, next := Forget(sys, s.current, s.pending, serial);
    evs := GoOn(sys, ev, next, s.(current := None), [], w, serial);
    assert [] + DispatchNext(s.(current := None), w).writes == DispatchNext(s.(current := None), w).writes;
  }

  /** The stored record that a request rewrites from outside: a report or a collected result. */
  predicate Recorded(st: Q.Store, found: Option<Task>) {
    found.Some? ==> found.value.id in st.data && st.data[found.value.id] == found.value
  }

  lemma ReportMove(sys: Q.System, cur: Option<Task>, ts: seq<Task>, found: Option<Task>, ok: bool, n: nat, w: World,
                   serial: string)
    returns (ev: Option<Q.Event>, next: Q.System)
    requires Mirrors(sys, cur, ts, serial) && Recorded(sys.store, found)
    ensures Moves(sys, ev, next, Finishing(found, ok, n, w)) && Mirrors(next, cur, ts, serial)
  {
    ev, next := None, sys;
    if found.Some? {
      var t := Ended(found.value, ok);
      OneStatus(t, w.endOk(t, n));
      ev := Some(Q.Report(found.value.id, ok, w.endOk(t, n)));
      next := Q.Step(sys, ev.value);
      SameCopies(sys, next, cur, ts, serial);
    }
  }

  // ---- every request ----

  /** A collection task has fetched the result of a diagnostic. */
  lemma CollectEvents(sys: Q.System, s: Sess, collected: Option<Task>, w: World, serial: string)
    returns (evs: seq<Q.Event>)
    requires Mirrors(sys, s.current, s.pending, serial) && Recorded(sys.store, collected)
    requires s.current.Some? && s.current.value.kind == DiagResult
    ensures var o := OnRead(s, collected, w); Explains(sys, evs, o.sess.current, o.sess.pending, serial, o.writes)
  {
    var ev, next := ReportMove(sys, s.current, s.pending, collected, true, |s.pending|, w, serial);
    assert CopyOf(s.current) == CopyOf(None);
    evs := GoOn(sys, ev, next, s.(current := None), Finishing(collected, true, |s.pending|, w), w, serial);
  }

  lemma ReadEvents(sys: Q.System, s: Sess, collected: Option<Task>, w: World, serial: string)
    returns (evs: seq<Q.Event>)
    requires Mirrors(sys, s.current, s.pending, serial) && Recorded(sys.store, collected)
    ensures var o := OnRead(s, collected, w); Explains(sys, evs, o.sess.current, o.sess.pending, serial, o.writes)
  {
    if s.current.Some? && s.current.value.kind == DiagResult {
      evs := CollectEvents(sys, s, collected, w, serial);
    } else {
      evs := FinishEvents(sys, s, [], true, w, serial);
      var end := Finishing(s.current, true, |s.pending|, w);
      assert [] + end == end;
    }
  }

  lemma InjectedMirrors(sys: Q.System, cur: Option<Task>, made: seq<Task>, ts: seq<Task>, serial: string)
    requires Mirrors(sys, cur, ts, serial) && forall i | 0 <= i < |made| :: Synthetic(made[i].id)
    ensures Mirrors(sys, cur, made + ts, serial)
  {
    MadeUpInFront(made, ts, serial);
  }

  lemma {:induction false} MadeUpInFront(made: seq<Task>, ts: seq<Task>, serial: string)
    requires Queued(ts, serial) && forall i | 0 <= i < |made| :: Synthetic(made[i].id)
    ensures Queued(made + ts, serial) && Copies(made + ts) == Copies(ts)
  {
    if made == [] {
      assert made + ts == ts;
    } else {
      assert (made + ts)[0] == made[0] && (made + ts)[1..] == made[1..] + ts;
      MadeUpInFront(made[1..], ts, serial);
    }
  }

  lemma SummonEvents(sys: Q.System, s: Sess, params: map<string, string>, w: World, serial: string)
    returns (evs: seq<Q.Event>)
    requires Mirrors(sys, s.current, s.pending, serial) && MakesUp(w)
    ensures var o := EndSummon(s, params, w); Explains(sys, evs, o.sess.current, o.sess.pending, serial, o.writes)
  {
    var m, v := Learned(s), Facing(w, Known(s));
    evs := DefaultEvents(sys, m, v, serial);
    SavesAreNoStatus(params);
    StatusConcat([SaveParams(params)], GoOnWithDefaults(m, v).writes);
  }

  lemma DefaultEvents(sys: Q.System, s: Sess, w: World, serial: string) returns (evs: seq<Q.Event>)
    requires Mirrors(sys, s.current, s.pending, serial) && MakesUp(w)
    ensures var o := GoOnWithDefaults(s, w); Explains(sys, evs, o.sess.current, o.sess.pending, serial, o.writes)
  {
    var d := Inject(s, Extra(s, w), w);
    InjectedMirrors(sys, s.current, Extra(s, w), s.pending, serial);
    evs := DispatchEvents(sys, d, w, serial);
    MarksAreNoStatus(s, w);
    StatusConcat(MarkWrites(s, w), DispatchNext(d, w).writes);
  }

  /** A summon batch is sent, or the summon ends and dispatching goes on. */
  lemma BatchEvents(sys: Q.System, s: Sess, w: World, serial: string) returns (evs: seq<Q.Event>)
    requires Mirrors(sys, s.current, s.pending, serial) && MakesUp(w)
    ensures var o := SendBatch(s, w); Explains(sys, evs, o.sess.current, o.sess.pending, serial, o.writes)
  {
    if s.batch * BatchSize(s.schema) >= |s.names| {
      evs := SummonEvents(sys, s.(summon := 0, names := [], params := map[]), s.params, w, serial);
    } else {
      evs := [];
    }
  }

  lemma EmptyEvents(sys: Q.System, s: Sess, w: World, serial: string) returns (evs: seq<Q.Event>)
    requires Mirrors(sys, s.current, s.pending, serial)
    ensures var o := OnEmpty(s, w); Explains(sys, evs, o.sess.current, o.sess.pending, serial, o.writes)
  {
    evs := [];
    if s.summon != 1 && s.summon != 3 {
      if s.wan.Some? {
        if s.wan.value.Done() { evs := FinishEvents(sys, s.(wan := None), [], false, w, serial); }
      } else if s.current.Some? {
        evs := AgainEvents(sys, s, w, serial);
      } else {
        evs := DispatchEvents(sys, s, w, serial);
      }
    }
  }

  lemma WanSetEvents(sys: Q.System, s: Sess, e: Exec, w: World, serial: string) returns (evs: seq<Q.Event>)
    requires Mirrors(sys, s.current, s.pending, serial)
    ensures var o := OnWanSetParams(s, e, w); Explains(sys, evs, o.sess.current, o.sess.pending, serial, o.writes)
  {
    evs := [];
    if e.Advance().Done() {
      SavesAreNoStatus(s.creds);
      evs := FinishEvents(sys, s.(wan := None, creds := map[]), Saves(s.creds), true, w, serial);
    }
  }

  lemma SyncEvents(sys: Q.System, s: Sess, w: World, serial: string) returns (evs: seq<Q.Event>)
    requires Mirrors(sys, s.current, s.pending, serial)
    ensures var o := SyncAndFinish(s, w); Explains(sys, evs, o.sess.current, o.sess.pending, serial, o.writes)
  {
    SyncIsNoStatus(s.setParams, s.provisionMark, s.creds);
    evs := FinishEvents(sys, s.(setParams := map[], creds := map[], provisionMark := false),
                        SyncWrites(s.setParams, s.provisionMark, s.creds), true, w, serial);
  }

  lemma PlainSetEvents(sys: Q.System, s: Sess, w: World, serial: string) returns (evs: seq<Q.Event>)
    requires Mirrors(sys, s.current, s.pending, serial)
    ensures var o := OnPlainSetParams(s, w); Explains(sys, evs, o.sess.current, o.sess.pending, serial, o.writes)
  {
    if s.current.Some? && s.current.value.kind == AsyncDiagnostic {
      evs := ForgetEvents(sys, s, w, serial);
    } else {
      evs := SyncEvents(sys, s, w, serial);
    }
  }

  lemma AddedObjectEvents(sys: Q.System, s: Sess, e: Exec, instance: int, w: World, serial: string)
    returns (evs: seq<Q.Event>)
    requires Mirrors(sys, s.current, s.pending, serial) && s.wan == Some(e)
    ensures var o := OnAddObject(s, instance, w); Explains(sys, evs, o.sess.current, o.sess.pending, serial, o.writes)
  {
    if AddObjectGoesOn(e, instance) {
      AddObjectCases(s, e, instance, w);
      Nothing(sys, s.current, s.pending, serial, []);
      evs := [];
    } else {
      evs := AddEndEvents(sys, s, e, instance, w, serial);
    }
  }

  lemma AddEndEvents(sys: Q.System, s: Sess, e: Exec, instance: int, w: World, serial: string)
    returns (evs: seq<Q.Event>)
    requires Mirrors(sys, s.current, s.pending, serial) && s.wan == Some(e) && !AddObjectGoesOn(e, instance)
    ensures var o := OnAddObject(s, instance, w);
      Explains(sys, evs, o.sess.current, o.sess.pending, serial, o.writes)
  {
    var ok := !e.Done() && e.Current().kind == AddObject;
    AddObjectCases(s, e, instance, w);
    evs := FinishEvents(sys, s.(followUp := false, wan := None), [], ok, w, serial);
  }

  lemma AddObjectEvents(sys: Q.System, s: Sess, instance: int, w: World, serial: string) returns (evs: seq<Q.Event>)
    requires Mirrors(sys, s.current, s.pending, serial)
    ensures var o := OnAddObject(s, instance, w); Explains(sys, evs, o.sess.current, o.sess.pending, serial, o.writes)
  {
    if s.wan.Some? {
      evs := AddedObjectEvents(sys, s, s.wan.value, instance, w, serial);
    } else if s.followUp {
      evs := [];
    } else {
      evs := FinishEvents(sys, s.(followUp := false), [], true, w, serial);
    }
  }

  lemma DeleteObjectEvents(sys: Q.System, s: Sess, w: World, serial: string) returns (evs: seq<Q.Event>)
    requires Mirrors(sys, s.current, s.pending, serial)
    ensures var o := OnDeleteObject(s, w); Explains(sys, evs, o.sess.current, o.sess.pending, serial, o.writes)
  {
    if s.wan.None? {
      evs := FinishEvents(sys, s, [], true, w, serial);
    } else {
      evs := DeletedEvents(sys, s, s.wan.value, w, serial);
    }
  }

  lemma DeletedEvents(sys: Q.System, s: Sess, e: Exec, w: World, serial: string) returns (evs: seq<Q.Event>)
    requires Mirrors(sys, s.current, s.pending, serial) && s.wan == Some(e)
    ensures var o := OnDeleteObject(s, w); Explains(sys, evs, o.sess.current, o.sess.pending, serial, o.writes)
  {
    evs := [];
    if e.Advance().Done() {
      evs := FinishEvents(sys, s.(wan := None), [], true, w, serial);
    }
  }

  lemma DownloadEvents(sys: Q.System, s: Sess, async: bool, w: World, serial: string) returns (evs: seq<Q.Event>)
    requires Mirrors(sys, s.current, s.pending, serial)
    ensures var o := OnDownload(s, async, w); Explains(sys, evs, o.sess.current, o.sess.pending, serial, o.writes)
  {
    if !async {
      evs := FinishEvents(sys, s, [], true, w, serial);
    } else if s.pending == [] {
      evs := [];
    } else {
      evs := DispatchEvents(sys, s, w, serial);
    }
  }

  lemma NamesEvents(sys: Q.System, s: Sess, all: seq<string>, w: World, serial: string) returns (evs: seq<Q.Event>)
    requires Mirrors(sys, s.current, s.pending, serial) && MakesUp(w)
    ensures var o := OnNames(s, all, w); Explains(sys, evs, o.sess.current, o.sess.pending, serial, o.writes)
  {
    if LeafNames(all) == [] {
      evs := DispatchEvents(sys, s.(summon := 0), w, serial);
    } else {
      evs := BatchEvents(sys, s.(summon := 2, names := LeafNames(all), batch := 0, params := map[]), w, serial);
    }
  }

  lemma TargetedEvents(sys: Q.System, s: Sess, params: map<string, string>, w: World, serial: string)
    returns (evs: seq<Q.Event>)
    requires Mirrors(sys, s.current, s.pending, serial) && MakesUp(w)
    ensures var o := OnTargeted(s, params, w); Explains(sys, evs, o.sess.current, o.sess.pending, serial, o.writes)
  {
    var idle := s.(summon := 0, targets := [], refresh := false);
    if s.refresh {
      evs := SummonEvents(sys, idle, params, w, serial);
    } else {
      evs := DispatchEvents(sys, Learned(idle), Facing(w, Known(s)), serial);
    }
  }

  lemma ValuesEvents(sys: Q.System, s: Sess, params: map<string, string>, collected: Option<Task>, w: World,
                     serial: string)
    returns (evs: seq<Q.Event>)
    requires Mirrors(sys, s.current, s.pending, serial) && MakesUp(w) && Recorded(sys.store, collected)
    ensures var o := OnValues(s, params, collected, w);
      Explains(sys, evs, o.sess.current, o.sess.pending, serial, o.writes)
  {
    if s.summon == 2 {
      evs := BatchEvents(sys, s.(params := s.params + params, batch := s.batch + 1), w, serial);
    } else if s.summon == 4 {
      evs := TargetedEvents(sys, s, params, w, serial);
    } else {
      evs := ReadEvents(sys, s, collected, w, serial);
    }
  }

  lemma ReportEvents(sys: Q.System, s: Sess, found: Option<Task>, fault: bool, w: World, serial: string)
    returns (evs: seq<Q.Event>)
    requires Mirrors(sys, s.current, s.pending, serial) && Recorded(sys.store, found)
    ensures var o := ServeIn(s, TransferComplete(found, fault), w);
      Explains(sys, evs, o.sess.current, o.sess.pending, serial, o.writes)
  {
    var written := Finishing(found, !fault, |s.pending|, w);
    var ev, next := ReportMove(sys, s.current, s.pending, found, !fault, |s.pending|, w, serial);
    evs := Last(sys, ev, next, s.current, s.pending, serial, written);
  }

  /** Made-up tasks have their ids, and rewritten records are the stored ones. */
  predicate Admissible(st: Q.Store, r: Request, w: World) {
    && MakesUp(w)
    && (r.TransferComplete? ==> Recorded(st, r.found))
    && (r.ValuesResponse? ==> Recorded(st, r.collected))
  }

  lemma RequestEvents(sys: Q.System, s: Sess, r: Request, w: World, serial: string) returns (evs: seq<Q.Event>)
    requires Mirrors(sys, s.current, s.pending, serial) && Admissible(sys.store, r, w)
    ensures var o := ServeIn(s, r, w); Explains(sys, evs, o.sess.current, o.sess.pending, serial, o.writes)
  {
    evs := [];
    match r {
      case Empty => evs := EmptyEvents(sys, s, w, serial);
      case TransferComplete(found, fault) => evs := ReportEvents(sys, s, found, fault, w, serial);
      case SetParamsResponse =>
        if s.wan.Some? {
          evs := WanSetEvents(sys, s, s.wan.value, w, serial);
        } else {
          evs := PlainSetEvents(sys, s, w, serial);
        }
      case NamesResponse(all) => evs := NamesEvents(sys, s, all, w, serial);
      case ValuesResponse(params, collected) => evs := ValuesEvents(sys, s, params, collected, w, serial);
      case RebootResponse => evs := FinishEvents(sys, s, [], true, w, serial);
      case FactoryResetResponse => evs := FinishEvents(sys, s, [], true, w, serial);
      case DownloadResponse(async) => evs := DownloadEvents(sys, s, async, w, serial);
      case AddObjectResponse(n) => evs := AddObjectEvents(sys, s, n, w, serial);
      case DeleteObjectResponse => evs := DeleteObjectEvents(sys, s, w, serial);
      case Fault => evs := FinishEvents(sys, s.(wan := None, followUp := false), [], false, w, serial);
      case _ =>
    }
  }

  /** Whatever the request, and whatever fails meanwhile, what it does to the tasks is a sequence of queue events: the
      copies held afterwards are exactly the session's task in flight and its pending tasks, the status writes with
      their outcomes are those of the events, and the store is what the successful ones make of it. */
  lemma ServeIsEvents(sys: Q.System, s: Sess, r: Request, w: World, serial: string) returns (evs: seq<Q.Event>)
    requires Mirrors(sys, s.current, s.pending, serial) && Admissible(sys.store, r, w)
    ensures var o := Serve(s, r, w);
      && Q.EnabledRun(sys, evs) && Mirrors(Q.Run(sys, evs), o.sess.current, o.sess.pending, serial)
      && Q.Trace(sys, evs) == StatusTasks(o.writes)
      && Q.Run(sys, evs).store == Q.Applied(sys.store, StatusTasks(o.writes))
  {
    evs := RequestEvents(sys, s, r, Facing(w, s.gear), serial);
    Q.StoreIsApplied(sys, evs);
  }

  // ---- what the requests of one task can look like ----

  /** The reply that an asynchronous diagnostic has started releases the copy: the record keeps its status, whatever is
      dispatched next. */
  lemma DiagnosticIsReleased(sys: Q.System, s: Sess, t: Task, w: World, serial: string) returns (evs: seq<Q.Event>)
    requires Mirrors(sys, s.current, s.pending, serial) && Q.CopiesFit(sys) && t.id !in sys.retired
    requires s.wan.None? && s.current == Some(t) && t.kind == AsyncDiagnostic && Tracked(t)
    ensures var o := ServeIn(s, SetParamsResponse, w);
      && Explains(sys, [Q.Release(t.id)] + evs, o.sess.current, o.sess.pending, serial, o.writes)
      && t.id !in Q.Step(sys, Q.Release(t.id)).held
      && t.id in sys.store.data && sys.store.data[t.id].status == Executing
      && Q.Step(sys, Q.Release(t.id)).store == sys.store
  {
    ExecutingRecord(sys, s.current, s.pending, serial, t);
    var ev, next := Forget(sys, s.current, s.pending, serial);
    evs := DispatchEvents(next, s.(current := None), w, serial);
    var o := DispatchNext(s.(current := None), w);
    PlainSetIs(s, w);
    Prepend(sys, ev, next, evs, o.sess.current, o.sess.pending, serial, [], o.writes);
    assert [] + o.writes == o.writes;
  }

  lemma ExecutingRecord(sys: Q.System, cur: Option<Task>, ts: seq<Task>, serial: string, t: Task)
    requires Mirrors(sys, cur, ts, serial) && Q.CopiesFit(sys) && cur == Some(t) && Tracked(t) && t.id !in sys.retired
    ensures t.id in sys.store.data && sys.store.data[t.id].status == Executing && Q.Enabled(sys, Q.Release(t.id))
    ensures Q.Step(sys, Q.Release(t.id)).store == sys.store && t.id !in Q.Step(sys, Q.Release(t.id)).held
  {
    HeldCopy(sys, cur, ts, serial, t);
    assert Q.CopyFits(sys, t.id);
  }

  /** The firmware path on the session: the download reply keeps the task, TransferComplete stores it as completed, and
      the next empty POST sends it again and stores it as executing. */
  lemma DownloadIsSentAgain(s: Sess, t: Task, w: World)
    requires s.current == Some(t) && s.pending == [] && s.wan.None? && s.summon == 0 && t.kind == Ordinary
      && t.status == Executing
    requires w.markOk(t, 0) && w.build(t, 0).Sends?
    ensures var o1 := ServeIn(s, DownloadResponse(true), w);
      var o2 := ServeIn(o1.sess, TransferComplete(Some(t), false), w);
      var o3 := ServeIn(o2.sess, Empty, w);
      && o1.writes == [] && o2.writes == [StatusOf(t.(status := Completed), w.endOk(t.(status := Completed), 0))]
      && o3.writes == [StatusOf(t.(status := Executing, attempts := t.attempts + 1), true)]
           && o3.reply == TaskRequest(Marked(t))
  {
  }

  /** A task in flight whose re-dispatch the store refuses: the copy is ahead of its record, and with nothing behind
      it the session keeps it so. */
  lemma UnrecordedAttemptIsKept(sys: Q.System, s: Sess, t: Task, w: World, serial: string)
    requires Mirrors(sys, s.current, s.pending, serial) && Q.CopiesFit(sys) && s.current == Some(t) && Tracked(t)
    requires s.wan.None? && s.summon == 0 && Refused(t, |s.pending|, w)
    ensures Q.Enabled(sys, Q.Dispatch(t.id, false)) && Q.Ahead(Q.Step(sys, Q.Dispatch(t.id, false)), t.id)
    ensures s.pending == [] ==>
      ServeIn(s, Empty, w) == Outcome(s.(lifecycle := Closed, current := Some(Marked(t))), NoContent,
        [StatusOf(Marked(t), false)])
  {
    HeldCopy(sys, s.current, s.pending, serial, t);
    assert Q.CopyFits(sys, t.id);
    if s.pending == [] {
      RefusedAgain(s, t, w);
      NothingBehind(s, t, Attempt(s, t, true, w), w);
    }
  }

  lemma RefusedAgain(s: Sess, t: Task, w: World)
    requires Refused(t, |s.pending|, w)
    ensures Attempt(s, t, true, w) == Attempted(s.(current := Some(Marked(t))), None, [StatusOf(Marked(t), false)])
  {
  }

  lemma NothingBehind(s: Sess, t: Task, a: Attempted, w: World)
    requires s.pending == [] && s.current == Some(t) && s.wan.None? && s.summon == 0
    requires a == Attempt(s, t, true, w) && a.request.None?
    ensures ServeIn(s, Empty, w) == Outcome(a.sess.(lifecycle := Closed), NoContent, a.writes)
  {
    assert ServeIn(s, Empty, w) == DispatchTask(s, t, true, w);
    assert DispatchNext(a.sess, w) == Outcome(a.sess.(lifecycle := Closed), NoContent, []);
    assert a.writes + [] == a.writes;
  }

  lemma FailedAgain(s: Sess, t: Task, w: World)
    requires t.kind != DiagResult && w.markOk(t, |s.pending|) && w.build(t, |s.pending|).BuildFails?
    ensures var failed := FailedTask(Marked(t));
      Attempt(s, t, true, w) == Attempted(s.(current := Some(failed)), None,
                                          [StatusOf(Marked(t), true), StatusOf(failed, w.endOk(failed, |s.pending|))])
  {
  }

  lemma SentAgain(s: Sess, t: Task, w: World)
    requires s.current == Some(t) && s.wan.None? && s.summon == 0
    requires !Refused(t, |s.pending|, w) && w.build(t, |s.pending|).Sends?
    ensures var o := ServeIn(s, Empty, w);
      o.reply == TaskRequest(Marked(t)) && o.writes == StatusWrites(Marked(t), true)
  {
  }

  /** A task in flight that cannot be built again is stored as failed and kept, and the next empty POST sends it once
      more: the finished task is executing again. */
  lemma FailedTaskIsKept(s: Sess, t: Task, w: World, w2: World)
    requires s.current == Some(t) && s.pending == [] && s.wan.None? && s.summon == 0 && t.kind != DiagResult
    requires w.markOk(t, 0) && w.build(t, 0).BuildFails?
    ensures var o, failed := ServeIn(s, Empty, w), FailedTask(Marked(t));
      && o == Outcome(s.(lifecycle := Closed, current := Some(failed)), NoContent,
                      [StatusOf(Marked(t), true), StatusOf(failed, w.endOk(failed, 0))])
      && (w2.markOk(failed, 0) && w2.build(failed, 0).Sends? ==>
            var o2 := ServeIn(o.sess, Empty, w2);
            o2.reply == TaskRequest(Marked(failed)) && o2.writes == [StatusOf(Marked(failed), true)])
  {
    var failed := FailedTask(Marked(t));
    FailedAgain(s, t, w);
    NothingBehind(s, t, Attempt(s, t, true, w), w);
    if w2.markOk(failed, 0) && w2.build(failed, 0).Sends? {
      SentAgain(s.(lifecycle := Closed, current := Some(failed)), failed, w2);
    }
  }
}
