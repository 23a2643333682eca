/** Properties of whole CWMP conversations: provisioning runs in lock step with the CPE,
    dispatching picks the first task that can run, summon batches tile the name list. */
module CwmpProtocol {
  import opened GoStrings
  import opened Templates
  import opened Provisioning
  import opened CwmpSpec
  import opened Tasks

  /** A request together with what the outside does while it is served. */
  type Exchange = (Request, World)

  function StateAfter(s: Sess, xs: seq<Exchange>): Sess
    decreases |xs|
  {
    if xs == [] then s else StateAfter(Serve(s, xs[0].0, xs[0].1).sess, xs[1..])
  }

  function Replies(s: Sess, xs: seq<Exchange>): (rs: seq<Reply>)
    ensures |rs| == |xs|
    decreases |xs|
  {
    if xs == [] then [] else
      var o := Serve(s, xs[0].0, xs[0].1);
      [o.reply] + Replies(o.sess, xs[1..])
  }

  function Writes(s: Sess, xs: seq<Exchange>): seq<Write>
    decreases |xs|
  {
    if xs == [] then [] else
      var o := Serve(s, xs[0].0, xs[0].1);
      o.writes + Writes(o.sess, xs[1..])
  }

  lemma Unfold(s: Sess, xs: seq<Exchange>, o: Outcome)
    requires xs != [] && o == Serve(s, xs[0].0, xs[0].1)
    ensures StateAfter(s, xs) == StateAfter(o.sess, xs[1..])
    ensures Replies(s, xs) == [o.reply] + Replies(o.sess, xs[1..])
    ensures Writes(s, xs) == o.writes + Writes(o.sess, xs[1..])
  {
  }

  // ---- dispatching ----

  predicate Runs(t: Task, n: nat, w: World) {
    && (t.kind == DiagResult || w.markOk(t, n))
    && !w.build(t, n).BuildFails?
    && (w.build(t, n).Provisions? ==> !w.build(t, n).start.Done())
  }

  /** Position of the first pending task that can be sent, or the queue length. */
  function FirstRunnable(pending: seq<Task>, w: World): (i: nat)
    ensures i <= |pending|
    ensures forall j | 0 <= j < i :: !Runs(pending[j], |pending| - 1 - j, w)
    ensures i < |pending| ==> Runs(pending[i], |pending| - 1 - i, w)
  {
    if pending == [] || Runs(pending[0], |pending| - 1, w) then 0 else 1 + FirstRunnable(pending[1..], w)
  }

  /** The request that opens a dispatched task. */
  function Opening(t: Task, n: nat, w: World): Reply
    requires Runs(t, n, w)
  {
    if w.build(t, n).Provisions? then Ask(w.build(t, n).start) else TaskRequest(Marked(t))
  }

  /** Trying to send the first pending task. */
  function TryFirst(s: Sess, w: World): Attempted
    requires s.pending != []
  {
    Attempt(s.(pending := s.pending[1..]), s.pending[0], false, w)
  }

  lemma SkipFirst(s: Sess, w: World)
    requires s.pending != [] && !Runs(s.pending[0], |s.pending| - 1, w)
    ensures var a := TryFirst(s, w);
      && a.sess.pending == s.pending[1..] && a.sess.summon == s.summon && a.sess.lifecycle == s.lifecycle
      && DispatchNext(s, w) == Logged(a.writes, DispatchNext(a.sess, w))
  {
    AttemptFails(s.(pending := s.pending[1..]), s.pending[0], w);
  }

  /** What an attempt that sends nothing leaves alone. */
  lemma AttemptFails(s: Sess, t: Task, w: World)
    requires !Runs(t, |s.pending|, w)
    ensures var a := Attempt(s, t, false, w);
      a.request.None? && a.sess.pending == s.pending && a.sess.summon == s.summon && a.sess.lifecycle == s.lifecycle
  {
  }

  lemma AttemptSucceeds(s: Sess, t: Task, w: World)
    requires Runs(t, |s.pending|, w)
    ensures var a := Attempt(s, t, false, w);
      && a.request == Some(Opening(t, |s.pending|, w)) && a.sess.current == Some(Marked(t))
           && a.writes == StatusWrites(Marked(t), true)
      && a.sess.pending == s.pending && a.sess.summon == s.summon && a.sess.lifecycle == s.lifecycle
  {
  }

  lemma RunFirst(s: Sess, w: World)
    requires s.pending != [] && Runs(s.pending[0], |s.pending| - 1, w)
    ensures var o, t := DispatchNext(s, w), s.pending[0];
      && o.sess.summon == s.summon && o.sess.lifecycle == s.lifecycle && o.sess.pending == s.pending[1..]
      && o.sess.current == Some(Marked(t)) && o.reply == Opening(t, |s.pending| - 1, w)
      && o.writes == StatusWrites(Marked(t), true)
  {
    AttemptSucceeds(s.(pending := s.pending[1..]), s.pending[0], w);
  }

  /** The outcome o of dispatching s is that its i-th pending task is in flight, or that
      the queue is used up and the session closed. */
  predicate Settles(o: Outcome, s: Sess, i: nat, w: World) {
    && i <= |s.pending| && o.sess.summon == s.summon
    && if i < |s.pending| then
         && Runs(s.pending[i], |s.pending| - 1 - i, w)
         && o.sess.pending == s.pending[i + 1..] && o.sess.current == Some(Marked(s.pending[i]))
         && o.reply == Opening(s.pending[i], |s.pending| - 1 - i, w) && o.sess.lifecycle == s.lifecycle
       else o.sess.pending == [] && o.reply == NoContent && o.sess.lifecycle == Closed
  }

  lemma SettlesAfterSkip(o: Outcome, s: Sess, rest: Sess, i: nat, w: World, writes: seq<Write>)
    requires s.pending != [] && rest.pending == s.pending[1..] && rest.summon == s.summon
      && rest.lifecycle == s.lifecycle
    requires Settles(o, rest, i, w)
    ensures Settles(Logged(writes, o), s, i + 1, w)
  {
    if i < |rest.pending| {
      assert rest.pending[i] == s.pending[i + 1] && rest.pending[i + 1..] == s.pending[i + 2..];
    }
  }

  /** For any pattern of queue and build failures, dispatching ends with the first task that
      can run in flight and everything behind it still pending, or with an empty queue and a
      closed session. The summon state is untouched. */
  lemma {:induction false} DispatchPicksFirstRunnable(s: Sess, w: World)
    ensures Settles(DispatchNext(s, w), s, FirstRunnable(s.pending, w), w)
    decreases |s.pending|
  {
    if s.pending != [] {
      if Runs(s.pending[0], |s.pending| - 1, w) {
        RunFirst(s, w);
      } else {
        SkipFirst(s, w);
        var rest, writes := TryFirst(s, w).sess, TryFirst(s, w).writes;
        DispatchPicksFirstRunnable(rest, w);
        SettlesAfterSkip(DispatchNext(rest, w), s, rest, FirstRunnable(rest.pending, w), w, writes);
      }
    }
  }

  /** A task ends and the next one that can be sent starts; nothing else is written before. */
  lemma FinishThenNext(s: Sess, saved: seq<Write>, ok: bool, w: World)
    ensures var o, first := FinishTask(s, saved, ok, w), saved + Finishing(s.current, ok, |s.pending|, w);
      && first <= o.writes && Settles(o, s, FirstRunnable(s.pending, w), w)
  {
    DispatchPicksFirstRunnable(s.(current := None), w);
    var next := DispatchNext(s.(current := None), w);
    assert FinishTask(s, saved, ok, w).writes == (saved + Finishing(s.current, ok, |s.pending|, w)) + next.writes;
  }

  /** A fault fails the task in flight, drops its provision and follow-up, and goes on. */
  lemma FaultFailsTheTask(s: Sess, w: World)
    ensures var o := ServeIn(s, Fault, w);
      && Finishing(s.current, false, |s.pending|, w) <= o.writes && Settles(o, s, FirstRunnable(s.pending, w), w)
      && (FirstRunnable(s.pending, w) == |s.pending| && OffersSteps(s.pending, w) ==>
            o.sess.current == None && o.sess.wan == None && !o.sess.followUp)
  {
    var s' := s.(wan := None, followUp := false);
    FailsThenNext(s', w);
    if OffersSteps(s.pending, w) { NothingLeft(s', w); }
  }

  lemma FailsThenNext(s: Sess, w: World)
    ensures var o := FinishTask(s, [], false, w);
      Finishing(s.current, false, |s.pending|, w) <= o.writes && Settles(o, s, FirstRunnable(s.pending, w), w)
  {
    var end := Finishing(s.current, false, |s.pending|, w);
    FinishThenNext(s, [], false, w);
    assert [] + end == end;
  }

  /** With nothing left to run, a finished task leaves no work behind. */
  lemma NothingLeft(s: Sess, w: World)
    requires OffersSteps(s.pending, w) && s.wan.None? && !s.followUp
    ensures FirstRunnable(s.pending, w) == |s.pending| ==>
      var o := FinishTask(s, [], false, w); o.sess.current == None && o.sess.wan == None && !o.sess.followUp
  {
    NothingRuns(s.(current := None), w);
  }

  /** Every flow among the tasks has a step to offer. */
  predicate OffersSteps(pending: seq<Task>, w: World) {
    forall i | 0 <= i < |pending| ::
      w.build(pending[i], |pending| - 1 - i).Provisions? ==> !w.build(pending[i], |pending| - 1 - i).start.Done()
  }

  lemma {:induction false} NothingRuns(s: Sess, w: World)
    requires OffersSteps(s.pending, w)
    ensures FirstRunnable(s.pending, w) == |s.pending| ==>
      var o := DispatchNext(s, w); o.sess.current == s.current && o.sess.wan == s.wan && o.sess.followUp == s.followUp
    decreases |s.pending|
  {
    if s.pending != [] && !Runs(s.pending[0], |s.pending| - 1, w) {
      assert w.build(s.pending[0], |s.pending| - 1 - 0).Provisions? ==>
        !w.build(s.pending[0], |s.pending| - 1 - 0).start.Done();
      SkipFirst(s, w);
      SkippedKeeps(s, w);
      forall i | 0 <= i < |s.pending| - 1
        ensures w.build(s.pending[1..][i], |s.pending| - 2 - i).Provisions? ==>
          !w.build(s.pending[1..][i], |s.pending| - 2 - i).start.Done()
      {
        assert s.pending[1..][i] == s.pending[i + 1] && |s.pending| - 1 - (i + 1) == |s.pending| - 2 - i;
      }
      NothingRuns(TryFirst(s, w).sess, w);
    }
  }

  lemma SkippedKeeps(s: Sess, w: World)
    requires s.pending != [] && !Runs(s.pending[0], |s.pending| - 1, w)
    ensures var a := TryFirst(s, w).sess;
      && a.followUp == s.followUp
      && (!w.build(s.pending[0], |s.pending| - 1).Provisions? ==> a.current == s.current && a.wan == s.wan)
      && (w.build(s.pending[0], |s.pending| - 1).Provisions? && !w.build(s.pending[0], |s.pending| - 1).start.Done() ==>
            a.current == s.current && a.wan == s.wan)
  {
  }

  /** A finished download completes its task. One that goes on keeps it, answers at once when nothing waits, and
      otherwise lets the next task take its place. */
  lemma DownloadKeepsOrCompletes(s: Sess, async: bool, w: World)
    ensures var o := ServeIn(s, DownloadResponse(async), w);
      if async && s.pending == [] then o == Outcome(s, NoContent, [])
      else
        && Settles(o, s, FirstRunnable(s.pending, w), w)
        && (!async ==> Finishing(s.current, true, |s.pending|, w) <= o.writes)
  {
    if !async {
      FinishThenNext(s, [], true, w);
      assert [] + Finishing(s.current, true, |s.pending|, w) == Finishing(s.current, true, |s.pending|, w);
    } else {
      DispatchPicksFirstRunnable(s, w);
    }
  }

  /** The acknowledgement of a plain SetParameterValues: what was sent is stored before the task is reported done; a
      started diagnostic is neither stored nor reported. */
  lemma PlainSetStoresThenCompletes(s: Sess, w: World)
    requires s.wan.None?
    ensures var o := ServeIn(s, SetParamsResponse, w);
      && Settles(o, s, FirstRunnable(s.pending, w), w)
      && if s.current.Some? && s.current.value.kind == AsyncDiagnostic then o == DispatchNext(s.(current := None), w)
         else SyncWrites(s.setParams, s.provisionMark, s.creds) + Finishing(s.current, true, |s.pending|, w) <= o.writes
  {
    PlainSetIs(s, w);
    if s.current.Some? && s.current.value.kind == AsyncDiagnostic {
      ReleaseThenNext(s, w);
    } else {
      SyncThenNext(s, w);
    }
  }

  lemma PlainSetIs(s: Sess, w: World)
    requires s.wan.None?
    ensures ServeIn(s, SetParamsResponse, w) ==
            if s.current.Some? && s.current.value.kind == AsyncDiagnostic then DispatchNext(s.(current := None), w)
              else SyncAndFinish(s, w)
  {
  }

  lemma ReleaseThenNext(s: Sess, w: World)
    ensures Settles(DispatchNext(s.(current := None), w), s, FirstRunnable(s.pending, w), w)
  {
    DispatchPicksFirstRunnable(s.(current := None), w);
  }

  lemma SyncThenNext(s: Sess, w: World)
    ensures var o := SyncAndFinish(s, w);
      Settles(o, s, FirstRunnable(s.pending, w), w) && SyncWrites(s.setParams, s.provisionMark, s.creds)
        + Finishing(s.current, true, |s.pending|, w) <= o.writes
  {
    FinishThenNext(s.(setParams := map[], creds := map[], provisionMark := false),
      SyncWrites(s.setParams, s.provisionMark, s.creds), true, w);
  }

  // ---- provisioning in lock step ----

  /** The session is waiting for the reply to the current step of e, with no summon due. */
  predicate AwaitsStep(s: Sess, e: Exec) {
    && s.wan == Some(e) && e.AtRest() && !e.Done()
    && s.current.Some? && s.summon == 0 && !s.followUp
  }

  /** The acknowledgement a request carries, as instance text. */
  function Ack(r: Request): seq<string> {
    match r
    case AddObjectResponse(n) => [Itoa(n)]
    case SetParamsResponse => [""]
    case DeleteObjectResponse => [""]
    case _ => []
  }

  function Acks(xs: seq<Exchange>): seq<string> {
    if xs == [] then [] else Ack(xs[0].0) + Acks(xs[1..])
  }

  /** What a conforming CPE sends while the current step of e is outstanding: the reply to
      that step, or an empty POST after a dropped connection. */
  predicate Conforms(r: Request, e: Exec) {
    r.Empty? || (!e.Done() &&
      match e.Current().kind
      case AddObject => r.AddObjectResponse?
      case SetParams => r.SetParamsResponse?
      case DeleteObject => r.DeleteObjectResponse?)
  }

  predicate ConformingRun(e: Exec, xs: seq<Exchange>)
    decreases |xs|
  {
    xs == [] || (Conforms(xs[0].0, e) && ConformingRun(After(e, Ack(xs[0].0)), xs[1..]))
  }

  function StepsLeft(e: Exec): nat {
    |ActiveFrom(e.on, e.cur)|
  }

  lemma {:induction false} AfterConcat(e: Exec, a: seq<string>, b: seq<string>)
    ensures After(e, a + b) == After(After(e, a), b)
    decreases |a|
  {
    if a == [] {
      assert a + b == b;
    } else {
      assert (a + b)[1..] == a[1..] + b;
      AfterConcat(e.OnReply(a[0]), a[1..], b);
    }
  }

  lemma AfterOne(e: Exec, text: string)
    ensures After(e, [text]) == e.OnReply(text)
  {
    assert [text][1..] == [];
  }

  /** One exchange while steps remain: an empty POST repeats the request, the matching reply
      moves on by one step; nothing is written. */
  lemma StepExchange(s: Sess, e: Exec, r: Request, w: World)
    requires AwaitsStep(s, e) && Conforms(r, e) && |Ack(r)| < StepsLeft(e)
    ensures var e', o := After(e, Ack(r)), Serve(s, r, w);
      && e'.AtRest() && !e'.Done() && StepsLeft(e') == StepsLeft(e) - |Ack(r)|
      && o == Outcome(s.(wan := Some(e')), Ask(e'), [])
  {
    if r.Empty? {
      assert After(e, []) == e;
    } else {
      var text := Ack(r)[0];
      assert Ack(r) == [text];
      AfterOne(e, text);
      OnReplyStep(e, text);
      RemainingDecreases(e, text);
      assert s.(followUp := false) == s;
    }
  }

  /** Each answer is the request for the step reached after the replies so far. */
  predicate InStep(e: Exec, xs: seq<Exchange>, answers: seq<Reply>)
    decreases |xs|
  {
    && |answers| == |xs|
    && (xs != [] ==>
      var e' := After(e, Ack(xs[0].0));
      !e'.Done() && answers[0] == Ask(e') && InStep(e', xs[1..], answers[1..]))
  }

  /** Lock step: with a conforming CPE and no summon outstanding, every answer is the request
      for the step reached after the replies so far. The cursor moves on matching replies
      only, an empty POST re-sends, and nothing is reported to the queue. */
  lemma {:induction false} LockStep(s: Sess, e: Exec, xs: seq<Exchange>)
    requires AwaitsStep(s, e) && ConformingRun(e, xs) && |Acks(xs)| < StepsLeft(e)
    ensures StateAfter(s, xs) == s.(wan := Some(After(e, Acks(xs))))
    ensures InStep(e, xs, Replies(s, xs)) && Writes(s, xs) == []
    ensures AwaitsStep(StateAfter(s, xs), After(e, Acks(xs)))
    ensures StepsLeft(After(e, Acks(xs))) == StepsLeft(e) - |Acks(xs)|
    decreases |xs|
  {
    if xs != [] {
      var r, w, rest := xs[0].0, xs[0].1, xs[1..];
      StepExchange(s, e, r, w);
      var e' := After(e, Ack(r));
      LockStep(s.(wan := Some(e')), e', rest);
      AfterConcat(e, Ack(r), Acks(rest));
      assert Replies(s, xs)[1..] == Replies(s.(wan := Some(e')), rest);
    }
  }

  /** Reading off the j-th answer of a run in lock step. */
  lemma {:induction false} AnswerAt(e: Exec, xs: seq<Exchange>, answers: seq<Reply>, j: nat)
    requires InStep(e, xs, answers) && j < |xs|
    ensures var e' := After(e, Acks(xs[..j + 1])); !e'.Done() && answers[j] == Ask(e')
    decreases |xs|
  {
    var r, rest := xs[0].0, xs[1..];
    var e' := After(e, Ack(r));
    assert xs[..j + 1][1..] == rest[..j];
    AfterConcat(e, Ack(r), Acks(rest[..j]));
    if j > 0 {
      AnswerAt(e', rest, answers[1..], j - 1);
      assert rest[..(j - 1) + 1] == rest[..j];
    }
  }

  /** The write that reports a task as completed. */
  function Completion(t: Task, n: nat, w: World): Write {
    StatusOf(t.(status := Completed), w.endOk(t.(status := Completed), n))
  }

  /** The reply to the last active step, and no other, completes the task. */
  lemma LastReplyCompletes(s: Sess, e: Exec, r: Request, w: World)
    requires AwaitsStep(s, e) && Conforms(r, e) && !r.Empty? && StepsLeft(e) == 1
    ensures var sets := r.SetParamsResponse?;
      var s' := s.(wan := None, current := None, creds := if sets then map[] else s.creds);
      var done := Completion(s.current.value, |s.pending|, w);
      ServeIn(s, r, w) == Logged((if sets then Saves(s.creds) else []) + [done], DispatchNext(s', w))
  {
    LastStepIsLast(e, Ack(r)[0]);
    assert s.(followUp := false) == s;
    if r.SetParamsResponse? {
      FinishSaving(s.(wan := None), w);
    } else {
      FinishOnly(s.(wan := None), w);
    }
  }

  lemma FinishSaving(s: Sess, w: World)
    requires s.current.Some?
    ensures FinishTask(s.(creds := map[]), Saves(s.creds), true, w) ==
            Logged(Saves(s.creds) + [Completion(s.current.value, |s.pending|, w)],
              DispatchNext(s.(current := None, creds := map[]), w))
  {
    assert s.(creds := map[]).(current := None) == s.(current := None, creds := map[]);
  }

  lemma LastStepIsLast(e: Exec, text: string)
    requires e.AtRest() && !e.Done() && StepsLeft(e) == 1
    ensures e.OnReply(text).Done()
  {
    OnReplyStep(e, text);
    RemainingDecreases(e, text);
    var e' := e.OnReply(text);
    if !e'.Done() { ActiveFromNext(e.on, e'.cur); }
  }

  lemma FinishOnly(s: Sess, w: World)
    requires s.current.Some?
    ensures FinishTask(s, [], true, w) == Logged([] + [Completion(s.current.value, |s.pending|, w)],
      DispatchNext(s.(current := None), w))
  {
  }

  predicate AddObjectGoesOn(e: Exec, instance: int) {
    !e.Done() && e.Current().kind == AddObject && !e.AdvanceAddObject(Itoa(instance)).Done()
  }

  lemma AddObjectCases(s: Sess, e: Exec, instance: int, w: World)
    requires s.wan == Some(e)
    ensures var o := OnAddObject(s, instance, w);
      if AddObjectGoesOn(e, instance)
        then o == Outcome(s.(followUp := false, wan := Some(e.AdvanceAddObject(Itoa(instance)))),
          Ask(e.AdvanceAddObject(Itoa(instance))), [])
      else o == FinishTask(s.(followUp := false, wan := None), [], !e.Done() && e.Current().kind == AddObject, w)
  {
  }

  // what a reply does that does not match the step

  /** Only an AddObject reply is checked against the step it answers. A Set or Delete reply moves the cursor past any
      step. */
  lemma RepliesThatMove(s: Sess, e: Exec, r: Request, w: World)
    requires s.wan == Some(e) && e.AtRest() && !e.Done() && s.summon == 0 && !s.followUp && StepsLeft(e) > 1
    ensures !e.Advance().Done() && forall text :: !e.AdvanceAddObject(text).Done()
    ensures r.SetParamsResponse? || r.DeleteObjectResponse? ==>
      ServeIn(s, r, w) == Outcome(s.(wan := Some(e.Advance())), Ask(e.Advance()), [])
    ensures r.AddObjectResponse? ==>
      ServeIn(s, r, w) ==
        if e.Current().kind == AddObject then
          Outcome(s.(wan := Some(e.AdvanceAddObject(Itoa(r.instance)))), Ask(e.AdvanceAddObject(Itoa(r.instance))), [])
        else FinishTask(s.(wan := None), [], false, w)
  {
    StepsRemain(e);
    assert s.(followUp := false) == s;
    if r.AddObjectResponse? { AddObjectCases(s, e, r.instance, w); }
  }

  lemma StepsRemain(e: Exec)
    requires e.AtRest() && !e.Done() && StepsLeft(e) > 1
    ensures !e.Advance().Done() && forall text :: !e.AdvanceAddObject(text).Done()
  {
    ActiveFromNext(e.on, e.cur);
    ActiveFromNext(e.on, e.cur + 1);
  }

  /** A Set reply while an AddObject step is outstanding skips the step: its variable stays unbound, and a later
      template that needs it keeps its placeholder. */
  lemma SetReplySkipsBinding(s: Sess, e: Exec, w: World, template: string, r: string)
    requires s.wan == Some(e) && e.AtRest() && !e.Done() && s.summon == 0 && !s.followUp && StepsLeft(e) > 1
    requires e.Current().kind == AddObject && e.Current().bind !in e.vars
    requires SafeTable(e.vars) && Flat(template) && e.Current().bind in Holes(template)
    ensures var next := Serve(s, SetParamsResponse, w).sess.wan;
      && next.Some? && next.value.vars == e.vars && e.cur < next.value.cur
      && (Substituted(template, next.value.vars, r) ==> Holes(r) != {})
  {
    RepliesThatMove(s, e, SetParamsResponse, Facing(w, s.gear));
    if Substituted(template, e.vars, r) { UnboundTemplateLeaks(template, e.vars, r); }
  }

  lemma {:induction false} FewerAcks(xs: seq<Exchange>, j: nat)
    requires j <= |xs|
    ensures |Acks(xs[..j])| <= |Acks(xs)|
    decreases |xs|
  {
    if j > 0 {
      assert xs[..j][1..] == xs[1..][..j - 1];
      FewerAcks(xs[1..], j - 1);
    }
  }

  /** From the first request on: the j-th answer asks for the flow step at the position of
      the first active step not yet acknowledged. */
  lemma SentStepsAreTheActiveSteps(s: Sess, e: Exec, xs: seq<Exchange>, j: nat)
    requires e == Start(e.flow, e.on, e.vars) && |e.on| == |e.flow|
    requires AwaitsStep(s, e) && ConformingRun(e, xs) && |Acks(xs)| < StepsLeft(e) && j < |xs|
    ensures var acked, a, answer := |Acks(xs[..j + 1])|, ActiveFrom(e.on, 0), Replies(s, xs)[j];
      acked < |a| && a[acked] < |e.flow| && answer.StepRequest? && answer.step == e.flow[a[acked]]
  {
    LockStep(s, e, xs);
    AnswerAt(e, xs, Replies(s, xs), j);
    ActiveFromNext(e.on, 0);
    FewerAcks(xs, j + 1);
    var acks := Acks(xs[..j + 1]);
    ExecutesActiveSubsequence(e.flow, e.on, e.vars, acks);
    SuffixFromEntry(e.on, |acks|);
  }

  // from the dispatch to the completion

  /** What building the first task that can be sent gives. */
  function FirstBuild(pending: seq<Task>, w: World): (b: Build)
    requires FirstRunnable(pending, w) < |pending|
    ensures var i := FirstRunnable(pending, w); b == w.build(pending[i], |pending| - 1 - i)
  {
    if Runs(pending[0], |pending| - 1, w) then w.build(pending[0], |pending| - 1) else FirstBuild(pending[1..], w)
  }

  /** Dispatching a task that provisions takes its flow over. */
  lemma {:induction false} DispatchStartsFlow(s: Sess, w: World)
    requires FirstRunnable(s.pending, w) < |s.pending|
    ensures var b := FirstBuild(s.pending, w);
      b.Provisions? ==> DispatchNext(s, w).sess.wan == Some(b.start) && DispatchNext(s, w).sess.followUp == s.followUp
    decreases |s.pending|
  {
    if Runs(s.pending[0], |s.pending| - 1, w) {
      FlowStarts(s, w);
    } else {
      SkipFirst(s, w);
      SkippedKeeps(s, w);
      DispatchStartsFlow(TryFirst(s, w).sess, w);
      LoggedKeepsSession(TryFirst(s, w).writes, DispatchNext(TryFirst(s, w).sess, w));
    }
  }

  lemma LoggedKeepsSession(writes: seq<Write>, o: Outcome)
    ensures Logged(writes, o).sess == o.sess && Logged(writes, o).reply == o.reply
  {
  }

  lemma FlowStarts(s: Sess, w: World)
    requires s.pending != [] && Runs(s.pending[0], |s.pending| - 1, w)
    ensures var b := w.build(s.pending[0], |s.pending| - 1);
      b.Provisions? ==> DispatchNext(s, w).sess.wan == Some(b.start) && DispatchNext(s, w).sess.followUp == s.followUp
  {
  }

  /** The steps asked for by the answers to acknowledgements, leaving out re-sends. */
  function NewSteps(xs: seq<Exchange>, answers: seq<Reply>): seq<Step>
    requires |answers| == |xs|
    decreases |xs|
  {
    if xs == [] then []
    else
      (if Ack(xs[0].0) != [] && answers[0].StepRequest? then [answers[0].step] else [])
      + NewSteps(xs[1..], answers[1..])
  }

  function StepsAt(flow: Flow, positions: seq<nat>): seq<Step>
    requires forall k | k in positions :: k < |flow|
  {
    if positions == [] then [] else
      assert positions[0] in positions && forall k | k in positions[1..] :: k in positions;
      [flow[positions[0]]] + StepsAt(flow, positions[1..])
  }

  lemma PositionsInFlow(e: Exec)
    requires |e.on| == |e.flow|
    ensures forall k | k in ActiveFrom(e.on, e.cur) :: k < |e.flow|
  {
    forall k: nat ensures k in ActiveFrom(e.on, e.cur) ==> k < |e.flow| { ActiveFromMember(e.on, e.cur, k); }
  }

  /** The active steps from the cursor on. */
  function ActiveSteps(e: Exec): seq<Step>
    requires |e.on| == |e.flow|
  {
    PositionsInFlow(e);
    StepsAt(e.flow, ActiveFrom(e.on, e.cur))
  }

  lemma {:induction false} NewStepsAreNext(e: Exec, xs: seq<Exchange>, answers: seq<Reply>)
    requires e.AtRest() && !e.Done() && ConformingRun(e, xs) && InStep(e, xs, answers) && |Acks(xs)| + 1 == StepsLeft(e)
    ensures [e.Current()] + NewSteps(xs, answers) == ActiveSteps(e)
    decreases |xs|, 1
  {
    PositionsInFlow(e);
    ActiveFromNext(e.on, e.cur);
    if xs == [] {
      assert ActiveFrom(e.on, e.cur)[1..] == [];
      assert StepsAt(e.flow, ActiveFrom(e.on, e.cur)) == [e.Current()] + StepsAt(e.flow, ActiveFrom(e.on, e.cur)[1..]);
    } else if Ack(xs[0].0) == [] {
      assert After(e, []) == e;
      NewStepsAreNext(e, xs[1..], answers[1..]);
      assert [] + NewSteps(xs[1..], answers[1..]) == NewSteps(xs[1..], answers[1..]);
    } else {
      NewStepsMoveOn(e, xs, answers);
    }
  }

  lemma {:induction false} NewStepsMoveOn(e: Exec, xs: seq<Exchange>, answers: seq<Reply>)
    requires e.AtRest() && !e.Done() && ConformingRun(e, xs) && InStep(e, xs, answers) && |Acks(xs)| + 1 == StepsLeft(e)
    requires xs != [] && Ack(xs[0].0) != []
    ensures [e.Current()] + NewSteps(xs, answers) == ActiveSteps(e)
    decreases |xs|, 0
  {
    var text := Ack(xs[0].0)[0];
    assert Ack(xs[0].0) == [text];
    AfterOne(e, text);
    var e' := NextOnList(e, text);
    PositionsInFlow(e);
    PositionsInFlow(e');
    NewStepsAreNext(e', xs[1..], answers[1..]);
    assert ActiveFrom(e.on, e.cur)[1..] == ActiveFrom(e.on, e'.cur);
  }

  lemma NextListed(on: seq<bool>, i: nat)
    requires i < |on| && on[i]
    ensures var j := NextActive(on, i + 1);
      ActiveFrom(on, i) == [i] + ActiveFrom(on, j) && (j >= |on| <==> ActiveFrom(on, j) == [])
  {
    ActiveFromNext(on, i + 1);
  }

  lemma NextOnList(e: Exec, text: string) returns (e': Exec)
    requires e.AtRest() && !e.Done()
    ensures e' == e.OnReply(text) && e'.flow == e.flow && e'.on == e.on && e'.AtRest()
    ensures ActiveFrom(e.on, e.cur) == [e.cur] + ActiveFrom(e.on, e'.cur)
    ensures e'.Done() <==> ActiveFrom(e.on, e'.cur) == []
  {
    e' := e.OnReply(text);
    OnReplyStep(e, text);
    NextListed(e.on, e.cur);
  }

  lemma DispatchAwaits(s: Sess, w: World, e: Exec, creds: map<string, string>)
    requires var i := FirstRunnable(s.pending, w);
      i < |s.pending| && w.build(s.pending[i], |s.pending| - 1 - i) == Provisions(e, creds)
    requires e == Start(e.flow, e.on, e.vars) && |e.on| == |e.flow| && s.summon == 0 && !s.followUp
    ensures var first := DispatchNext(s, w);
      AwaitsStep(first.sess, e) && first.reply == Ask(e)
      && first.sess.current == Some(Marked(s.pending[FirstRunnable(s.pending, w)]))
  {
    StartRests(e.flow, e.on, e.vars);
    RunnableStarts(s.pending, w, e, creds);
    StartedFlow(s, w, DispatchNext(s, w), e, creds);
  }

  lemma RunnableStarts(pending: seq<Task>, w: World, e: Exec, creds: map<string, string>)
    requires FirstRunnable(pending, w) < |pending| && FirstBuild(pending, w) == Provisions(e, creds)
    ensures !e.Done()
  {
  }

  lemma StartedFlow(s: Sess, w: World, o: Outcome, e: Exec, creds: map<string, string>)
    requires o == DispatchNext(s, w) && FirstRunnable(s.pending, w) < |s.pending|
    requires FirstBuild(s.pending, w) == Provisions(e, creds)
    ensures o.sess.wan == Some(e) && o.sess.followUp == s.followUp && o.sess.summon == s.summon && o.reply == Ask(e)
    ensures o.sess.current == Some(Marked(s.pending[FirstRunnable(s.pending, w)]))
  {
    DispatchPicksFirstRunnable(s, w);
    DispatchStartsFlow(s, w);
  }

  lemma AwaitedFlowRuns(s: Sess, e: Exec, xs: seq<Exchange>, r: Request, w: World)
    requires AwaitsStep(s, e) && ConformingRun(e, xs) && |Acks(xs)| + 1 == StepsLeft(e)
    requires Conforms(r, After(e, Acks(xs))) && !r.Empty?
    ensures [e.Current()] + NewSteps(xs, Replies(s, xs)) == ActiveSteps(e)
    ensures Writes(s, xs) == []
    ensures Completion(s.current.value, |s.pending|, w) in Serve(StateAfter(s, xs), r, w).writes
  {
    LockStep(s, e, xs);
    NewStepsAreNext(e, xs, Replies(s, xs));
    LastReplyCompletes(StateAfter(s, xs), After(e, Acks(xs)), r, Facing(w, s.gear));
  }

  /** From dispatch to completion: a provision that is dispatched asks for exactly the active steps of its flow, in
      order and once each up to re-sends, writes nothing meanwhile, and is reported completed with the last
      acknowledgement. */
  lemma ProvisionEndToEnd(s: Sess, w0: World, e: Exec, creds: map<string, string>, xs: seq<Exchange>, r: Request,
                          w: World)
    requires var i := FirstRunnable(s.pending, w0);
      i < |s.pending| && w0.build(s.pending[i], |s.pending| - 1 - i) == Provisions(e, creds)
    requires e == Start(e.flow, e.on, e.vars) && |e.on| == |e.flow| && s.summon == 0 && !s.followUp
    requires ConformingRun(e, xs) && |Acks(xs)| + 1 == StepsLeft(e)
    requires Conforms(r, After(e, Acks(xs))) && !r.Empty?
    ensures var t, first := s.pending[FirstRunnable(s.pending, w0)], DispatchNext(s, w0);
      var last := Serve(StateAfter(first.sess, xs), r, w);
      && first.reply == Ask(e)
      && [e.Current()] + NewSteps(xs, Replies(first.sess, xs)) == ActiveSteps(e)
      && Writes(first.sess, xs) == []
      && Completion(Marked(t), |first.sess.pending|, w) in last.writes
  {
    DispatchAwaits(s, w0, e, creds);
    AwaitedFlowRuns(DispatchNext(s, w0).sess, e, xs, r, w);
  }

  // ---- summon batching ----

  /** Number of requests needed for n names: n / size rounded up. */
  function BatchCount(n: nat, size: nat): nat
    requires size > 0
  {
    (n + size - 1) / size
  }

  lemma BatchCountBounds(n: nat, size: nat, j: nat)
    requires size > 0
    ensures j < BatchCount(n, size) <==> j * size < n
  {
    var k := BatchCount(n, size);
    assert k * size <= n + size - 1 < k * size + size;
    if j < k {
      assert (j + 1) * size <= k * size;
    } else {
      assert k * size <= j * size;
    }
  }

  /** The first j batches laid end to end. */
  function Laid(names: seq<string>, size: nat, j: nat): seq<string>
    requires size > 0 && j <= BatchCount(|names|, size)
  {
    if j == 0 then [] else
      BatchCountBounds(|names|, size, j - 1);
      Laid(names, size, j - 1) + Batch(names, size, j - 1)
  }

  lemma PrefixPlusBatch(names: seq<string>, size: nat, a: nat)
    requires a <= |names|
    ensures names[..a] + (if a + size > |names| then names[a..] else names[a..a + size])
         == if a + size <= |names| then names[..a + size] else names
  {
  }

  lemma {:induction false} BatchesAreAPrefix(names: seq<string>, size: nat, j: nat)
    requires size > 0 && j <= BatchCount(|names|, size)
    ensures Laid(names, size, j) == if j * size <= |names| then names[..j * size] else names
  {
    if j > 0 {
      BatchesAreAPrefix(names, size, j - 1);
      BatchCountBounds(|names|, size, j - 1);
      var a := (j - 1) * size;
      assert j * size == a + size;
      PrefixPlusBatch(names, size, a);
    }
  }

  /** The requested batches tile the name list: no name is lost, repeated or reordered. */
  lemma BatchesTileTheNames(names: seq<string>, size: nat)
    requires size > 0
    ensures Laid(names, size, BatchCount(|names|, size)) == names
  {
    var k := BatchCount(|names|, size);
    BatchesAreAPrefix(names, size, k);
    BatchCountBounds(|names|, size, k);
    if k * size <= |names| { assert names[..k * size] == names; }
  }

  function Merged(replies: seq<map<string, string>>): map<string, string> {
    if replies == [] then map[] else Merged(replies[..|replies| - 1]) + replies[|replies| - 1]
  }

  /** The batched phase with j replies in. */
  function Summoning(s: Sess, names: seq<string>, replies: seq<map<string, string>>): Sess {
    s.(summon := 2, names := names, batch := |replies|, params := Merged(replies))
  }

  /** A summon starts with batch 0, or is over at once when the CPE lists no leaf. */
  lemma SummonStarts(s: Sess, all: seq<string>, w: World)
    requires LeafNames(all) != []
    ensures Serve(s, NamesResponse(all), w)
         == Outcome(Summoning(s, LeafNames(all), []), GetValues(Batch(LeafNames(all), BatchSize(s.schema), 0)), [])
  {
  }

  /** Each reply but the last is accumulated and answered with the next batch. */
  lemma SummonAsksNextBatch(s: Sess, names: seq<string>, replies: seq<map<string, string>>, params: map<string, string>,
                            collected: Option<Task>, w: World)
    requires |replies| + 1 < BatchCount(|names|, BatchSize(s.schema))
    ensures var j := |replies| + 1;
      && j * BatchSize(s.schema) <= |names|
      && Serve(Summoning(s, names, replies), ValuesResponse(params, collected), w)
         == Outcome(Summoning(s, names, replies + [params]), GetValues(Batch(names, BatchSize(s.schema), j)), [])
  {
    var more := replies + [params];
    BatchCountBounds(|names|, BatchSize(s.schema), |more|);
  }

  predicate AllValues(xs: seq<Exchange>) {
    forall i | 0 <= i < |xs| :: xs[i].0.ValuesResponse?
  }

  function ParamsOf(xs: seq<Exchange>): seq<map<string, string>>
    requires AllValues(xs)
  {
    if xs == [] then [] else [xs[0].0.params] + ParamsOf(xs[1..])
  }

  /** n batch requests, in order, starting with batch first. */
  function BatchRequests(names: seq<string>, size: nat, first: nat, n: nat): seq<Reply>
    requires size > 0 && first + n <= BatchCount(|names|, size)
    decreases n
  {
    if n == 0 then [] else
      BatchCountBounds(|names|, size, first);
      [GetValues(Batch(names, size, first))] + BatchRequests(names, size, first + 1, n - 1)
  }

  lemma SummonStep(s: Sess, names: seq<string>, got: seq<map<string, string>>, xs: seq<Exchange>)
    requires xs != [] && xs[0].0.ValuesResponse? && |got| + 1 < BatchCount(|names|, BatchSize(s.schema))
    ensures var a, b, rest, j := Summoning(s, names, got), Summoning(s, names, got + [xs[0].0.params]), xs[1..],
      |got| + 1;
      && j * BatchSize(s.schema) <= |names|
      && StateAfter(a, xs) == StateAfter(b, rest) && Writes(a, xs) == Writes(b, rest)
      && Replies(a, xs) == [GetValues(Batch(names, BatchSize(s.schema), j))] + Replies(b, rest)
  {
    var r, w := xs[0].0, xs[0].1;
    var more, size := got + [r.params], BatchSize(s.schema);
    SummonAsksNextBatch(s, names, got, r.params, r.collected, w);
    assert r == ValuesResponse(r.params, r.collected);
    Unfold(Summoning(s, names, got), xs, Outcome(Summoning(s, names, more), GetValues(Batch(names, size, |got| + 1)),
      []));
  }

  /** The run so far: replies accumulated, the following batches asked for, nothing written. */
  predicate RunsBatches(s: Sess, names: seq<string>, size: nat, got: seq<map<string, string>>, xs: seq<Exchange>)
    requires size > 0 && AllValues(xs) && |got| + |xs| < BatchCount(|names|, size)
  {
    var a := Summoning(s, names, got);
    && StateAfter(a, xs) == Summoning(s, names, got + ParamsOf(xs))
    && Replies(a, xs) == BatchRequests(names, size, |got| + 1, |xs|)
    && Writes(a, xs) == []
  }

  /** While replies are outstanding, a run of value replies asks for the following batches one
      by one, accumulates what it is given and writes nothing. */
  lemma {:induction false} SummonRun(s: Sess, names: seq<string>, size: nat, got: seq<map<string, string>>,
                                     xs: seq<Exchange>)
    requires size == BatchSize(s.schema) && AllValues(xs) && |got| + |xs| < BatchCount(|names|, size)
    ensures RunsBatches(s, names, size, got, xs)
    decreases |xs|
  {
    if xs == [] {
      assert got + ParamsOf(xs) == got;
    } else {
      var p := xs[0].0.params;
      SummonStep(s, names, got, xs);
      SummonRun(s, names, size, got + [p], xs[1..]);
      assert got + [p] + ParamsOf(xs[1..]) == got + ([p] + ParamsOf(xs[1..]));
    }
  }

  /** What a summon leaves when s is the session it ends in: the values are stored, and the tasks for default parameters
      go before the pending ones. */
  predicate Stores(o: Outcome, s: Sess, params: map<string, string>, w: World) {
    && o.writes != [] && o.writes[0] == SaveParams(params)
    && var m, v := Learned(s), Facing(w, Known(s));
       Settles(o, Inject(m, Extra(m, v), v), FirstRunnable(Extra(m, v) + s.pending, v), v)
  }

  lemma SummonStores(s: Sess, params: map<string, string>, w: World)
    ensures Stores(EndSummon(s, params, w), s, params, w)
  {
    DefaultsGoFirst(Learned(s), Facing(w, Known(s)));
  }

  lemma DefaultsGoFirst(s: Sess, w: World)
    ensures Settles(GoOnWithDefaults(s, w), Inject(s, Extra(s, w), w), FirstRunnable(Extra(s, w) + s.pending, w), w)
  {
    DispatchPicksFirstRunnable(Inject(s, Extra(s, w), w), w);
  }

  lemma BatchesUsedUp(s: Sess, w: World)
    requires s.batch * BatchSize(s.schema) >= |s.names|
    ensures Stores(SendBatch(s, w), s.(summon := 0, names := [], params := map[]), s.params, w)
  {
    SummonStores(s.(summon := 0, names := [], params := map[]), s.params, w);
  }

  /** A targeted summon stores its values when it is a refresh, and only then adds default parameters. */
  lemma TargetedEnds(s: Sess, params: map<string, string>, collected: Option<Task>, w: World)
    requires s.summon == 4
    ensures var o, idle := ServeIn(s, ValuesResponse(params, collected), w), s.(summon := 0, targets := [],
      refresh := false);
      if s.refresh then Stores(o, idle, params, w) else o == DispatchNext(Learned(idle), Facing(w, Known(s)))
  {
    if s.refresh { SummonStores(s.(summon := 0, targets := [], refresh := false), params, w); }
  }

  lemma ValuesGoOn(s: Sess, names: seq<string>, replies: seq<map<string, string>>, params: map<string, string>,
                   collected: Option<Task>, w: World)
    ensures ServeIn(Summoning(s, names, replies), ValuesResponse(params, collected), w) ==
      SendBatch(Summoning(s, names, replies + [params]), w)
  {
    assert (replies + [params])[..|replies|] == replies;
  }

  /** The reply to the last batch saves everything accumulated, ends the summon and
      dispatches the injected and then the pending tasks. */
  lemma SummonEnds(s: Sess, names: seq<string>, replies: seq<map<string, string>>, params: map<string, string>,
                   collected: Option<Task>, w: World)
    requires |replies| + 1 == BatchCount(|names|, BatchSize(s.schema))
    ensures var o, more := ServeIn(Summoning(s, names, replies), ValuesResponse(params, collected), w),
      replies + [params];
      Stores(o, Summoning(s, names, more).(summon := 0, names := [], params := map[]), Merged(more), w)
  {
    var more := replies + [params];
    assert more[..|replies|] == replies;
    BatchCountBounds(|names|, BatchSize(s.schema), |more|);
    ValuesGoOn(s, names, replies, params, collected, w);
    BatchesUsedUp(Summoning(s, names, more), w);
  }

  /** The replies answer exactly what each batch asked for. */
  predicate AnswersBatches(names: seq<string>, size: nat, replies: seq<map<string, string>>)
    requires size > 0
  {
    && |replies| <= BatchCount(|names|, size)
    && forall j | 0 <= j < |replies| ::
         BatchCountBounds(|names|, size, j);
         replies[j].Keys == set n | n in Batch(names, size, j)
  }

  lemma {:induction false} KeysSoFar(names: seq<string>, size: nat, replies: seq<map<string, string>>)
    requires size > 0 && AnswersBatches(names, size, replies)
    ensures Merged(replies).Keys == set n | n in Laid(names, size, |replies|)
  {
    if replies != [] {
      var j := |replies| - 1;
      BatchCountBounds(|names|, size, j);
      KeysSoFar(names, size, replies[..j]);
      assert replies[j].Keys == set n | n in Batch(names, size, j);
    }
  }

  /** When every reply carries the names it was asked for, the parameters saved at the end
      are keyed by exactly the leaf names of the CPE. */
  lemma SummonCollectsEveryName(names: seq<string>, size: nat, replies: seq<map<string, string>>)
    requires size > 0 && AnswersBatches(names, size, replies) && |replies| == BatchCount(|names|, size)
    ensures Merged(replies).Keys == set n | n in names
  {
    KeysSoFar(names, size, replies);
    BatchesTileTheNames(names, size);
  }
}
