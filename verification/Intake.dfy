/** Assignments from the dashboard: held back until the attachments are current, then
    handled in the order received, each answered once. */
module Intake {
  import opened Wrappers
  import opened Admission
  import opened RunRecords

  datatype Frame = Frame(runId: string, runnerId: string, content: string)

  datatype Context = Context(dashboardUrl: string, instanceId: string)

  datatype Answer = AnswerAccepted(runId: string) | AnswerRejected(runId: string)

  // Whether a frame passes validation and its workspace can be resolved.
  datatype Checks = Checks(valid: Frame -> bool, workspace: (Frame, Context) -> bool)

  datatype Desk = Desk(pending: seq<Frame>, context: Option<Context>, execution: Admission.State, answers: seq<Answer>)

  predicate Passes(f: Frame, ctx: Context, k: Checks) {
    k.valid(f) && k.workspace(f, ctx)
  }

  function Executed(x: Admission.State, f: Frame, ctx: Context, k: Checks, l: Limits): Admission.State {
    if Passes(f, ctx, k) then Admitted(x, f.runId, f.runnerId, l) else Refused(x, f.runId, f.runnerId, l)
  }

  function AnswerTo(x: Admission.State, f: Frame, ctx: Context, k: Checks, l: Limits): Answer {
    if Passes(f, ctx, k) && VerdictOn(x, f.runId, f.runnerId, l).Accepted? then AnswerAccepted(f.runId)
    else AnswerRejected(f.runId)
  }

  function Handled(s: Desk, f: Frame, ctx: Context, k: Checks, l: Limits): Desk {
    s.(execution := Executed(s.execution, f, ctx, k, l),
       answers := s.answers + [AnswerTo(s.execution, f, ctx, k, l)])
  }

  function HandledAll(s: Desk, frames: seq<Frame>, ctx: Context, k: Checks, l: Limits): Desk {
    if frames == [] then s
    else Handled(HandledAll(s, frames[..|frames| - 1], ctx, k, l), frames[|frames| - 1], ctx, k, l)
  }

  function Received(s: Desk, f: Frame, k: Checks, l: Limits): Desk {
    if s.context.None? then s.(pending := s.pending + [f]) else Handled(s, f, s.context.value, k, l)
  }

  function MadeReady(s: Desk, ctx: Context, k: Checks, l: Limits): Desk {
    HandledAll(s.(pending := [], context := Some(ctx)), s.pending, ctx, k, l)
  }

  class DashboardAssignmentIntake {
    const checks: Checks
    const execution: PairedExecution
    var pending: seq<Frame>
    var context: Option<Context>
    var answers: seq<Answer>

    function Value(): Desk
      reads this, execution
    {
      Desk(pending, context, execution.Value(), answers)
    }

    constructor (execution: PairedExecution, checks: Checks)
      ensures this.execution == execution && this.checks == checks
      ensures Value() == Desk([], None, execution.Value(), [])
    {
      this.execution, this.checks := execution, checks;
      pending, context, answers := [], None, [];
    }

    method Handle(f: Frame, ctx: Context)
      modifies this`answers, execution
      ensures Value() == Handled(old(Value()), f, ctx, checks, execution.limits)
    {
      if !checks.valid(f) || !checks.workspace(f, ctx) {
        execution.RejectAssignment(f.runId, f.runnerId);
        answers := answers + [AnswerRejected(f.runId)];
        return;
      }
      var verdict := execution.AdmitAssignment(f.runId, f.runnerId);
      answers := answers + [if verdict.Accepted? then AnswerAccepted(f.runId) else AnswerRejected(f.runId)];
    }

    method Drain()
      requires context.Some?
      modifies this`pending, this`answers, execution
      ensures Value() == HandledAll(old(Value()).(pending := []), old(pending), context.value, checks, execution.limits)
    {
      ghost var frames, start := pending, Value().(pending := []);
      ghost var n := 0;
      while |pending| > 0
        invariant n <= |frames| && pending == frames[n..] && context == old(context)
        invariant Value().(pending := []) == HandledAll(start, frames[..n], context.value, checks, execution.limits)
        decreases |pending|
      {
        var frame := pending[0];
        pending := pending[1..];
        Handle(frame, context.value);
        assert frames[..n + 1][..n] == frames[..n];
        n := n + 1;
      }
      assert frames[..n] == frames;
    }

    method Receive(f: Frame)
      modifies this`pending, this`answers, execution
      ensures Value() == Received(old(Value()), f, checks, execution.limits)
    {
      if context.None? {
        pending := pending + [f];
        return;
      }
      Handle(f, context.value);
    }

    method MarkReady(ctx: Context)
      modifies this, execution
      ensures Value() == MadeReady(old(Value()), ctx, checks, execution.limits)
    {
      context := Some(ctx);
      Drain();
    }

    method MarkNotReady()
      modifies this`context
      ensures Value() == old(Value()).(context := None)
    {
      context := None;
    }
  }

  // ------------------------------------------------------------ whole runs

  datatype Action =
    | Receive(frame: Frame)
    | MarkReady(context: Context)
    | MarkNotReady
    | Execution(action: Admission.Action)

  // What the intake went through, and the frames received, in order.
  datatype World = World(state: Desk, received: seq<Frame>)

  const START := World(Desk([], None, Admission.START, []), [])

  ghost predicate Possible(w: World, a: Action) {
    a.Execution? ==> Admission.Possible(w.state.execution, a.action)
  }

  function After(w: World, a: Action, k: Checks, l: Limits): World {
    match a
    case Receive(f) => World(Received(w.state, f, k, l), w.received + [f])
    case MarkReady(ctx) => w.(state := MadeReady(w.state, ctx, k, l))
    case MarkNotReady => w.(state := w.state.(context := None))
    case Execution(x) => w.(state := w.state.(execution := Admission.After(w.state.execution, x, l)))
  }

  predicate Answers(answers: seq<Answer>, frames: seq<Frame>) {
    |answers| == |frames| && forall i :: 0 <= i < |frames| ==> answers[i].runId == frames[i].runId
  }

  // Answered in order, one answer a frame, and the rest still waiting; nothing waits
  // while the intake is ready.
  ghost predicate Inv(w: World, l: Limits) {
    var n := |w.state.answers|;
    && n <= |w.received| && Answers(w.state.answers, w.received[..n]) && w.state.pending == w.received[n..]
    && (w.state.context.Some? ==> w.state.pending == [])
    && Admission.Inv(w.state.execution, l)
  }

  lemma ExecutedInv(x: Admission.State, f: Frame, ctx: Context, k: Checks, l: Limits)
    requires Admission.Inv(x, l)
    ensures Admission.Inv(Executed(x, f, ctx, k, l), l)
  {
    AdmitInv(x, f.runId, f.runnerId, l);
    RefusedInv(x, f.runId, f.runnerId, l);
  }

  lemma {:induction false} HandledAllInv(s: Desk, frames: seq<Frame>, ctx: Context, k: Checks, l: Limits)
    requires Admission.Inv(s.execution, l)
    ensures Admission.Inv(HandledAll(s, frames, ctx, k, l).execution, l)
  {
    if frames != [] {
      HandledAllInv(s, frames[..|frames| - 1], ctx, k, l);
      ExecutedInv(HandledAll(s, frames[..|frames| - 1], ctx, k, l).execution, frames[|frames| - 1], ctx, k, l);
    }
  }

  lemma {:induction false} HandledAllAnswers(s: Desk, frames: seq<Frame>, ctx: Context, k: Checks, l: Limits,
                                             done: seq<Frame>)
    requires Answers(s.answers, done)
    ensures var t := HandledAll(s, frames, ctx, k, l);
            t.pending == s.pending && t.context == s.context && Answers(t.answers, done + frames)
  {
    if frames == [] {
      assert done + frames == done;
    } else {
      var front, last := frames[..|frames| - 1], frames[|frames| - 1];
      HandledAllAnswers(s, front, ctx, k, l, done);
      assert done + frames == (done + front) + [last];
    }
  }

  lemma ReadyKeepsInv(w: World, ctx: Context, k: Checks, l: Limits)
    requires Inv(w, l)
    ensures Inv(After(w, MarkReady(ctx), k, l), l)
  {
    var s := w.state.(pending := [], context := Some(ctx));
    var done := w.received[..|w.state.answers|];
    HandledAllInv(s, w.state.pending, ctx, k, l);
    HandledAllAnswers(s, w.state.pending, ctx, k, l, done);
    assert done + w.state.pending == w.received;
    var t := MadeReady(w.state, ctx, k, l);
    assert w.received[..|t.answers|] == w.received && w.received[|t.answers|..] == [];
  }

  lemma StepKeepsInv(w: World, a: Action, k: Checks, l: Limits)
    requires Inv(w, l) && Possible(w, a)
    ensures Inv(After(w, a, k, l), l)
  {
    match a {
      case Receive(f) =>
        if w.state.context.Some? { ExecutedInv(w.state.execution, f, w.state.context.value, k, l); }
      case MarkReady(ctx) => ReadyKeepsInv(w, ctx, k, l);
      case MarkNotReady =>
      case Execution(x) => Admission.StepKeepsInv(w.state.execution, x, l);
    }
  }

  ghost predicate StepOf(w: World, a: Action, k: Checks, l: Limits, v: World) {
    Possible(w, a) && v == After(w, a, k, l)
  }

  ghost predicate Trace(worlds: seq<World>, actions: seq<Action>, k: Checks, l: Limits) {
    && |worlds| == |actions| + 1 && worlds[0] == START
    && forall i :: 0 <= i < |actions| ==> StepOf(worlds[i], actions[i], k, l, worlds[i + 1])
  }

  // However readiness comes and goes and runs end meanwhile: frames are answered in
  // the order received, none twice and none lost, and none waits while ready.
  lemma {:induction false} AnsweredInOrder(worlds: seq<World>, actions: seq<Action>, k: Checks, l: Limits, n: nat)
    requires Trace(worlds, actions, k, l) && n < |worlds|
    ensures Inv(worlds[n], l)
  {
    if n > 0 {
      AnsweredInOrder(worlds, actions, k, l, n - 1);
      TraceStep(worlds, actions, k, l, n - 1);
    }
  }

  lemma TraceStep(worlds: seq<World>, actions: seq<Action>, k: Checks, l: Limits, n: nat)
    requires Trace(worlds, actions, k, l) && n < |actions| && Inv(worlds[n], l)
    ensures Inv(worlds[n + 1], l)
  {
    assert StepOf(worlds[n], actions[n], k, l, worlds[n + 1]);
    StepKeepsInv(worlds[n], actions[n], k, l);
  }

  // -------------------------------------------- what the answers say

  // A frame handled gets one answer, which accepts it exactly if it passes the checks, its
  // run is not active, and its runner has room.
  lemma AcceptedIff(s: Desk, f: Frame, ctx: Context, k: Checks, l: Limits)
    ensures var t, n := Handled(s, f, ctx, k, l), |s.answers|;
            && |t.answers| == n + 1 && t.answers[..n] == s.answers && t.answers[n].runId == f.runId
            && (t.answers[n].AnswerAccepted? <==>
                  && k.valid(f) && k.workspace(f, ctx) && f.runId !in s.execution.active
                  && |Bucket(s.execution, f.runnerId)| < l.maxConcurrentRuns)
  {
  }

  // The answer tells whether the record of its frame was rejected.
  predicate AnswerTells(answer: Answer, f: Frame, r: Record) {
    && answer.runId == f.runId == r.runId && r.runnerId == f.runnerId
    && (answer.AnswerAccepted? <==> !r.status.Rejected?)
  }

  // Record number at[i] is that of the i-th frame.
  ghost predicate OnRecord(s: Desk, frames: seq<Frame>, at: seq<nat>) {
    && |at| == |s.answers| <= |frames|
    && (forall i, j | 0 <= i < j < |at| :: at[i] < at[j])
    && forall i | 0 <= i < |at| ::
         at[i] < |s.execution.records| && AnswerTells(s.answers[i], frames[i], s.execution.records[at[i]])
  }

  lemma HandledRecorded(s: Desk, f: Frame, ctx: Context, k: Checks, l: Limits, frames: seq<Frame>, at: seq<nat>)
    requires OnRecord(s, frames, at) && |s.answers| < |frames| && frames[|s.answers|] == f
    ensures OnRecord(Handled(s, f, ctx, k, l), frames, at + [|s.execution.records|])
  {
  }

  lemma {:induction false} HandledAllRecorded(s: Desk, more: seq<Frame>, ctx: Context, k: Checks, l: Limits,
                                              frames: seq<Frame>, at: seq<nat>) returns (bt: seq<nat>)
    requires OnRecord(s, frames, at) && frames[|s.answers|..] == more
    ensures OnRecord(HandledAll(s, more, ctx, k, l), frames, bt)
  {
    bt := HandledSomeRecorded(s, more, ctx, k, l, frames, at, |more|);
    assert more[..|more|] == more;
  }

  lemma {:induction false} HandledSomeRecorded(s: Desk, more: seq<Frame>, ctx: Context, k: Checks, l: Limits,
                                               frames: seq<Frame>, at: seq<nat>, n: nat) returns (bt: seq<nat>)
    requires OnRecord(s, frames, at) && frames[|s.answers|..] == more && n <= |more|
    ensures OnRecord(HandledAll(s, more[..n], ctx, k, l), frames, bt)
    ensures |HandledAll(s, more[..n], ctx, k, l).answers| == |s.answers| + n
  {
    if n == 0 {
      bt := at;
    } else {
      bt := HandledSomeRecorded(s, more, ctx, k, l, frames, at, n - 1);
      assert more[..n][..n - 1] == more[..n - 1];
      var t := HandledAll(s, more[..n - 1], ctx, k, l);
      assert frames[|t.answers|] == more[n - 1];
      HandledRecorded(t, more[n - 1], ctx, k, l, frames, bt);
      bt := bt + [|t.execution.records|];
    }
  }

  // A step of the execution rejects no record later, and takes no rejection back.
  lemma ExecutionRecorded(s: Desk, x: Admission.Action, l: Limits, frames: seq<Frame>, at: seq<nat>)
    requires OnRecord(s, frames, at) && Admission.Inv(s.execution, l) && Admission.Possible(s.execution, x)
    ensures OnRecord(s.(execution := Admission.After(s.execution, x, l)), frames, at)
  {
    forall i | 0 <= i < |at|
      ensures at[i] < |Admission.After(s.execution, x, l).records|
      ensures AnswerTells(s.answers[i], frames[i], Admission.After(s.execution, x, l).records[at[i]])
    {
      StatusChange(s.execution, x, l, at[i]);
      if s.execution.records[at[i]].status.Rejected? { assert s.execution.phases[at[i]].NotRun?; }
    }
  }

  lemma ReceiveRecorded(w: World, f: Frame, k: Checks, l: Limits, at: seq<nat>) returns (bt: seq<nat>)
    requires OnRecord(w.state, w.received, at) && Inv(w, l)
    ensures var v := After(w, Receive(f), k, l); OnRecord(v.state, v.received, bt)
  {
    assert OnRecord(w.state, w.received + [f], at);
    if w.state.context.None? {
      bt := at;
    } else {
      HandledRecorded(w.state, f, w.state.context.value, k, l, w.received + [f], at);
      bt := at + [|w.state.execution.records|];
    }
  }

  lemma StepRecorded(w: World, a: Action, k: Checks, l: Limits, at: seq<nat>) returns (bt: seq<nat>)
    requires OnRecord(w.state, w.received, at) && Inv(w, l) && Possible(w, a)
    ensures var v := After(w, a, k, l); OnRecord(v.state, v.received, bt)
  {
    match a {
      case Receive(f) => bt := ReceiveRecorded(w, f, k, l, at);
      case MarkReady(ctx) =>
        var s := w.state.(pending := [], context := Some(ctx));
        bt := HandledAllRecorded(s, w.state.pending, ctx, k, l, w.received, at);
      case MarkNotReady => bt := at;
      case Execution(x) =>
        ExecutionRecorded(w.state, x, l, w.received, at);
        bt := at;
    }
  }

  // In every run each frame answered has a record of its own, in the same order, and was
  // answered as accepted exactly if that record is not rejected, now and ever after.
  lemma {:induction false} AnswersAreTrue(worlds: seq<World>, actions: seq<Action>, k: Checks, l: Limits, n: nat)
      returns (at: seq<nat>)
    requires Trace(worlds, actions, k, l) && n < |worlds|
    ensures OnRecord(worlds[n].state, worlds[n].received, at)
  {
    if n == 0 {
      at := [];
    } else {
      var before := AnswersAreTrue(worlds, actions, k, l, n - 1);
      AnsweredInOrder(worlds, actions, k, l, n - 1);
      assert StepOf(worlds[n - 1], actions[n - 1], k, l, worlds[n - 1 + 1]);
      at := StepRecorded(worlds[n - 1], actions[n - 1], k, l, before);
    }
  }
}
