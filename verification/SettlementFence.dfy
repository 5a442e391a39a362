/** The reconciliation gate as a fence: once it is seen closed, a process starts no new send, and bad news closes it. */
module SettlementFence {
  import opened Journal
  import opened Settlement

  predicate Sending(task: Task) {
    task.Worker? && task.w.Send?
  }

  predicate NoneSending(s: State, p: Pid) {
    p in s.procs ==> forall t | t in s.procs[p].tasks :: !Sending(s.procs[p].tasks[t])
  }

  predicate Closed(s: State, p: Pid) {
    p in s.procs ==> !s.procs[p].gate
  }

  /** Process `p` takes this step and it is a first broadcast. */
  predicate Broadcasts(cfg: Config, s: State, step: Step, p: Pid) {
    && step.Run? && step.p == p
    && |Do(cfg, s, step).log| == |s.log| + 1
    && Do(cfg, s, step).log[|s.log|].Broadcast?
  }

  lemma TaskFenced(cfg: Config, d: Disk, t: Tid, task: Task, a: Answer)
    requires !Sending(task)
    ensures var e := TaskStep(cfg, d, false, t, task, a);
            !Sending(e.task) && (e.event.Some? ==> !e.event.value.Broadcast?)
  {
  }

  lemma StepFenced(cfg: Config, s: State, step: Step, p: Pid)
    requires NoneSending(s, p) && Closed(s, p)
    ensures NoneSending(Do(cfg, s, step), p) && !Broadcasts(cfg, s, step, p)
  {
    if step.Run? && step.p == p && p in s.procs && step.t in s.procs[p].tasks {
      TaskFenced(cfg, s.disk, step.t, s.procs[p].tasks[step.t], step.a);
    }
  }

  /** The gate of `p` was closed at every instant of the run, the last included. */
  predicate KeptClosed(cfg: Config, s: State, steps: seq<Step>, p: Pid) {
    Closed(Execute(cfg, s, steps), p) && (steps == [] || KeptClosed(cfg, s, steps[..|steps| - 1], p))
  }

  lemma {:induction false} StaysFenced(cfg: Config, s: State, steps: seq<Step>, p: Pid)
    requires NoneSending(s, p) && KeptClosed(cfg, s, steps, p)
    ensures NoneSending(Execute(cfg, s, steps), p)
  {
    if steps != [] {
      var before := steps[..|steps| - 1];
      StaysFenced(cfg, s, before, p);
      StepFenced(cfg, Execute(cfg, s, before), steps[|steps| - 1], p);
    }
  }

  /**
   From any state at all: while a process's gate stays closed and none of its workers had
   already passed the last check, its next step is no first broadcast, whatever it is asked.
   */
  lemma ClosedGateStopsSends(cfg: Config, s: State, steps: seq<Step>, p: Pid, next: Step)
    requires NoneSending(s, p) && KeptClosed(cfg, s, steps, p)
    ensures !Broadcasts(cfg, Execute(cfg, s, steps), next, p)
  {
    StaysFenced(cfg, s, steps, p);
    StepFenced(cfg, Execute(cfg, s, steps), next, p);
  }

  // ---- Bad news closes the gate ----

  /** Places from which the next step of a task closes its process's gate. */
  predicate Pausing(task: Task) {
    match task
    case Worker(_, w) => w.Pause?
    case Reconciler(r) => r.PauseCheck? || r.PauseLeave? || r.ReleaseFailed? || r.CloseGate? || r.Quarantine?
  }

  /** The answer to a store call that did not come back as done. */
  predicate NotDone(cfg: Config, d: Disk, call: Call, a: Answer) {
    !Store(cfg.chain, d, call, a.store).1
  }

  /** News after which a process must not take on settlements. */
  predicate BadNews(cfg: Config, d: Disk, task: Task, a: Answer) {
    match task
    case Worker(id, w) => (
      match w
      case Persist(s) => NotDone(cfg, d, MarkPrepared(id, s), a)
      case Recheck(_) => !a.ok
      case SubmitGate(_) => !a.ok
      case Submit(_) => NotDone(cfg, d, MarkSubmitted(id), a)
      case SendGate(_) => !a.ok
      case SendRecheck(_) => !a.ok
      case LastGate(_) => !a.ok
      case Send(_) => a.send.SendPending? || (a.send.SendFinal? && cfg.chain.Eip155?)
      case Finish(_, state, response) => NotDone(cfg, d, MarkTerminal(id, state, response), a)
      case Release => NotDone(cfg, d, MarkAwaitingRetry(id), a)
      case Reject(response) => NotDone(cfg, d, MarkRefused(id, response), a)
      case _ => false)
    case Reconciler(r) => (
      match r
      case Start => a.ok
      case ReleaseRow(p) =>
        && p.at < |p.rows| && p.rows[p.at].row.state.Reserved? && a.ok
        && NotDone(cfg, d, MarkAwaitingRetry(p.rows[p.at].id), a)
      case Query(p) =>
        && p.at < |p.rows| && p.rows[p.at].row.submission.Some?
        && (|| a.verdict.Indeterminate? || a.verdict.Conflict? || a.verdict.Ambiguous?
            || (a.verdict.FinalOutcome? && a.verdict.overrun && cfg.chain.Eip155?))
      case ResendRecheck(p) => p.at < |p.rows| && a.ok && !a.heads.Usable? && cfg.chain.Eip155?
      case Resend(p) =>
        && p.at < |p.rows| && p.rows[p.at].row.submission.Some?
        && a.send.SendFinal? && a.send.overrun && cfg.chain.Eip155?
      case FinishRow(p, state, response, onError, _) =>
        && p.at < |p.rows| && onError.ToPauseCheck?
        && NotDone(cfg, d, MarkTerminal(p.rows[p.at].id, state, response), a)
      case _ => false)
  }

  lemma BadNewsPauses(cfg: Config, d: Disk, gate: bool, t: Tid, task: Task, a: Answer)
    requires BadNews(cfg, d, task, a)
    ensures Pausing(TaskStep(cfg, d, gate, t, task, a).task)
  {
  }

  lemma PausingCloses(cfg: Config, d: Disk, gate: bool, t: Tid, task: Task, a: Answer)
    requires Pausing(task)
    ensures !TaskStep(cfg, d, gate, t, task, a).gate
  {
  }

  /** Steps that neither run task `t` nor end it or its process. */
  predicate Elsewhere(step: Step, p: Pid, t: Tid) {
    match step
    case Crash(q) => q != p
    case CancelPass(q, u) => q != p || u != t
    case Run(q, u, _) => q != p || u != t
    case _ => true
  }

  ghost predicate Has(s: State, p: Pid, t: Tid, task: Task) {
    p in s.procs && t in s.procs[p].tasks && s.procs[p].tasks[t] == task && t < s.nextTid
  }

  lemma ElsewhereKeeps(cfg: Config, s: State, step: Step, p: Pid, t: Tid, task: Task)
    requires Has(s, p, t, task) && Elsewhere(step, p, t)
    ensures Has(Do(cfg, s, step), p, t, task)
  {
  }

  lemma {:induction false} WaitsElsewhere(cfg: Config, s: State, steps: seq<Step>, p: Pid, t: Tid, task: Task)
    requires Has(s, p, t, task) && forall i | 0 <= i < |steps| :: Elsewhere(steps[i], p, t)
    ensures Has(Execute(cfg, s, steps), p, t, task)
  {
    if steps != [] {
      WaitsElsewhere(cfg, s, steps[..|steps| - 1], p, t, task);
      ElsewhereKeeps(cfg, Execute(cfg, s, steps[..|steps| - 1]), steps[|steps| - 1], p, t, task);
    }
  }

  /**
   From any state: once a worker or a pass got bad news, its very next step closes the gate of its process, whatever
   happened in between, unless it or its process ended first.
   */
  lemma BadNewsClosesGate(cfg: Config, s: State, p: Pid, t: Tid, task: Task, a: Answer, steps: seq<Step>, b: Answer)
    requires Has(s, p, t, task) && BadNews(cfg, s.disk, task, a)
    requires forall i | 0 <= i < |steps| :: Elsewhere(steps[i], p, t)
    ensures var r := Do(cfg, Execute(cfg, Do(cfg, s, Run(p, t, a)), steps), Run(p, t, b));
            p in r.procs && !r.procs[p].gate
  {
    var next := TaskStep(cfg, s.disk, s.procs[p].gate, t, task, a).task;
    BadNewsPauses(cfg, s.disk, s.procs[p].gate, t, task, a);
    AfterBadNews(cfg, s, p, t, task, a, next);
    WaitsElsewhere(cfg, Do(cfg, s, Run(p, t, a)), steps, p, t, next);
    PauseTaken(cfg, Execute(cfg, Do(cfg, s, Run(p, t, a)), steps), p, t, next, b);
  }

  lemma AfterBadNews(cfg: Config, s: State, p: Pid, t: Tid, task: Task, a: Answer, next: Task)
    requires Has(s, p, t, task) && BadNews(cfg, s.disk, task, a) && Pausing(next)
    requires next == TaskStep(cfg, s.disk, s.procs[p].gate, t, task, a).task
    ensures Has(Do(cfg, s, Run(p, t, a)), p, t, next)
  {
  }

  lemma PauseTaken(cfg: Config, s: State, p: Pid, t: Tid, task: Task, b: Answer)
    requires Has(s, p, t, task) && Pausing(task)
    ensures var r := Do(cfg, s, Run(p, t, b)); p in r.procs && !r.procs[p].gate
  {
    PausingCloses(cfg, s.disk, s.procs[p].gate, t, task, b);
  }
}
