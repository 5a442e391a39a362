/**
 The relayer lock is always given back: whoever holds it finishes within a number of its
 own steps that is fixed, for a pass in terms of the rows it loaded, whatever the store,
 the nodes and the other tasks do meanwhile.
 */
module SettlementProgress {
  import opened Base
  import opened Journal
  import opened Settlement
  import opened SettlementExclusion

  function WorkerRank(w: WorkerPc): (n: nat) {
    match w
    case Acquire => 16
    case FirstGate => 15
    case Verify => 14
    case Reload => 13
    case Sign(_) => 12
    case Liability(_) => 11
    case Persist(_) => 10
    case Recheck(_) => 9
    case SubmitGate(_) => 8
    case Submit(_) => 7
    case SendGate(_) => 6
    case SendRecheck(_) => 5
    case LastGate(_) => 4
    case Send(_) => 3
    case Finish(_, _, _) => 2
    case Release => 2
    case Reject(_) => 2
    case Pause => 1
    case Leave => 0
  }

  /** Rows the pass has not left behind, the current one included. */
  function Rest(p: Pass): (n: nat) {
    if p.at < |p.rows| then |p.rows| - p.at else 0
  }

  /** How far a pass can be from its end; only after the scan is the number of rows known. */
  function PassRank(r: ReconcilerPc): (n: nat) {
    match r
    case ReleaseRow(p) => 20 * |p.rows| + 24 + 2 * Rest(p)
    case ReleaseFailed(p) => 20 * |p.rows| + 25 + 2 * Rest(Advance(p))
    case NextRow(p) => 20 * Rest(p) + 23
    case Validate(p) => 20 * Rest(p) + 22
    case Query(p) => 20 * Rest(p) + 21
    case Heads(p) => 20 * Rest(p) + 20
    case MarkRow(p) => 20 * Rest(p) + 19
    case ResendGate(p) => 20 * Rest(p) + 18
    case ResendRecheck(p) => 20 * Rest(p) + 17
    case ResendLastGate(p) => 20 * Rest(p) + 16
    case Resend(p) => 20 * Rest(p) + 15
    case Quarantine(p, _, _) => 20 * Rest(p) + 14
    case FinishRow(p, _, _, _, _) => 20 * Rest(p) + 13
    case PauseCheck(p) => 20 * Rest(p) + 12
    case CheckRow(p) => 20 * Rest(p) + 11
    case Remaining => 2
    case PauseLeave => 1
    case OpenGate(_) => 1
    case _ => 0
  }

  /** A worker that holds the lock, or a pass that holds it and has scanned. */
  predicate Ranked(task: Task) {
    HoldsLock(task) && !(task.Reconciler? && task.r.Scan?)
  }

  function Rank(task: Task): (n: nat) {
    if task.Worker? then WorkerRank(task.w) else PassRank(task.r)
  }

  lemma WorkerSinks(cfg: Config, d: Disk, gate: bool, t: Tid, id: Id, w: WorkerPc, a: Answer)
    requires !w.Acquire? && !w.Leave?
    ensures var e := WorkerStep(cfg, d, gate, t, id, w, a); Ranked(e.task) && Rank(e.task) < WorkerRank(w)
  {
  }

  predicate Below(task: Task, n: nat) {
    Ranked(task) && Rank(task) < n
  }

  lemma ReleaseSinks(cfg: Config, d: Disk, gate: bool, t: Tid, p: Pass, a: Answer)
    ensures Below(ReleaseStep(cfg, d, gate, t, p, a).task, PassRank(ReleaseRow(p)))
  {
  }

  lemma NextRowSinks(d: Disk, gate: bool, p: Pass, a: Answer)
    ensures Below(NextRowStep(d, gate, p, a).task, PassRank(NextRow(p)))
  {
  }

  lemma CheckSinks(d: Disk, gate: bool, p: Pass, a: Answer)
    ensures Below(CheckStep(d, gate, p, a).task, PassRank(CheckRow(p)))
  {
  }

  lemma ValidateSinks(cfg: Config, d: Disk, gate: bool, p: Pass, a: Answer)
    ensures Below(ValidateStep(cfg, d, gate, p, a).task, PassRank(Validate(p)))
  {
  }

  lemma QuerySinks(cfg: Config, d: Disk, gate: bool, t: Tid, p: Pass, a: Answer)
    ensures Below(QueryStep(cfg, d, gate, t, p, a).task, PassRank(Query(p)))
  {
  }

  lemma HeadsSinks(d: Disk, gate: bool, t: Tid, p: Pass, a: Answer)
    ensures Below(HeadsStep(d, gate, t, p, a).task, PassRank(Heads(p)))
  {
  }

  lemma MarkSinks(cfg: Config, d: Disk, gate: bool, p: Pass, a: Answer)
    ensures Below(MarkStep(cfg, d, gate, p, a).task, PassRank(MarkRow(p)))
  {
  }

  lemma ResendSinks(cfg: Config, d: Disk, gate: bool, t: Tid, p: Pass, a: Answer)
    ensures Below(ResendStep(cfg, d, gate, t, p, a).task, PassRank(Resend(p)))
  {
  }

  lemma ContinueSinks(next: Then, p: Pass)
    ensures Ranked(Reconciler(Continue(next, p))) && PassRank(Continue(next, p)) <= 20 * Rest(p) + 12
  {
  }

  lemma FinishSinks(cfg: Config, d: Disk, gate: bool, r: ReconcilerPc, a: Answer)
    requires r.FinishRow?
    ensures Below(FinishStep(cfg, d, gate, r.pass, r.state, r.response, r.onError, r.onSuccess, a).task, PassRank(r))
  {
    ContinueSinks(r.onError, r.pass);
    ContinueSinks(r.onSuccess, r.pass);
  }

  lemma PauseSinks(cfg: Config, d: Disk, gate: bool, t: Tid, r: ReconcilerPc, a: Answer)
    requires r.ReleaseFailed? || r.Quarantine? || r.PauseCheck?
    ensures Below(ReconcilerStep(cfg, d, gate, t, r, a).task, PassRank(r))
  {
  }

  lemma GateSinks(cfg: Config, d: Disk, gate: bool, t: Tid, r: ReconcilerPc, a: Answer)
    requires r.ResendGate? || r.ResendRecheck? || r.ResendLastGate?
    ensures Below(ReconcilerStep(cfg, d, gate, t, r, a).task, PassRank(r))
  {
  }

  lemma EndSinks(cfg: Config, d: Disk, gate: bool, t: Tid, r: ReconcilerPc, a: Answer)
    requires r.Remaining? || r.PauseLeave? || r.OpenGate?
    ensures Below(ReconcilerStep(cfg, d, gate, t, r, a).task, PassRank(r))
  {
  }

  lemma PassSinks(cfg: Config, d: Disk, gate: bool, t: Tid, r: ReconcilerPc, a: Answer)
    requires Ranked(Reconciler(r)) && !r.Quit?
    ensures Below(ReconcilerStep(cfg, d, gate, t, r, a).task, PassRank(r))
  {
    match r
    case ReleaseRow(p) => ReleaseSinks(cfg, d, gate, t, p, a);
    case NextRow(p) => NextRowSinks(d, gate, p, a);
    case Validate(p) => ValidateSinks(cfg, d, gate, p, a);
    case Query(p) => QuerySinks(cfg, d, gate, t, p, a);
    case Heads(p) => HeadsSinks(d, gate, t, p, a);
    case MarkRow(p) => MarkSinks(cfg, d, gate, p, a);
    case Resend(p) => ResendSinks(cfg, d, gate, t, p, a);
    case FinishRow(_, _, _, _, _) => FinishSinks(cfg, d, gate, r, a);
    case CheckRow(p) => CheckSinks(d, gate, p, a);
    case ReleaseFailed(_) => PauseSinks(cfg, d, gate, t, r, a);
    case Quarantine(_, _, _) => PauseSinks(cfg, d, gate, t, r, a);
    case PauseCheck(_) => PauseSinks(cfg, d, gate, t, r, a);
    case ResendGate(_) => GateSinks(cfg, d, gate, t, r, a);
    case ResendRecheck(_) => GateSinks(cfg, d, gate, t, r, a);
    case ResendLastGate(_) => GateSinks(cfg, d, gate, t, r, a);
    case _ => EndSinks(cfg, d, gate, t, r, a);
  }

  lemma TaskSinks(cfg: Config, d: Disk, gate: bool, t: Tid, task: Task, a: Answer)
    requires Ranked(task) && !Finished(task)
    ensures var e := TaskStep(cfg, d, gate, t, task, a); Ranked(e.task) && Rank(e.task) < Rank(task)
  {
    if task.Worker? {
      WorkerSinks(cfg, d, gate, t, task.id, task.w, a);
    } else {
      PassSinks(cfg, d, gate, t, task.r, a);
    }
  }

  predicate Present(s: State, p: Pid, t: Tid) {
    p in s.procs && t in s.procs[p].tasks
  }

  predicate IsOwn(step: Step, p: Pid, t: Tid) {
    step.Run? && step.p == p && step.t == t
  }

  /** Its own step brings a lock holder closer to its end, or is its end. */
  lemma OwnStepSinks(cfg: Config, s: State, p: Pid, t: Tid, a: Answer)
    requires Present(s, p, t) && Ranked(s.procs[p].tasks[t])
    ensures var s' := Do(cfg, s, Run(p, t, a));
            && s'.nextTid == s.nextTid
            && (Present(s', p, t) ==>
                  Ranked(s'.procs[p].tasks[t]) && Rank(s'.procs[p].tasks[t]) < Rank(s.procs[p].tasks[t]))
  {
    if !Finished(s.procs[p].tasks[t]) {
      TaskSinks(cfg, s.disk, s.procs[p].gate, t, s.procs[p].tasks[t], a);
    }
  }

  /** Any other step leaves a task as it is, or ends it; one that is gone never comes back. */
  lemma OtherStepLeaves(cfg: Config, s: State, step: Step, p: Pid, t: Tid)
    requires t < s.nextTid && !IsOwn(step, p, t)
    ensures var s' := Do(cfg, s, step);
            && s'.nextTid >= s.nextTid
            && (Present(s', p, t) ==> Present(s, p, t) && s'.procs[p].tasks[t] == s.procs[p].tasks[t])
  {
  }

  /** How often task `t` of process `p` was given a step from position `m` on. */
  function OwnSteps(steps: seq<Step>, m: nat, p: Pid, t: Tid): (n: nat) {
    if |steps| <= m then 0
    else OwnSteps(steps[..|steps| - 1], m, p, t) + if IsOwn(steps[|steps| - 1], p, t) then 1 else 0
  }

  lemma {:induction false} Sinks(cfg: Config, s: State, steps: seq<Step>, m: nat, p: Pid, t: Tid, r0: State, r: State)
    requires m <= |steps| && r0 == Execute(cfg, s, steps[..m]) && r == Execute(cfg, s, steps)
    requires Present(r0, p, t) && t < r0.nextTid && Ranked(r0.procs[p].tasks[t])
    ensures t < r.nextTid
    ensures Present(r, p, t) ==>
              && Ranked(r.procs[p].tasks[t])
              && OwnSteps(steps, m, p, t) + Rank(r.procs[p].tasks[t]) <= Rank(r0.procs[p].tasks[t])
    decreases |steps|
  {
    if |steps| == m {
      assert steps[..m] == steps;
    } else {
      var before, step := steps[..|steps| - 1], steps[|steps| - 1];
      assert before[..m] == steps[..m];
      var mid := Execute(cfg, s, before);
      Sinks(cfg, s, before, m, p, t, r0, mid);
      if !IsOwn(step, p, t) {
        OtherStepLeaves(cfg, mid, step, p, t);
      } else if Present(mid, p, t) {
        OwnStepSinks(cfg, mid, p, t, step.a);
      }
    }
  }

  /** In any run a lock holder given more steps of its own than its rank is gone, and does not hold the lock. */
  lemma HolderFinishes(cfg: Config, s: State, steps: seq<Step>, m: nat, p: Pid, t: Tid)
    requires Initial(cfg, s) && m <= |steps|
    requires Present(Execute(cfg, s, steps[..m]), p, t) && Ranked(Execute(cfg, s, steps[..m]).procs[p].tasks[t])
    requires OwnSteps(steps, m, p, t) > Rank(Execute(cfg, s, steps[..m]).procs[p].tasks[t])
    ensures var r := Execute(cfg, s, steps);
            !Present(r, p, t) && (p in r.procs ==> r.procs[p].lock != Some(t))
  {
    ReachableExclusion(cfg, s, steps[..m], p);
    Sinks(cfg, s, steps, m, p, t, Execute(cfg, s, steps[..m]), Execute(cfg, s, steps));
    ReachableExclusion(cfg, s, steps, p);
  }

  /** A pass that has loaded `n` rows gives the lock back within `22 * n + 25` of its own steps. */
  lemma PassGivesLockBack(cfg: Config, s: State, steps: seq<Step>, m: nat, p: Pid, t: Tid, pass: Pass)
    requires Initial(cfg, s) && m <= |steps| && Present(Execute(cfg, s, steps[..m]), p, t)
    requires Execute(cfg, s, steps[..m]).procs[p].tasks[t] == Reconciler(ReleaseRow(pass))
    requires OwnSteps(steps, m, p, t) >= 22 * |pass.rows| + 25
    ensures var r := Execute(cfg, s, steps);
            !Present(r, p, t) && (p in r.procs ==> r.procs[p].lock != Some(t))
  {
    HolderFinishes(cfg, s, steps, m, p, t);
  }

  /** A worker that has taken the lock gives it back within sixteen of its own steps. */
  lemma WorkerGivesLockBack(cfg: Config, s: State, steps: seq<Step>, m: nat, p: Pid, t: Tid)
    requires Initial(cfg, s) && m <= |steps| && Present(Execute(cfg, s, steps[..m]), p, t)
    requires var task := Execute(cfg, s, steps[..m]).procs[p].tasks[t]; task.Worker? && !task.w.Acquire?
    requires OwnSteps(steps, m, p, t) >= 16
    ensures var r := Execute(cfg, s, steps);
            !Present(r, p, t) && (p in r.procs ==> r.procs[p].lock != Some(t))
  {
    HolderFinishes(cfg, s, steps, m, p, t);
  }
}
