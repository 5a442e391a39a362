/** Induction over runs for properties of the log alone: what a task has earned, and what preceded each event. */
module Traces {
  import opened Base
  import opened Settlement
  import opened SettlementSafety

  /** What holds of a task and the log so far, and of an event and the log before it. */
  type TaskFact = (seq<Event>, Tid, Task) -> bool
  type EventFact = (seq<Event>, Event) -> bool

  predicate Before(log: seq<Event>, t: Tid) {
    forall k | 0 <= k < |log| :: log[k].t < t
  }

  predicate NotOf(log: seq<Event>, t: Tid) {
    forall k | 0 <= k < |log| :: log[k].t != t
  }

  /** Facts about a task survive events of others, and hold of a task about which the log says nothing. */
  ghost predicate Lasting(taskOk: TaskFact) {
    && (forall log, more, t, task :: taskOk(log, t, task) && NotOf(more, t) ==> taskOk(log + more, t, task))
    && (forall log, t, id :: Before(log, t) ==> taskOk(log, t, Worker(id, Acquire)))
    && (forall log, t :: Before(log, t) ==> taskOk(log, t, Reconciler(Start)))
  }

  /** Each task step announces only events with the fact, as its own, and leaves a task with the fact. */
  ghost predicate Stepping(cfg: Config, taskOk: TaskFact, eventOk: EventFact) {
    forall d, log, gate, t, task, a :: taskOk(log, t, task) ==>
        StepsWell(cfg, taskOk, eventOk, d, log, gate, t, task, a)
  }

  ghost predicate StepsWell(cfg: Config, taskOk: TaskFact, eventOk: EventFact, d: Disk, log: seq<Event>, gate: bool,
                            t: Tid, task: Task, a: Answer)
  {
    var e := TaskStep(cfg, d, gate, t, task, a);
    && (e.event.Some? ==> e.event.value.t == t && eventOk(log, e.event.value))
    && taskOk(log + Logged(e.event), t, e.task)
  }

  ghost predicate Traced(taskOk: TaskFact, eventOk: EventFact, s: State) {
    && (forall p, t | p in s.procs && t in s.procs[p].tasks :: t < s.nextTid && taskOk(s.log, t, s.procs[p].tasks[t]))
    && (forall p, q, t | p in s.procs && q in s.procs && t in s.procs[p].tasks && t in s.procs[q].tasks :: p == q)
    && Before(s.log, s.nextTid)
    && (forall i | 0 <= i < |s.log| :: eventOk(s.log[..i], s.log[i]))
  }

  lemma LogExtends(eventOk: EventFact, log: seq<Event>, event: Option<Event>, n: Tid)
    requires Before(log, n) && forall i | 0 <= i < |log| :: eventOk(log[..i], log[i])
    requires event.Some? ==> event.value.t < n && eventOk(log, event.value)
    ensures var all := log + Logged(event); Before(all, n) && forall i | 0 <= i < |all| :: eventOk(all[..i], all[i])
  {
    var all := log + Logged(event);
    forall i | 0 <= i < |all| ensures eventOk(all[..i], all[i]) {
      assert all[..i] == log[..i];
      if i == |log| {
        assert log[..i] == log;
      }
    }
  }

  /** At most task `t` of process `p` changes, from `before` to `after`. */
  predicate OnlyTask(s: State, s': State, p: Pid, t: Tid, after: Task) {
    && s'.procs.Keys == s.procs.Keys && s'.nextTid == s.nextTid
    && forall q, u | q in s'.procs && u in s'.procs[q].tasks ::
         && q in s.procs && u in s.procs[q].tasks
         && s'.procs[q].tasks[u] == if q == p && u == t then after else s.procs[q].tasks[u]
  }

  lemma RunChangesOne(cfg: Config, s: State, p: Pid, t: Tid, a: Answer, e: Effect)
    requires p in s.procs && t in s.procs[p].tasks
    requires e == TaskStep(cfg, s.disk, s.procs[p].gate, t, s.procs[p].tasks[t], a)
    ensures var s' := Do(cfg, s, Run(p, t, a));
            || (s'.log == s.log && OnlyTask(s, s', p, t, s.procs[p].tasks[t]))
            || (s'.log == s.log + Logged(e.event) && OnlyTask(s, s', p, t, e.task))
  {
    var s', task := Do(cfg, s, Run(p, t, a)), s.procs[p].tasks[t];
    if Finished(task) || (Waiting(task) && s.procs[p].lock.Some?) {
      assert s.log + [] == s.log;
      assert OnlyTask(s, s', p, t, task);
    } else {
      assert s'.procs[p].tasks == s.procs[p].tasks - {t} || s'.procs[p].tasks == s.procs[p].tasks[t := e.task];
      assert OnlyTask(s, s', p, t, e.task);
    }
  }

  lemma OneMoved(taskOk: TaskFact, eventOk: EventFact, s: State, s': State, p: Pid, t: Tid, e: Effect)
    requires Lasting(taskOk) && Traced(taskOk, eventOk, s) && p in s.procs && t in s.procs[p].tasks
    requires s'.log == s.log + Logged(e.event) && OnlyTask(s, s', p, t, e.task)
    requires e.event.Some? ==> e.event.value.t == t && eventOk(s.log, e.event.value)
    requires taskOk(s'.log, t, e.task)
    ensures Traced(taskOk, eventOk, s')
  {
    LogExtends(eventOk, s.log, e.event, s.nextTid);
    forall q, u | q in s'.procs && u in s'.procs[q].tasks ensures taskOk(s'.log, u, s'.procs[q].tasks[u]) {
      if u != t {
        assert NotOf(Logged(e.event), u);
        assert taskOk(s.log, u, s.procs[q].tasks[u]);
      } else {
        assert q == p;
      }
    }
  }

  lemma RunTraced(cfg: Config, taskOk: TaskFact, eventOk: EventFact, s: State, p: Pid, t: Tid, a: Answer, e: Effect)
    requires Lasting(taskOk) && Traced(taskOk, eventOk, s) && p in s.procs && t in s.procs[p].tasks
    requires e == TaskStep(cfg, s.disk, s.procs[p].gate, t, s.procs[p].tasks[t], a)
    requires e.event.Some? ==> e.event.value.t == t && eventOk(s.log, e.event.value)
    requires taskOk(s.log + Logged(e.event), t, e.task)
    ensures Traced(taskOk, eventOk, Do(cfg, s, Run(p, t, a)))
  {
    var s' := Do(cfg, s, Run(p, t, a));
    RunChangesOne(cfg, s, p, t, a, e);
    if s'.log == s.log + Logged(e.event) && OnlyTask(s, s', p, t, e.task) {
      OneMoved(taskOk, eventOk, s, s', p, t, e);
    }
  }

  lemma TaskStepsWell(cfg: Config, taskOk: TaskFact, eventOk: EventFact, d: Disk, log: seq<Event>, gate: bool, t: Tid,
                      task: Task, a: Answer, e: Effect)
    requires Stepping(cfg, taskOk, eventOk) && taskOk(log, t, task) && e == TaskStep(cfg, d, gate, t, task, a)
    ensures e.event.Some? ==> e.event.value.t == t && eventOk(log, e.event.value)
    ensures taskOk(log + Logged(e.event), t, e.task)
  {
    assert StepsWell(cfg, taskOk, eventOk, d, log, gate, t, task, a);
  }

  lemma QuietTraced(cfg: Config, taskOk: TaskFact, eventOk: EventFact, s: State, step: Step)
    requires Lasting(taskOk) && Traced(taskOk, eventOk, s) && !step.Run?
    ensures Traced(taskOk, eventOk, Do(cfg, s, step))
  {
  }

  lemma StepTraced(cfg: Config, taskOk: TaskFact, eventOk: EventFact, s: State, step: Step)
    requires Lasting(taskOk) && Stepping(cfg, taskOk, eventOk) && Traced(taskOk, eventOk, s)
    ensures Traced(taskOk, eventOk, Do(cfg, s, step))
  {
    if !step.Run? {
      QuietTraced(cfg, taskOk, eventOk, s, step);
    } else if step.p in s.procs && step.t in s.procs[step.p].tasks {
      var task, gate := s.procs[step.p].tasks[step.t], s.procs[step.p].gate;
      var e := TaskStep(cfg, s.disk, gate, step.t, task, step.a);
      TaskStepsWell(cfg, taskOk, eventOk, s.disk, s.log, gate, step.t, task, step.a, e);
      RunTraced(cfg, taskOk, eventOk, s, step.p, step.t, step.a, e);
    }
  }

  /** Facts that every task step keeps hold of every task and every event of every run. */
  lemma {:induction false} EveryRunTraced(cfg: Config, taskOk: TaskFact, eventOk: EventFact, s: State, steps: seq<Step>)
    requires Initial(cfg, s) && Lasting(taskOk) && Stepping(cfg, taskOk, eventOk)
    ensures Traced(taskOk, eventOk, Execute(cfg, s, steps))
  {
    if steps != [] {
      var before := steps[..|steps| - 1];
      EveryRunTraced(cfg, taskOk, eventOk, s, before);
      StepTraced(cfg, taskOk, eventOk, Execute(cfg, s, before), steps[|steps| - 1]);
    }
  }
}
