/**
 What the engine achieves when nothing interferes: a task alone with its lock, whose store calls are acknowledged and
 whose gates pass. The answers of the nodes are a function of its place, so that every row has its own.
 */
module SettlementCompletes {
  import opened Base
  import opened Journal
  import opened Settlement

  type Environment = Task -> Answer

  /** What one task sees of its process and of the journal. */
  datatype Place = Place(disk: Disk, gate: bool, task: Task)

  function Next(cfg: Config, env: Environment, t: Tid, c: Place): (r: Place) {
    var e := TaskStep(cfg, c.disk, c.gate, t, c.task, env(c.task));
    Place(e.disk, e.gate, e.task)
  }

  function Machine(cfg: Config, env: Environment, t: Tid): (f: Place -> Place) {
    c => Next(cfg, env, t, c)
  }

  function Play(f: Place -> Place, c: Place, n: nat): (r: Place) {
    if n == 0 then c else f(Play(f, c, n - 1))
  }

  ghost predicate Reaches(f: Place -> Place, c: Place, c': Place) {
    exists n: nat :: Play(f, c, n) == c'
  }

  lemma {:induction false} PlayOn(f: Place -> Place, c: Place, m: nat, n: nat)
    ensures Play(f, Play(f, c, m), n) == Play(f, c, m + n)
  {
    if n > 0 {
      PlayOn(f, c, m, n - 1);
    }
  }

  lemma ReachesOn(f: Place -> Place, a: Place, b: Place, c: Place)
    requires Reaches(f, a, b) && Reaches(f, b, c)
    ensures Reaches(f, a, c)
  {
    var m: nat :| Play(f, a, m) == b;
    var n: nat :| Play(f, b, n) == c;
    PlayOn(f, a, m, n);
  }

  /** A list of places, each the next of the one before, is walked. */
  lemma {:induction false} Walk(f: Place -> Place, places: seq<Place>)
    requires |places| > 0
    requires forall i | 0 < i < |places| :: f(places[i - 1]) == places[i]
    ensures Reaches(f, places[0], places[|places| - 1])
  {
    var last := |places| - 1;
    if last == 0 {
      assert Play(f, places[0], 0) == places[0];
    } else {
      Walk(f, places[..last]);
      var n: nat :| Play(f, places[0], n) == places[last - 1];
      assert Play(f, places[0], n + 1) == places[last];
    }
  }

  /** Two such lists, with a way from the end of one to the start of the other. */
  lemma Detour(f: Place -> Place, before: seq<Place>, after: seq<Place>)
    requires |before| > 0 && |after| > 0 && Reaches(f, before[|before| - 1], after[0])
    requires forall i | 0 < i < |before| :: f(before[i - 1]) == before[i]
    requires forall i | 0 < i < |after| :: f(after[i - 1]) == after[i]
    ensures Reaches(f, before[0], after[|after| - 1])
  {
    Walk(f, before);
    Walk(f, after);
    ReachesOn(f, before[0], before[|before| - 1], after[0]);
    ReachesOn(f, before[0], after[0], after[|after| - 1]);
  }

  /** The store acknowledges, gates pass and reads succeed; a second look at the nonce finds it unused. */
  ghost predicate Cooperative(env: Environment) {
    forall x :: env(x).ok && env(x).store.Acknowledged?
        && (x.Reconciler? && x.r.ResendRecheck? ==> env(x).heads.Usable?)
  }

  /** Task `t` of process `p` is at this place and has the lock. */
  predicate Stands(s: State, p: Pid, t: Tid, c: Place) {
    && p in s.procs && t in s.procs[p].tasks && s.procs[p].tasks[t] == c.task && HoldsLock(c.task)
    && s.disk == c.disk && s.procs[p].gate == c.gate
  }

  lemma KeepsLock(cfg: Config, d: Disk, gate: bool, t: Tid, task: Task, a: Answer)
    requires HoldsLock(task)
    ensures HoldsLock(TaskStep(cfg, d, gate, t, task, a).task)
  {
    match task
    case Worker(id, w) => WorkerKeepsLock(cfg, d, gate, t, id, w, a);
    case Reconciler(r) => PassKeepsLock(cfg, d, gate, t, r, a);
  }

  lemma WorkerKeepsLock(cfg: Config, d: Disk, gate: bool, t: Tid, id: Id, w: WorkerPc, a: Answer)
    ensures HoldsLock(WorkerStep(cfg, d, gate, t, id, w, a).task)
  {
  }

  lemma PassKeepsLock(cfg: Config, d: Disk, gate: bool, t: Tid, r: ReconcilerPc, a: Answer)
    requires HoldsLock(Reconciler(r))
    ensures HoldsLock(ReconcilerStep(cfg, d, gate, t, r, a).task)
  {
  }

  lemma StandsOn(cfg: Config, env: Environment, s: State, p: Pid, t: Tid, c: Place)
    requires Stands(s, p, t, c) && !Finished(c.task)
    ensures Stands(Do(cfg, s, Run(p, t, env(c.task))), p, t, Next(cfg, env, t, c))
  {
    KeepsLock(cfg, c.disk, c.gate, t, c.task, env(c.task));
    assert !Waiting(c.task);
  }

  /** Steps chosen by place keep a relation between what they lead to and what the machine plays. */
  lemma {:induction false} Follows(run: seq<Step> -> State, step: Place -> Step, kind: Step -> bool,
                                   stands: (State, Place) -> bool, f: Place -> Place, c: Place, n: nat)
    returns (steps: seq<Step>)
    requires stands(run([]), c) && forall here :: kind(step(here))
    requires forall steps, here :: stands(run(steps), here) && f(here) != here ==>
               stands(run(steps + [step(here)]), f(here))
    ensures stands(run(steps), Play(f, c, n))
    ensures forall i | 0 <= i < |steps| :: kind(steps[i])
  {
    if n == 0 {
      steps := [];
    } else {
      steps := Follows(run, step, kind, stands, f, c, n - 1);
      var here := Play(f, c, n - 1);
      if f(here) != here {
        steps := steps + [step(here)];
      }
    }
  }

  /** What a task reaches alone, a run of the system reaches: one that runs this task only. */
  lemma ReachedByRun(cfg: Config, env: Environment, s: State, p: Pid, t: Tid, c: Place, c': Place)
    returns (steps: seq<Step>)
    requires Stands(s, p, t, c) && Reaches(Machine(cfg, env, t), c, c')
    ensures forall i | 0 <= i < |steps| :: steps[i].Run? && steps[i].p == p && steps[i].t == t
    ensures Stands(Execute(cfg, s, steps), p, t, c')
  {
    var n: nat :| Play(Machine(cfg, env, t), c, n) == c';
    var run := (steps: seq<Step>) => Execute(cfg, s, steps);
    var step := (here: Place) => Run(p, t, env(here.task));
    var stands := (s: State, here: Place) => Stands(s, p, t, here);
    forall steps: seq<Step>, here: Place | stands(run(steps), here) && Machine(cfg, env, t)(here) != here
      ensures stands(run(steps + [step(here)]), Machine(cfg, env, t)(here))
    {
      StandsAfter(cfg, env, s, steps, p, t, here);
    }
    var kind := (step: Step) => step.Run? && step.p == p && step.t == t;
    steps := Follows(run, step, kind, stands, Machine(cfg, env, t), c, n);
  }

  lemma StandsAfter(cfg: Config, env: Environment, s: State, steps: seq<Step>, p: Pid, t: Tid, here: Place)
    requires Stands(Execute(cfg, s, steps), p, t, here) && Next(cfg, env, t, here) != here
    ensures Stands(Execute(cfg, s, steps + [Run(p, t, env(here.task))]), p, t, Next(cfg, env, t, here))
  {
    var step := Run(p, t, env(here.task));
    StandsOn(cfg, env, Execute(cfg, s, steps), p, t, here);
    assert (steps + [step])[..|steps|] == steps;
  }

  function At(id: Id, w: WorkerPc): (x: Task) {
    Worker(id, w)
  }

  /** What a worker alone leaves: the row and whether the gate is still open. */
  function WorkerResult(cfg: Config, env: Environment, id: Id, row: Row): (r: (Row, bool)) {
    var s := env(At(id, Sign(row))).submission;
    var verify := env(At(id, Verify)).verify;
    if verify.RpcAmbiguous? then (row.(state := AwaitingRetry), true)
    else if verify.Refused? then
      (row.(state := Failed, response := Some(verify.response), refused := true), true)
    else if !env(At(id, Reload)).identityMatches then
      (row.(state := Failed, response := Some(MISMATCH), refused := true), true)
    else if cfg.chain.Eip155? && !Covered(cfg, env(At(id, Liability(s))).l1) then (row.(state := AwaitingRetry), true)
    else
      var sent := row.(submission := Some(s), submitted := true, refused := false);
      match env(At(id, Send(s))).send
      case SendFinal(success, response, _) =>
        if cfg.chain.Near? then (sent.(state := Outcome(success), response := Some(response)), true)
        else (row.(state := Submitted, submission := Some(s), submitted := true), false)
      case SendRejected(response) => (sent.(state := Failed, response := Some(response)), true)
      case SendPending => (row.(state := Submitted, submission := Some(s), submitted := true), false)
  }

  /** A worker alone with a reserved row takes it exactly where its answers say, and no other row anywhere. */
  lemma WorkerSettles(cfg: Config, env: Environment, t: Tid, id: Id, d: Disk)
    requires Cooperative(env) && id in d.table && d.table[id].state.Reserved?
    requires NonceFree(d.table, id, env(At(id, Sign(d.table[id]))).submission)
    ensures var (row, gate) := WorkerResult(cfg, env, id, d.table[id]);
            Reaches(Machine(cfg, env, t), Place(d, true, Worker(id, FirstGate)),
                    Place(d.(table := d.table[id := row]), gate, Worker(id, Leave)))
  {
    var row := d.table[id];
    var r := WorkerResult(cfg, env, id, row);
    var end := Place(d.(table := d.table[id := r.0]), r.1, Worker(id, Leave));
    var first, verify := Place(d, true, Worker(id, FirstGate)), Place(d, true, Worker(id, Verify));
    var f := Machine(cfg, env, t);
    match env(At(id, Verify)).verify
    case RpcAmbiguous => Walk(f, [first, verify, Place(d, true, Worker(id, Release)), end]);
    case Refused(response) => Walk(f, [first, verify, Place(d, true, Worker(id, Reject(response))), end]);
    case Accepted =>
      var reload, sign := Place(d, true, Worker(id, Reload)), Place(d, true, Worker(id, Sign(row)));
      if !env(At(id, Reload)).identityMatches {
        Walk(f, [first, verify, reload, Place(d, true, Worker(id, Reject(MISMATCH))), end]);
      } else {
        SignerSettles(cfg, env, t, id, d, end);
        Walk(f, [first, verify, reload, sign]);
        ReachesOn(f, first, sign, end);
      }
  }

  lemma SignerSettles(cfg: Config, env: Environment, t: Tid, id: Id, d: Disk, end: Place)
    requires Cooperative(env) && id in d.table && d.table[id].state.Reserved?
    requires NonceFree(d.table, id, env(At(id, Sign(d.table[id]))).submission)
    requires env(At(id, Verify)).verify.Accepted? && env(At(id, Reload)).identityMatches
    requires var r := WorkerResult(cfg, env, id, d.table[id]);
             end == Place(d.(table := d.table[id := r.0]), r.1, Worker(id, Leave))
    ensures Reaches(Machine(cfg, env, t), Place(d, true, Worker(id, Sign(d.table[id]))), end)
  {
    var row := d.table[id];
    var s := env(At(id, Sign(row))).submission;
    var sign := Place(d, true, Worker(id, Sign(row)));
    var persist := Place(d, true, Worker(id, Persist(s)));
    if cfg.chain.Near? {
      Walk(Machine(cfg, env, t), [sign, persist]);
      PersistedSettles(cfg, env, t, id, d, s, end);
      ReachesOn(Machine(cfg, env, t), sign, persist, end);
    } else {
      var liability := Place(d, true, Worker(id, Liability(s)));
      if Covered(cfg, env(At(id, Liability(s))).l1) {
        Walk(Machine(cfg, env, t), [sign, liability, persist]);
        PersistedSettles(cfg, env, t, id, d, s, end);
        ReachesOn(Machine(cfg, env, t), sign, persist, end);
      } else {
        Walk(Machine(cfg, env, t), [sign, liability, Place(d, true, Worker(id, Release)), end]);
      }
    }
  }

  /** The row after its bytes were journaled and its submission marked. */
  function Sent(row: Row, s: Submission): (r: Row) {
    row.(state := Submitted, submission := Some(s), submitted := true)
  }

  lemma MarksSubmitted(cfg: Config, env: Environment, t: Tid, id: Id, d: Disk, s: Submission)
    requires Cooperative(env) && id in d.table && d.table[id].state.Reserved? && NonceFree(d.table, id, s)
    ensures Reaches(Machine(cfg, env, t), Place(d, true, Worker(id, Persist(s))),
                    Place(d.(table := d.table[id := Sent(d.table[id], s)]), true, Worker(id, SendGate(s))))
  {
    var prepared := d.(table := d.table[id := d.table[id].(state := Prepared, submission := Some(s))]);
    var persist, gate := Place(d, true, Worker(id, Persist(s))), Place(prepared, true, Worker(id, SubmitGate(s)));
    var submit := Place(prepared, true, Worker(id, Submit(s)));
    var end := Place(d.(table := d.table[id := Sent(d.table[id], s)]), true, Worker(id, SendGate(s)));
    assert prepared.table[id := Sent(d.table[id], s)] == end.disk.table;
    assert Next(cfg, env, t, gate) == submit && Next(cfg, env, t, submit) == end;
    if cfg.chain.Near? {
      Walk(Machine(cfg, env, t), [persist, Place(prepared, true, Worker(id, Recheck(s))), gate, submit, end]);
    } else {
      Walk(Machine(cfg, env, t), [persist, gate, submit, end]);
    }
  }

  lemma PassesSendGates(cfg: Config, env: Environment, t: Tid, id: Id, d: Disk, s: Submission)
    requires Cooperative(env)
    ensures Reaches(Machine(cfg, env, t), Place(d, true, Worker(id, SendGate(s))), Place(d, true, Worker(id, Send(s))))
  {
    var gate, send := Place(d, true, Worker(id, SendGate(s))), Place(d, true, Worker(id, Send(s)));
    if cfg.chain.Near? {
      Walk(Machine(cfg, env, t), [gate, send]);
    } else {
      var recheck, last := Place(d, true, Worker(id, SendRecheck(s))), Place(d, true, Worker(id, LastGate(s)));
      Walk(Machine(cfg, env, t), [gate, recheck, last, send]);
    }
  }

  lemma PersistedSettles(cfg: Config, env: Environment, t: Tid, id: Id, d: Disk, s: Submission, end: Place)
    requires Cooperative(env) && id in d.table && d.table[id].state.Reserved?
    requires s == env(At(id, Sign(d.table[id]))).submission && NonceFree(d.table, id, s)
    requires env(At(id, Verify)).verify.Accepted? && env(At(id, Reload)).identityMatches
    requires cfg.chain.Eip155? ==> Covered(cfg, env(At(id, Liability(s))).l1)
    requires var r := WorkerResult(cfg, env, id, d.table[id]);
             end == Place(d.(table := d.table[id := r.0]), r.1, Worker(id, Leave))
    ensures Reaches(Machine(cfg, env, t), Place(d, true, Worker(id, Persist(s))), end)
  {
    var row := d.table[id];
    var submitted := d.(table := d.table[id := Sent(row, s)]);
    var persist, gate := Place(d, true, Worker(id, Persist(s))), Place(submitted, true, Worker(id, SendGate(s)));
    var send := Place(submitted, true, Worker(id, Send(s)));
    var r := WorkerResult(cfg, env, id, row);
    assert submitted.table[id := r.0] == d.table[id := r.0];
    SenderSettles(cfg, env, t, id, submitted, s, end);
    MarksSubmitted(cfg, env, t, id, d, s);
    PassesSendGates(cfg, env, t, id, submitted, s);
    ReachesOn(Machine(cfg, env, t), persist, gate, send);
    ReachesOn(Machine(cfg, env, t), persist, send, end);
  }

  lemma SenderSettles(cfg: Config, env: Environment, t: Tid, id: Id, d: Disk, s: Submission, end: Place)
    requires Cooperative(env) && id in d.table && d.table[id].state.Submitted?
    requires var a := env(At(id, Send(s))).send;
             end == if a.SendPending? || (a.SendFinal? && cfg.chain.Eip155?) then Place(d, false, Worker(id, Leave))
                    else Place(d.(table := d.table[id := d.table[id].(
                                  state := Outcome(a.SendFinal? && a.success), response := Some(a.response),
                                  refused := false)]), true, Worker(id, Leave))
    ensures Reaches(Machine(cfg, env, t), Place(d, true, Worker(id, Send(s))), end)
  {
    var send := Place(d, true, Worker(id, Send(s)));
    var next := Next(cfg, env, t, send);
    Walk(Machine(cfg, env, t), [send, next, end]);
  }
}
