/**
 A row is finished only on evidence: an answer about its own transaction, or the
 verification answer or journal mismatch that its worker refused it for. State, stored
 response and error code are exactly what that evidence says.
 */
module SettlementOutcome {
  import opened Base
  import opened Journal
  import opened Settlement
  import opened SettlementSafety

  /** Evidence of the first kind; it finishes a row without refusing it. */
  predicate AboutTransaction(e: Event) {
    e.Broadcast? || e.Rebroadcast? || e.Judged? || e.HeadsRead?
  }

  predicate SendSays(answer: SendAnswer, state: RowState, response: string) {
    || (answer.SendFinal? && state == Outcome(answer.success) && response == answer.response)
    || (answer.SendRejected? && state == Failed && response == answer.response)
  }

  /** Event `e` is evidence for finishing settlement `id` in `state` with `response`, by a refusal or not. */
  predicate Justifies(chain: ChainKind, e: Event, id: Id, state: RowState, response: string, refused: bool) {
    && !e.Scanned? && !e.Led? && e.id == id && (AboutTransaction(e) <==> !refused)
    && match e
       case Broadcast(_, _, _, _, answer) =>
         // On EVM the answer to a first broadcast can reject but never confirm.
         SendSays(answer, state, response) && (chain.Near? || answer.SendRejected?)
       case Rebroadcast(_, _, _, _, _, answer) => SendSays(answer, state, response)
       case Judged(_, _, _, verdict, _) =>
         verdict.FinalOutcome? && state == Outcome(verdict.success) && response == verdict.response
       case HeadsRead(_, _, _, heads, _) => heads.Expired? && state == Failed && response == heads.response
       case Verified(_, _, verify) => verify.Refused? && state == Failed && response == verify.response
       case Reread(_, _, seen, matches) =>
         state == Failed && response == MISMATCH && (!seen.state.Reserved? || !matches)
       case _ => false
  }

  predicate Justified(chain: ChainKind, log: seq<Event>, id: Id, state: RowState, response: string, refused: bool) {
    exists k | 0 <= k < |log| :: Justifies(chain, log[k], id, state, response, refused)
  }

  predicate CallJustified(chain: ChainKind, log: seq<Event>, c: Call) {
    && (c.MarkTerminal? ==> Justified(chain, log, c.id, c.state, c.response, false))
    && (c.MarkRefused? ==> Justified(chain, log, c.id, Failed, c.response, true))
  }

  /** A task about to finish a row holds the evidence for it. */
  predicate TaskJustified(chain: ChainKind, log: seq<Event>, task: Task) {
    match task
    case Worker(id, w) =>
      && (w.Finish? ==> Justified(chain, log, id, w.state, w.response, false))
      && (w.Reject? ==> Justified(chain, log, id, Failed, w.response, true))
    case Reconciler(r) =>
      (r.FinishRow? || r.Quarantine?) && r.pass.at < |r.pass.rows| ==>
        Justified(chain, log, r.pass.rows[r.pass.at].id, r.state, r.response, false)
  }

  predicate RowJustified(chain: ChainKind, log: seq<Event>, id: Id, row: Row) {
    Terminal(row.state) ==>
      row.response.Some? && Justified(chain, log, id, row.state, row.response.value, row.refused)
  }

  /** Rows already finished in `base` are taken as found. */
  predicate DiskJustified(chain: ChainKind, base: Table, log: seq<Event>, d: Disk) {
    && (forall k | k in d.table :: (k in base && Terminal(base[k].state)) || RowJustified(chain, log, k, d.table[k]))
    && (forall c | c in d.late :: CallJustified(chain, log, c))
  }

  predicate StateJustified(cfg: Config, base: Table, s: State) {
    && DiskJustified(cfg.chain, base, s.log, s.disk)
    && forall p, t | p in s.procs && t in s.procs[p].tasks :: TaskJustified(cfg.chain, s.log, s.procs[p].tasks[t])
  }

  lemma Grows(chain: ChainKind, log: seq<Event>, more: seq<Event>, id: Id, state: RowState, response: string,
              refused: bool)
    requires Justified(chain, log, id, state, response, refused)
    ensures Justified(chain, log + more, id, state, response, refused)
  {
    var k :| 0 <= k < |log| && Justifies(chain, log[k], id, state, response, refused);
    assert (log + more)[k] == log[k];
  }

  lemma TaskGrows(chain: ChainKind, log: seq<Event>, more: seq<Event>, task: Task)
    requires TaskJustified(chain, log, task)
    ensures TaskJustified(chain, log + more, task)
  {
    if task.Worker? && task.w.Finish? {
      Grows(chain, log, more, task.id, task.w.state, task.w.response, false);
    } else if task.Worker? && task.w.Reject? {
      Grows(chain, log, more, task.id, Failed, task.w.response, true);
    } else if task.Reconciler? && (task.r.FinishRow? || task.r.Quarantine?) && task.r.pass.at < |task.r.pass.rows| {
      Grows(chain, log, more, task.r.pass.rows[task.r.pass.at].id, task.r.state, task.r.response, false);
    }
  }

  lemma DiskGrows(chain: ChainKind, base: Table, log: seq<Event>, more: seq<Event>, d: Disk)
    requires DiskJustified(chain, base, log, d)
    ensures DiskJustified(chain, base, log + more, d)
  {
    forall k | k in d.table && !(k in base && Terminal(base[k].state))
      ensures RowJustified(chain, log + more, k, d.table[k])
    {
      assert RowJustified(chain, log, k, d.table[k]);
      if Terminal(d.table[k].state) {
        Grows(chain, log, more, k, d.table[k].state, d.table[k].response.value, d.table[k].refused);
      }
    }
    forall c | c in d.late ensures CallJustified(chain, log + more, c) {
      assert CallJustified(chain, log, c);
      if c.MarkTerminal? {
        Grows(chain, log, more, c.id, c.state, c.response, false);
      } else if c.MarkRefused? {
        Grows(chain, log, more, c.id, Failed, c.response, true);
      }
    }
  }

  /** A store call with evidence leaves a table with evidence, however it ends. */
  lemma StoreJustified(chain: ChainKind, base: Table, log: seq<Event>, d: Disk, c: Call, o: StoreOutcome)
    requires DiskJustified(chain, base, log, d) && CallJustified(chain, log, c)
    ensures DiskJustified(chain, base, log, Store(chain, d, c, o).0)
  {
    ApplyJustified(chain, base, log, d, c);
  }

  lemma ApplyJustified(chain: ChainKind, base: Table, log: seq<Event>, d: Disk, c: Call)
    requires DiskJustified(chain, base, log, d) && CallJustified(chain, log, c)
    ensures DiskJustified(chain, base, log, d.(table := Apply(chain, d.table, c).0))
  {
    var u := Apply(chain, d.table, c).0;
    forall k | k in u && !(k in base && Terminal(base[k].state)) ensures RowJustified(chain, log, k, u[k]) {
      assert k in d.table ==> RowJustified(chain, log, k, d.table[k]);
    }
  }

  predicate GoodOutcome(chain: ChainKind, base: Table, log: seq<Event>, e: Effect) {
    && DiskJustified(chain, base, log + Logged(e.event), e.disk)
    && TaskJustified(chain, log + Logged(e.event), e.task)
  }

  /** A write whose call is justified by what is announced with it. */
  lemma WriteJustified(cfg: Config, base: Table, d: Disk, log: seq<Event>, gate: bool, c: Call, o: StoreOutcome,
                       onOk: Task, onErr: Task, event: Option<Event>, e: Effect)
    requires DiskJustified(cfg.chain, base, log, d) && e == Write(cfg, d, gate, c, o, onOk, onErr, event)
    requires CallJustified(cfg.chain, log + Logged(event), c)
    requires TaskJustified(cfg.chain, log + Logged(event), onOk) && TaskJustified(cfg.chain, log + Logged(event), onErr)
    ensures GoodOutcome(cfg.chain, base, log, e)
  {
    DiskGrows(cfg.chain, base, log, Logged(event), d);
    StoreJustified(cfg.chain, base, log + Logged(event), d, c, o);
  }

  /** The event just announced is the evidence. */
  lemma Fresh(chain: ChainKind, log: seq<Event>, e: Event, id: Id, state: RowState, response: string, refused: bool)
    requires Justifies(chain, e, id, state, response, refused)
    ensures Justified(chain, log + Logged(Some(e)), id, state, response, refused)
  {
    assert (log + Logged(Some(e)))[|log|] == e;
  }

  lemma WorkerWriteJustified(cfg: Config, base: Table, d: Disk, log: seq<Event>, gate: bool, t: Tid, id: Id,
                             w: WorkerPc, a: Answer, e: Effect)
    requires DiskJustified(cfg.chain, base, log, d) && TaskJustified(cfg.chain, log, Worker(id, w))
    requires WorkerWrites(w) && e == WorkerStep(cfg, d, gate, t, id, w, a)
    ensures GoodOutcome(cfg.chain, base, log, e)
  {
    assert log + Logged(None) == log;
    var pause, leave := Worker(id, Pause), Worker(id, Leave);
    match w
    case Persist(s) =>
      WriteJustified(cfg, base, d, log, gate, MarkPrepared(id, s), a.store,
                     Worker(id, if cfg.chain.Near? then Recheck(s) else SubmitGate(s)), pause, None, e);
    case Submit(s) =>
      WriteJustified(cfg, base, d, log, gate, MarkSubmitted(id), a.store, Worker(id, SendGate(s)), pause, None, e);
    case Finish(s, state, response) =>
      WriteJustified(cfg, base, d, log, gate, MarkTerminal(id, state, response), a.store, leave, pause, None, e);
    case Release =>
      WriteJustified(cfg, base, d, log, gate, MarkAwaitingRetry(id), a.store, leave, pause, None, e);
    case Reject(response) =>
      Grows(cfg.chain, log, Logged(Some(Rejected(t, id, response, d.table))), id, Failed, response, true);
      WriteJustified(cfg, base, d, log, gate, MarkRefused(id, response), a.store, leave, pause,
                     Some(Rejected(t, id, response, d.table)), e);
  }

  /** A step without a journal write: the next task either finishes nothing or has just seen why. */
  lemma WorkerMoveJustified(cfg: Config, base: Table, d: Disk, log: seq<Event>, gate: bool, t: Tid, id: Id, w: WorkerPc,
                            a: Answer, e: Effect)
    requires DiskJustified(cfg.chain, base, log, d) && !WorkerWrites(w) && e == WorkerStep(cfg, d, gate, t, id, w, a)
    ensures GoodOutcome(cfg.chain, base, log, e)
  {
    DiskGrows(cfg.chain, base, log, Logged(e.event), d);
    if e.task.Worker? && e.task.w.Finish? {
      Fresh(cfg.chain, log, e.event.value, id, e.task.w.state, e.task.w.response, false);
    } else if e.task.Worker? && e.task.w.Reject? {
      Fresh(cfg.chain, log, e.event.value, id, Failed, e.task.w.response, true);
    }
  }

  lemma PassWriteJustified(cfg: Config, base: Table, d: Disk, log: seq<Event>, gate: bool, t: Tid, r: ReconcilerPc,
                           a: Answer, e: Effect)
    requires DiskJustified(cfg.chain, base, log, d) && TaskJustified(cfg.chain, log, Reconciler(r))
    requires PassWrites(r) && e == ReconcilerStep(cfg, d, gate, t, r, a)
    ensures GoodOutcome(cfg.chain, base, log, e)
  {
    assert log + Logged(None) == log;
    if e.disk != d || e.event.Some? {
      var p := r.pass;
      var id := p.rows[p.at].id;
      match r
      case ReleaseRow(_) =>
        WriteJustified(cfg, base, d, log, gate, MarkAwaitingRetry(id), a.store, Reconciler(ReleaseRow(Advance(p))),
                       Reconciler(ReleaseFailed(p)), Some(ReleaseTried(t, id)), e);
      case MarkRow(_) =>
        WriteJustified(cfg, base, d, log, gate, MarkSubmitted(id), a.store, Reconciler(ResendGate(p)),
                       Reconciler(Quit), None, e);
      case FinishRow(_, state, response, onError, onSuccess) =>
        WriteJustified(cfg, base, d, log, gate, MarkTerminal(id, state, response), a.store,
                       Reconciler(Continue(onSuccess, p)), Reconciler(Continue(onError, p)), None, e);
    }
  }

  lemma PassMoveJustified(cfg: Config, base: Table, d: Disk, log: seq<Event>, gate: bool, t: Tid, r: ReconcilerPc,
                          a: Answer, e: Effect)
    requires DiskJustified(cfg.chain, base, log, d) && TaskJustified(cfg.chain, log, Reconciler(r))
    requires !PassWrites(r) && e == ReconcilerStep(cfg, d, gate, t, r, a)
    ensures GoodOutcome(cfg.chain, base, log, e)
  {
    DiskGrows(cfg.chain, base, log, Logged(e.event), d);
    if r.Quarantine? {
      TaskGrows(cfg.chain, log, Logged(e.event), Reconciler(r));
    } else if e.task.r.FinishRow? || e.task.r.Quarantine? {
      var p := e.task.r.pass;
      Fresh(cfg.chain, log, e.event.value, p.rows[p.at].id, e.task.r.state, e.task.r.response, false);
    }
  }

  lemma TaskStepJustified(cfg: Config, base: Table, d: Disk, log: seq<Event>, gate: bool, t: Tid, task: Task, a: Answer,
                          e: Effect)
    requires DiskJustified(cfg.chain, base, log, d) && TaskJustified(cfg.chain, log, task)
    requires e == TaskStep(cfg, d, gate, t, task, a)
    ensures GoodOutcome(cfg.chain, base, log, e)
  {
    if task.Worker? {
      if WorkerWrites(task.w) {
        WorkerWriteJustified(cfg, base, d, log, gate, t, task.id, task.w, a, e);
      } else {
        WorkerMoveJustified(cfg, base, d, log, gate, t, task.id, task.w, a, e);
      }
    } else if PassWrites(task.r) {
      PassWriteJustified(cfg, base, d, log, gate, t, task.r, a, e);
    } else {
      PassMoveJustified(cfg, base, d, log, gate, t, task.r, a, e);
    }
  }

  lemma RunJustified(cfg: Config, base: Table, s: State, p: Pid, t: Tid, a: Answer)
    requires StateJustified(cfg, base, s) && p in s.procs && t in s.procs[p].tasks
    ensures StateJustified(cfg, base, Do(cfg, s, Run(p, t, a)))
  {
    var s' := Do(cfg, s, Run(p, t, a));
    var task := s.procs[p].tasks[t];
    assert s.log + [] == s.log;
    if !Finished(task) && !(Waiting(task) && s.procs[p].lock.Some?) {
      var e := TaskStep(cfg, s.disk, s.procs[p].gate, t, task, a);
      TaskStepJustified(cfg, base, s.disk, s.log, s.procs[p].gate, t, task, a, e);
      assert s'.log == s.log + Logged(e.event) && s'.disk == e.disk;
      forall q, u | q in s'.procs && u in s'.procs[q].tasks
        ensures TaskJustified(cfg.chain, s'.log, s'.procs[q].tasks[u])
      {
        if q != p || u != t {
          TaskGrows(cfg.chain, s.log, Logged(e.event), s.procs[q].tasks[u]);
        }
      }
    }
  }

  lemma StepJustified(cfg: Config, base: Table, s: State, step: Step)
    requires StateJustified(cfg, base, s)
    ensures StateJustified(cfg, base, Do(cfg, s, step))
  {
    if step.Run? && step.p in s.procs && step.t in s.procs[step.p].tasks {
      RunJustified(cfg, base, s, step.p, step.t, step.a);
    } else if step.Request? && step.p in s.procs && (step.call.Claim? || step.call.Resume?) {
      StoreJustified(cfg.chain, base, s.log, s.disk, step.call, step.store);
    } else if step.Land? && step.call in s.disk.late {
      ApplyJustified(cfg.chain, base, s.log, s.disk, step.call);
    }
  }

  lemma {:induction false} RunsJustified(cfg: Config, s: State, steps: seq<Step>)
    requires Initial(cfg, s) && s.disk.late == multiset{}
    ensures StateJustified(cfg, s.disk.table, Execute(cfg, s, steps))
  {
    if steps != [] {
      RunsJustified(cfg, s, steps[..|steps| - 1]);
      StepJustified(cfg, s.disk.table, Execute(cfg, s, steps[..|steps| - 1]), steps[|steps| - 1]);
    }
  }

  /** Whatever interleaving of processes and crashes: a row that finished in this run has evidence for its state and
      response. */
  lemma FinishedOnEvidence(cfg: Config, s: State, steps: seq<Step>, id: Id)
    requires Initial(cfg, s) && s.disk.late == multiset{}
    requires var t := Execute(cfg, s, steps).disk.table; id in t && Terminal(t[id].state)
    requires !(id in s.disk.table && Terminal(s.disk.table[id].state))
    ensures var r := Execute(cfg, s, steps);
            var row := r.disk.table[id];
            row.response.Some? && Justified(cfg.chain, r.log, id, row.state, row.response.value, row.refused)
  {
    RunsJustified(cfg, s, steps);
  }

  /** A node reported a final outcome of this kind. */
  predicate Reports(e: Event, ok: bool) {
    || ((e.Broadcast? || e.Rebroadcast?) && e.answer.SendFinal? && e.answer.success == ok)
    || (e.Judged? && e.verdict.FinalOutcome? && e.verdict.success == ok)
  }

  /** A success is recorded only if the chain reported success of exactly the journaled transaction. */
  lemma SuccessIsOfJournaledTransaction(cfg: Config, s: State, steps: seq<Step>, id: Id) returns (k: nat)
    requires Initial(cfg, s) && s.disk.late == multiset{}
    requires var t := Execute(cfg, s, steps).disk.table; id in t && t[id].state.Succeeded?
    requires !(id in s.disk.table && Terminal(s.disk.table[id].state))
    ensures var r := Execute(cfg, s, steps);
            && k < |r.log| && Reports(r.log[k], true) && r.log[k].id == id
            && r.disk.table[id].submission == Some(r.log[k].s)
            && (cfg.chain.Eip155? ==> !r.log[k].Broadcast?)
  {
    FinishedOnEvidence(cfg, s, steps, id);
    ReachableOk(cfg, s, steps);
    var r := Execute(cfg, s, steps);
    k :| 0 <= k < |r.log| && Justifies(cfg.chain, r.log[k], id, Succeeded, r.disk.table[id].response.value, false);
    assert StillJournaled(r.disk.table, r.log[k]);
  }
}
