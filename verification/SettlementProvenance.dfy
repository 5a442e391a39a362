/** Where the bytes of a send come from: a signature for that settlement earlier in the run, or what the run started
    with. */
module SettlementProvenance {
  import opened Base
  import opened Journal
  import opened Settlement
  import opened SettlementSafety
  import EvmFees

  predicate SignedIn(log: seq<Event>, id: Id, s: Submission) {
    exists k | 0 <= k < |log| :: log[k].Signed? && log[k].id == id && log[k].s == s
  }

  /** The run started with these bytes journaled, or with a store call outstanding that journals them. */
  predicate Inherited(base: Disk, id: Id, s: Submission) {
    Journaled(base.table, id, s) || MarkPrepared(id, s) in base.late
  }

  /** The run priced these bytes within the reservation. */
  predicate PricedIn(cfg: Config, log: seq<Event>, id: Id, s: Submission) {
    exists k | 0 <= k < |log| :: log[k].Priced? && log[k].id == id && log[k].s == s && Covered(cfg, log[k].l1)
  }

  /** Inherited, or signed in this run and, on EVM, priced in it. */
  predicate Sourced(cfg: Config, base: Disk, log: seq<Event>, id: Id, s: Submission) {
    Inherited(base, id, s) || (SignedIn(log, id, s) && (cfg.chain.Eip155? ==> PricedIn(cfg, log, id, s)))
  }

  /** A worker about to journal bytes signed them and had them priced. */
  predicate TaskSourced(cfg: Config, base: Disk, log: seq<Event>, task: Task) {
    && (task.Worker? && task.w.Liability? ==> SignedIn(log, task.id, task.w.s))
    && (task.Worker? && task.w.Persist? ==> Sourced(cfg, base, log, task.id, task.w.s))
  }

  predicate DiskSourced(cfg: Config, base: Disk, log: seq<Event>, d: Disk) {
    && (forall k | k in d.table && d.table[k].submission.Some? ::
        Sourced(cfg, base, log, k, d.table[k].submission.value))
    && (forall c | c in d.late && c.MarkPrepared? :: Sourced(cfg, base, log, c.id, c.submission))
  }

  predicate LogSourced(cfg: Config, base: Disk, log: seq<Event>) {
    forall i | 0 <= i < |log| && IsSend(log[i]) :: Sourced(cfg, base, log[..i], log[i].id, log[i].s)
  }

  predicate StateSourced(cfg: Config, base: Disk, s: State) {
    && DiskSourced(cfg, base, s.log, s.disk)
    && LogSourced(cfg, base, s.log)
    && forall p, t | p in s.procs && t in s.procs[p].tasks :: TaskSourced(cfg, base, s.log, s.procs[p].tasks[t])
  }

  lemma SignedGrows(log: seq<Event>, more: seq<Event>, id: Id, s: Submission)
    requires SignedIn(log, id, s)
    ensures SignedIn(log + more, id, s)
  {
    var k :| 0 <= k < |log| && log[k].Signed? && log[k].id == id && log[k].s == s;
    assert (log + more)[k] == log[k];
  }

  lemma PricedGrows(cfg: Config, log: seq<Event>, more: seq<Event>, id: Id, s: Submission)
    requires PricedIn(cfg, log, id, s)
    ensures PricedIn(cfg, log + more, id, s)
  {
    var k :| 0 <= k < |log| && log[k].Priced? && log[k].id == id && log[k].s == s && Covered(cfg, log[k].l1);
    assert (log + more)[k] == log[k];
  }

  lemma Grows(cfg: Config, base: Disk, log: seq<Event>, more: seq<Event>, id: Id, s: Submission)
    requires Sourced(cfg, base, log, id, s)
    ensures Sourced(cfg, base, log + more, id, s)
  {
    if !Inherited(base, id, s) {
      SignedGrows(log, more, id, s);
      if cfg.chain.Eip155? {
        PricedGrows(cfg, log, more, id, s);
      }
    }
  }

  lemma DiskGrows(cfg: Config, base: Disk, log: seq<Event>, more: seq<Event>, d: Disk)
    requires DiskSourced(cfg, base, log, d)
    ensures DiskSourced(cfg, base, log + more, d)
  {
    forall k | k in d.table && d.table[k].submission.Some?
      ensures Sourced(cfg, base, log + more, k, d.table[k].submission.value)
    {
      Grows(cfg, base, log, more, k, d.table[k].submission.value);
    }
    forall c | c in d.late && c.MarkPrepared? ensures Sourced(cfg, base, log + more, c.id, c.submission) {
      Grows(cfg, base, log, more, c.id, c.submission);
    }
  }

  lemma TaskGrows(cfg: Config, base: Disk, log: seq<Event>, more: seq<Event>, task: Task)
    requires TaskSourced(cfg, base, log, task)
    ensures TaskSourced(cfg, base, log + more, task)
  {
    if task.Worker? && task.w.Liability? {
      SignedGrows(log, more, task.id, task.w.s);
    } else if task.Worker? && task.w.Persist? {
      Grows(cfg, base, log, more, task.id, task.w.s);
    }
  }

  /** A send carries what its row journals, and that was sourced before. */
  lemma LogGrows(cfg: Config, base: Disk, log: seq<Event>, d: Disk, event: Option<Event>)
    requires LogSourced(cfg, base, log) && DiskSourced(cfg, base, log, d)
    requires event.Some? && IsSend(event.value) ==> Journaled(d.table, event.value.id, event.value.s)
    ensures LogSourced(cfg, base, log + Logged(event))
  {
    var all := log + Logged(event);
    forall i | 0 <= i < |all| && IsSend(all[i]) ensures Sourced(cfg, base, all[..i], all[i].id, all[i].s) {
      assert all[..i] == log[..i];
      if i == |log| {
        assert log[..i] == log;
      }
    }
  }

  lemma ApplySourced(cfg: Config, base: Disk, log: seq<Event>, d: Disk, c: Call)
    requires DiskSourced(cfg, base, log, d) && (c.MarkPrepared? ==> Sourced(cfg, base, log, c.id, c.submission))
    ensures DiskSourced(cfg, base, log, d.(table := Apply(cfg.chain, d.table, c).0))
  {
    var u := Apply(cfg.chain, d.table, c).0;
    forall k | k in u && u[k].submission.Some? ensures Sourced(cfg, base, log, k, u[k].submission.value) {
      assert (k in d.table && d.table[k].submission == u[k].submission) || c == MarkPrepared(k, u[k].submission.value);
    }
  }

  lemma StoreSourced(cfg: Config, base: Disk, log: seq<Event>, d: Disk, c: Call, o: StoreOutcome)
    requires DiskSourced(cfg, base, log, d) && (c.MarkPrepared? ==> Sourced(cfg, base, log, c.id, c.submission))
    ensures DiskSourced(cfg, base, log, Store(cfg.chain, d, c, o).0)
  {
    ApplySourced(cfg, base, log, d, c);
  }

  /** What one task step leaves, given what it held. */
  predicate GoodSource(cfg: Config, base: Disk, log: seq<Event>, e: Effect) {
    DiskSourced(cfg, base, log, e.disk) && TaskSourced(cfg, base, log + Logged(e.event), e.task)
  }

  lemma PersistSourced(cfg: Config, base: Disk, d: Disk, log: seq<Event>, gate: bool, t: Tid, id: Id, s: Submission,
                       a: Answer)
    requires DiskSourced(cfg, base, log, d) && Sourced(cfg, base, log, id, s)
    ensures GoodSource(cfg, base, log, WorkerStep(cfg, d, gate, t, id, Persist(s), a))
  {
    StoreSourced(cfg, base, log, d, MarkPrepared(id, s), a.store);
  }

  lemma WorkerWriteSourced(cfg: Config, base: Disk, d: Disk, log: seq<Event>, gate: bool, t: Tid, id: Id, w: WorkerPc,
                           a: Answer)
    requires DiskSourced(cfg, base, log, d) && WorkerWrites(w) && !w.Persist?
    ensures GoodSource(cfg, base, log, WorkerStep(cfg, d, gate, t, id, w, a))
  {
    match w
    case Submit(_) => StoreSourced(cfg, base, log, d, MarkSubmitted(id), a.store);
    case Finish(_, state, response) => StoreSourced(cfg, base, log, d, MarkTerminal(id, state, response),
                                                    a.store);
    case Release => StoreSourced(cfg, base, log, d, MarkAwaitingRetry(id), a.store);
    case Reject(response) => StoreSourced(cfg, base, log, d, MarkRefused(id, response), a.store);
  }

  lemma WorkerMoveSourced(cfg: Config, base: Disk, d: Disk, log: seq<Event>, gate: bool, t: Tid, id: Id, w: WorkerPc,
                          a: Answer, e: Effect)
    requires DiskSourced(cfg, base, log, d) && TaskSourced(cfg, base, log, Worker(id, w))
    requires !WorkerWrites(w) && e == WorkerStep(cfg, d, gate, t, id, w, a)
    ensures GoodSource(cfg, base, log, e)
  {
    var all := log + Logged(e.event);
    if e.event.Some? {
      assert all[|log|] == e.event.value;
    }
    if w.Liability? {
      SignedGrows(log, Logged(e.event), id, w.s);
    }
  }

  lemma PassWriteSourced(cfg: Config, base: Disk, d: Disk, log: seq<Event>, gate: bool, t: Tid, r: ReconcilerPc,
                         a: Answer)
    requires DiskSourced(cfg, base, log, d) && PassWrites(r)
    ensures DiskSourced(cfg, base, log, ReconcilerStep(cfg, d, gate, t, r, a).disk)
  {
    if r.pass.at < |r.pass.rows| {
      var id := r.pass.rows[r.pass.at].id;
      match r
      case ReleaseRow(_) => StoreSourced(cfg, base, log, d, MarkAwaitingRetry(id), a.store);
      case MarkRow(_) => StoreSourced(cfg, base, log, d, MarkSubmitted(id), a.store);
      case FinishRow(_, state, response, _, _) =>
        StoreSourced(cfg, base, log, d, MarkTerminal(id, state, response), a.store);
    }
  }

  lemma PassStaysPass(cfg: Config, d: Disk, gate: bool, t: Tid, r: ReconcilerPc, a: Answer)
    ensures var e := ReconcilerStep(cfg, d, gate, t, r, a); e.task.Reconciler? && (!PassWrites(r) ==> e.disk == d)
  {
  }

  lemma PassSourced(cfg: Config, base: Disk, d: Disk, log: seq<Event>, gate: bool, t: Tid, r: ReconcilerPc, a: Answer,
                    e: Effect)
    requires DiskSourced(cfg, base, log, d) && e == ReconcilerStep(cfg, d, gate, t, r, a)
    ensures GoodSource(cfg, base, log, e)
  {
    PassStaysPass(cfg, d, gate, t, r, a);
    if PassWrites(r) {
      PassWriteSourced(cfg, base, d, log, gate, t, r, a);
    }
  }

  lemma TaskStepSourced(cfg: Config, base: Disk, d: Disk, log: seq<Event>, gate: bool, t: Tid, task: Task, a: Answer,
                        e: Effect)
    requires DiskSourced(cfg, base, log, d) && TaskSourced(cfg, base, log, task)
             && e == TaskStep(cfg, d, gate, t, task, a)
    ensures GoodSource(cfg, base, log, e)
  {
    if task.Reconciler? {
      PassSourced(cfg, base, d, log, gate, t, task.r, a, e);
    } else if task.w.Persist? {
      PersistSourced(cfg, base, d, log, gate, t, task.id, task.w.s, a);
    } else if WorkerWrites(task.w) {
      WorkerWriteSourced(cfg, base, d, log, gate, t, task.id, task.w, a);
    } else {
      WorkerMoveSourced(cfg, base, d, log, gate, t, task.id, task.w, a, e);
    }
  }

  /** From `s` to `s'` at most task `t` of process `p` changed, by effect `e`. */
  predicate Took(s: State, s': State, p: Pid, t: Tid, e: Effect) {
    && s'.disk == e.disk && s'.log == s.log + Logged(e.event)
    && forall q, u | q in s'.procs && u in s'.procs[q].tasks ::
         || (q == p && u == t && s'.procs[q].tasks[u] == e.task)
         || (q in s.procs && u in s.procs[q].tasks && s'.procs[q].tasks[u] == s.procs[q].tasks[u])
  }

  lemma RunTakes(cfg: Config, s: State, p: Pid, t: Tid, a: Answer, e: Effect)
    requires p in s.procs && t in s.procs[p].tasks
    requires e == TaskStep(cfg, s.disk, s.procs[p].gate, t, s.procs[p].tasks[t], a)
    ensures var s' := Do(cfg, s, Run(p, t, a));
            Took(s, s', p, t, e) || Took(s, s', p, t, Effect(s.disk, s.procs[p].gate, s.procs[p].tasks[t], None))
  {
    var s', task := Do(cfg, s, Run(p, t, a)), s.procs[p].tasks[t];
    if Finished(task) || (Waiting(task) && s.procs[p].lock.Some?) {
      assert s.log + [] == s.log;
      assert Took(s, s', p, t, Effect(s.disk, s.procs[p].gate, task, None));
    } else {
      assert s'.procs[p].tasks == s.procs[p].tasks - {t} || s'.procs[p].tasks == s.procs[p].tasks[t := e.task];
      assert Took(s, s', p, t, e);
    }
  }

  /** What ran, what stood still, the journal and the log, put together again. */
  lemma Together(cfg: Config, base: Disk, s: State, s': State, p: Pid, t: Tid, e: Effect)
    requires StateSourced(cfg, base, s) && GoodSource(cfg, base, s.log, e)
             && LogSourced(cfg, base, s.log + Logged(e.event))
    requires Took(s, s', p, t, e)
    ensures StateSourced(cfg, base, s')
  {
    DiskGrows(cfg, base, s.log, Logged(e.event), e.disk);
    forall q, u | q in s'.procs && u in s'.procs[q].tasks ensures TaskSourced(cfg, base, s'.log, s'.procs[q].tasks[u]) {
      if !(q == p && u == t && s'.procs[q].tasks[u] == e.task) {
        TaskGrows(cfg, base, s.log, Logged(e.event), s.procs[q].tasks[u]);
      }
    }
  }

  lemma WorkerSends(cfg: Config, d: Disk, gate: bool, t: Tid, id: Id, w: WorkerPc, a: Answer, e: Effect)
    requires WorkerOk(d.table, id, w) && e == WorkerStep(cfg, d, gate, t, id, w, a)
    requires e.event.Some? && IsSend(e.event.value)
    ensures Journaled(d.table, e.event.value.id, e.event.value.s)
  {
  }

  lemma PassSends(cfg: Config, d: Disk, log: seq<Event>, gate: bool, t: Tid, r: ReconcilerPc, a: Answer, e: Effect)
    requires e == ReconcilerStep(cfg, d, gate, t, r, a) && e.event.Some? && IsSend(e.event.value)
    ensures r.Resend?
    ensures ReadyToResend(cfg, d.table, log, t, r.pass) ==> Journaled(d.table, e.event.value.id, e.event.value.s)
  {
  }

  /** A send carries bytes that its row journals. */
  lemma SendIsJournaled(cfg: Config, s: State, p: Pid, t: Tid, a: Answer, e: Effect)
    requires StateOk(cfg, s) && p in s.procs && t in s.procs[p].tasks
    requires e == TaskStep(cfg, s.disk, s.procs[p].gate, t, s.procs[p].tasks[t], a)
    ensures e.event.Some? && IsSend(e.event.value) ==> Journaled(s.disk.table, e.event.value.id, e.event.value.s)
  {
    if e.event.Some? && IsSend(e.event.value) {
      var task, gate := s.procs[p].tasks[t], s.procs[p].gate;
      assert ProcessOk(cfg, s.disk.table, s.log, s.procs[p]);
      assert TaskOk(cfg, s.disk.table, s.log, t, task);
      if task.Worker? {
        WorkerSends(cfg, s.disk, gate, t, task.id, task.w, a, e);
      } else {
        PassSends(cfg, s.disk, s.log, gate, t, task.r, a, e);
      }
    }
  }

  lemma RunSourced(cfg: Config, base: Disk, s: State, p: Pid, t: Tid, a: Answer, e: Effect)
    requires StateSourced(cfg, base, s) && p in s.procs && t in s.procs[p].tasks
    requires e == TaskStep(cfg, s.disk, s.procs[p].gate, t, s.procs[p].tasks[t], a)
    requires e.event.Some? && IsSend(e.event.value) ==> Journaled(s.disk.table, e.event.value.id, e.event.value.s)
    ensures StateSourced(cfg, base, Do(cfg, s, Run(p, t, a)))
  {
    var s', task := Do(cfg, s, Run(p, t, a)), s.procs[p].tasks[t];
    RunTakes(cfg, s, p, t, a, e);
    TaskStepSourced(cfg, base, s.disk, s.log, s.procs[p].gate, t, task, a, e);
    LogGrows(cfg, base, s.log, s.disk, e.event);
    if Took(s, s', p, t, e) {
      Together(cfg, base, s, s', p, t, e);
    } else {
      assert s.log + Logged(None) == s.log;
      Together(cfg, base, s, s', p, t, Effect(s.disk, s.procs[p].gate, task, None));
    }
  }

  /** Steps that log nothing. */
  lemma QuietStepSourced(cfg: Config, base: Disk, s: State, step: Step)
    requires StateSourced(cfg, base, s) && !step.Run?
    ensures StateSourced(cfg, base, Do(cfg, s, step))
  {
    if step.Request? && step.p in s.procs && (step.call.Claim? || step.call.Resume?) {
      StoreSourced(cfg, base, s.log, s.disk, step.call, step.store);
    } else if step.Land? && step.call in s.disk.late {
      ApplySourced(cfg, base, s.log, s.disk, step.call);
    }
  }

  lemma StepSourced(cfg: Config, base: Disk, s: State, step: Step)
    requires StateOk(cfg, s) && StateSourced(cfg, base, s)
    ensures StateSourced(cfg, base, Do(cfg, s, step))
  {
    if !step.Run? {
      QuietStepSourced(cfg, base, s, step);
    } else if step.p in s.procs && step.t in s.procs[step.p].tasks {
      var e := TaskStep(cfg, s.disk, s.procs[step.p].gate, step.t, s.procs[step.p].tasks[step.t], step.a);
      SendIsJournaled(cfg, s, step.p, step.t, step.a, e);
      RunSourced(cfg, base, s, step.p, step.t, step.a, e);
    }
  }

  lemma {:induction false} RunsSourced(cfg: Config, s: State, steps: seq<Step>)
    requires Initial(cfg, s)
    ensures StateSourced(cfg, s.disk, Execute(cfg, s, steps))
  {
    if steps != [] {
      var before := steps[..|steps| - 1];
      RunsSourced(cfg, s, before);
      ReachableOk(cfg, s, before);
      StepSourced(cfg, s.disk, Execute(cfg, s, before), steps[|steps| - 1]);
    }
  }

  /**
   Every send, first or replayed, by whichever process, carries bytes that were signed for that very settlement
   earlier in the run, unless the run started with them journaled or with their journaling outstanding.
   */
  lemma SendsWereSigned(cfg: Config, s: State, steps: seq<Step>, i: nat)
    requires Initial(cfg, s)
    requires i < |Execute(cfg, s, steps).log| && IsSend(Execute(cfg, s, steps).log[i])
    ensures var log := Execute(cfg, s, steps).log;
            || Journaled(s.disk.table, log[i].id, log[i].s)
            || MarkPrepared(log[i].id, log[i].s) in s.disk.late
            || (exists j | 0 <= j < i :: log[j].Signed? && log[j].id == log[i].id && log[j].s == log[i].s)
  {
    RunsSourced(cfg, s, steps);
    var log := Execute(cfg, s, steps).log;
    assert Sourced(cfg, s.disk, log[..i], log[i].id, log[i].s);
    if !Inherited(s.disk, log[i].id, log[i].s) {
      var j :| 0 <= j < |log[..i]| && log[..i][j].Signed? && log[..i][j].id == log[i].id && log[..i][j].s == log[i].s;
      assert log[j] == log[..i][j];
    }
  }

  /** On EVM the run journals no bytes, whatever crashes or lands late, that it did not price within the reservation. */
  lemma JournaledWasPriced(cfg: Config, s: State, steps: seq<Step>, id: Id) returns (k: nat)
    requires Initial(cfg, s) && cfg.chain.Eip155?
    requires var t := Execute(cfg, s, steps).disk.table;
             id in t && t[id].submission.Some? && !Inherited(s.disk, id, t[id].submission.value)
    ensures var r := Execute(cfg, s, steps);
            && k < |r.log| && r.log[k].Priced? && r.log[k].id == id
            && r.disk.table[id].submission == Some(r.log[k].s)
            && r.log[k].l1.Some? && EvmFees.CoversLiability(cfg.policy, r.log[k].l1.value)
  {
    RunsSourced(cfg, s, steps);
    var r := Execute(cfg, s, steps);
    var sub := r.disk.table[id].submission.value;
    k :| 0 <= k < |r.log| && r.log[k].Priced? && r.log[k].id == id && r.log[k].s == sub && Covered(cfg, r.log[k].l1);
  }

  /**
   So a transaction that the run journals overruns its reservation, or has a fee beyond 128 bits, only if its L1 fee
   passed the estimate that was logged for exactly these bytes.
   */
  lemma JournaledFeeStaysReserved(cfg: Config, s: State, steps: seq<Step>, id: Id, primary: EvmFees.Estimate,
                                  backup: EvmFees.Estimate, gasUsed: nat, price: nat, l1Fee: nat) returns (k: nat)
    requires Initial(cfg, s) && cfg.chain.Eip155? && cfg.policy.reservation < EvmFees.U128
    requires var t := Execute(cfg, s, steps).disk.table;
             id in t && t[id].submission.Some? && !Inherited(s.disk, id, t[id].submission.value)
    requires EvmFees.BoundedEnvelope(cfg.policy, primary, backup).Priced?
    requires EvmFees.ChainRespects(EvmFees.BoundedEnvelope(cfg.policy, primary, backup).envelope, gasUsed, price)
    ensures var r := Execute(cfg, s, steps);
            var fee := EvmFees.ReceiptFee(gasUsed, price, l1Fee);
            && k < |r.log| && r.log[k].Priced? && r.log[k].id == id && r.log[k].l1.Some?
            && r.disk.table[id].submission == Some(r.log[k].s)
            && (fee.None? || EvmFees.Overrun(fee.value, cfg.policy.reservation) ==> l1Fee > r.log[k].l1.value)
  {
    k := JournaledWasPriced(cfg, s, steps, id);
    var l1 := Execute(cfg, s, steps).log[k].l1.value;
    EvmFees.FeeStaysReserved(cfg.policy, primary, backup, l1, gasUsed, price, l1Fee);
  }
}
