/**
 Nothing is sent without its checks. Every broadcast follows, for the same worker, an open
 gate, an accepted verification, a clean reread, a signature, on EVM a covered price, and
 the nonce and gate checks before and after the row is marked submitted; every replay
 follows the checks of its pass. An overrun quarantines the signer before its row is done.
 */
module SettlementPath {
  import opened Base
  import opened Journal
  import opened Settlement
  import opened SettlementSafety
  import opened Traces

  predicate SignedBy(log: seq<Event>, t: Tid, id: Id, s: Submission) {
    exists k | 0 <= k < |log| :: log[k].Signed? && log[k].t == t && log[k].id == id && log[k].s == s
  }

  predicate PricedBy(cfg: Config, log: seq<Event>, t: Tid, id: Id, s: Submission) {
    exists k | 0 <= k < |log| ::
      log[k].Priced? && log[k].t == t && log[k].id == id && log[k].s == s && Covered(cfg, log[k].l1)
  }

  /** The worker signed these bytes, and on EVM they were priced within the reservation. */
  predicate Made(cfg: Config, log: seq<Event>, t: Tid, id: Id, s: Submission) {
    SignedBy(log, t, id, s) && (cfg.chain.Eip155? ==> PricedBy(cfg, log, t, id, s))
  }

  predicate ClearedToSubmit(cfg: Config, log: seq<Event>, t: Tid, id: Id, s: Submission) {
    && Made(cfg, log, t, id, s)
    && (cfg.chain.Near? ==> Checked(t, id, Nonce, true) in log)
    && Checked(t, id, BeforeSubmit, true) in log
  }

  /** Everything that must have gone well before a worker may send. */
  predicate ClearedToSend(cfg: Config, log: seq<Event>, t: Tid, id: Id, s: Submission) {
    && ClearedToSubmit(cfg, log, t, id, s)
    && Checked(t, id, BeforeSend, true) in log
    && (cfg.chain.Eip155? ==> Checked(t, id, Nonce, true) in log && Checked(t, id, Last, true) in log)
  }

  predicate WorkerPath(cfg: Config, log: seq<Event>, t: Tid, id: Id, w: WorkerPc) {
    match w
    case Verify => Checked(t, id, Entry, true) in log
    case Reload => Verified(t, id, Accepted) in log
    case Sign(seen) => seen.state.Reserved? && Reread(t, id, seen, true) in log
    case Liability(s) => SignedBy(log, t, id, s)
    case Persist(s) => Made(cfg, log, t, id, s)
    case Recheck(s) => Made(cfg, log, t, id, s)
    case SubmitGate(s) => Made(cfg, log, t, id, s) && (cfg.chain.Near? ==> Checked(t, id, Nonce, true) in log)
    case Submit(s) => ClearedToSubmit(cfg, log, t, id, s)
    case SendGate(s) => ClearedToSubmit(cfg, log, t, id, s)
    case SendRecheck(s) => ClearedToSubmit(cfg, log, t, id, s) && Checked(t, id, BeforeSend, true) in log
    case LastGate(s) =>
      && ClearedToSubmit(cfg, log, t, id, s)
      && Checked(t, id, BeforeSend, true) in log && Checked(t, id, Nonce, true) in log
    case Send(s) => ClearedToSend(cfg, log, t, id, s)
    case _ => true
  }

  /** On NEAR a replay needs heads that show the key's nonce unused and the delegated action alive. */
  predicate SeenUsable(cfg: Config, log: seq<Event>, t: Tid, id: Id, s: Submission, p: Pass) {
    cfg.chain.Near? ==> HeadsRead(t, id, s, Usable, p) in log
  }

  /** Everything that must have gone well, in the same pass, before a row may be replayed. */
  predicate ClearedToResend(cfg: Config, log: seq<Event>, t: Tid, id: Id, s: Submission, p: Pass) {
    && SeenUsable(cfg, log, t, id, s, p)
    && Rechecked(t, id, BeforeSend, true, p) in log && NonceReread(t, id, true, Usable, p) in log
    && (cfg.chain.Eip155? ==> Rechecked(t, id, Last, true, p) in log)
  }

  predicate HasRow(p: Pass) {
    p.at < |p.rows| && p.rows[p.at].row.submission.Some?
  }

  predicate RowPath(cfg: Config, log: seq<Event>, t: Tid, r: ReconcilerPc, id: Id, s: Submission) {
    match r
    case Heads(p) => Judged(t, id, s, Unknown, p) in log
    case MarkRow(p) => SeenUsable(cfg, log, t, id, s, p)
    case ResendGate(p) => SeenUsable(cfg, log, t, id, s, p)
    case ResendRecheck(p) => SeenUsable(cfg, log, t, id, s, p) && Rechecked(t, id, BeforeSend, true, p) in log
    case ResendLastGate(p) =>
      && SeenUsable(cfg, log, t, id, s, p)
      && Rechecked(t, id, BeforeSend, true, p) in log && NonceReread(t, id, true, Usable, p) in log
    case Resend(p) => ClearedToResend(cfg, log, t, id, s, p)
    case _ => true
  }

  /** The answer reports a fee beyond the reservation. */
  predicate Overrun(e: Event) {
    || (e.Judged? && e.verdict.FinalOutcome? && e.verdict.overrun)
    || (e.Rebroadcast? && e.answer.SendFinal? && e.answer.overrun)
  }

  /** Every overrun reported to task `t`, but for settlement `id`, led to a quarantine. */
  predicate Answered(cfg: Config, log: seq<Event>, t: Tid, but: Option<Id>) {
    cfg.chain.Eip155? ==>
      forall k | 0 <= k < |log| && log[k].t == t && Overrun(log[k]) && Some(log[k].id) != but ::
        Quarantined(t, log[k].id) in log
  }

  predicate OverrunPath(cfg: Config, log: seq<Event>, t: Tid, r: ReconcilerPc) {
    if r.Quit? || r.PauseLeave? then true
    else if r.Quarantine? then r.pass.at < |r.pass.rows| && Answered(cfg, log, t, Some(r.pass.rows[r.pass.at].id))
    else Answered(cfg, log, t, None)
  }

  predicate Leading(r: ReconcilerPc) {
    r.CloseGate? || r.Enter? || r.Scan?
  }

  predicate OnRowPc(r: ReconcilerPc) {
    r.Heads? || r.MarkRow? || r.ResendGate? || r.ResendRecheck? || r.ResendLastGate? || r.Resend?
  }

  predicate PassPath(cfg: Config, log: seq<Event>, t: Tid, r: ReconcilerPc) {
    && (Leading(r) ==> Led(t, true) in log)
    && (OnRowPc(r) && HasRow(r.pass) ==>
          RowPath(cfg, log, t, r, r.pass.rows[r.pass.at].id, r.pass.rows[r.pass.at].row.submission.value))
    && OverrunPath(cfg, log, t, r)
  }

  predicate TaskPath(cfg: Config, log: seq<Event>, t: Tid, task: Task) {
    match task
    case Worker(id, w) => WorkerPath(cfg, log, t, id, w)
    case Reconciler(r) => PassPath(cfg, log, t, r)
  }

  /** What had happened before an event. */
  predicate EventPath(cfg: Config, before: seq<Event>, e: Event) {
    match e
    case Verified(t, id, _) => Checked(t, id, Entry, true) in before
    case Reread(t, id, _, _) => Verified(t, id, Accepted) in before
    case Signed(t, id, _, seen, _) => seen.state.Reserved? && Reread(t, id, seen, true) in before
    case Priced(t, id, s, _) => SignedBy(before, t, id, s)
    case Broadcast(t, id, s, _, _) => ClearedToSend(cfg, before, t, id, s)
    case Scanned(t, _) => Led(t, true) in before
    case HeadsRead(t, id, s, _, p) => Judged(t, id, s, Unknown, p) in before
    case Rebroadcast(t, id, s, _, p, _) => ClearedToResend(cfg, before, t, id, s, p)
    case _ => true
  }

  lemma SignedGrows(log: seq<Event>, more: seq<Event>, t: Tid, id: Id, s: Submission)
    ensures SignedBy(log, t, id, s) ==> SignedBy(log + more, t, id, s)
  {
    if SignedBy(log, t, id, s) {
      var k :| 0 <= k < |log| && log[k].Signed? && log[k].t == t && log[k].id == id && log[k].s == s;
      assert (log + more)[k] == log[k];
    }
  }

  lemma PricedGrows(cfg: Config, log: seq<Event>, more: seq<Event>, t: Tid, id: Id, s: Submission)
    ensures PricedBy(cfg, log, t, id, s) ==> PricedBy(cfg, log + more, t, id, s)
  {
    if PricedBy(cfg, log, t, id, s) {
      var k :| 0 <= k < |log| && log[k].Priced? && log[k].t == t && log[k].id == id && log[k].s == s
                && Covered(cfg, log[k].l1);
      assert (log + more)[k] == log[k];
    }
  }

  lemma WorkerGrows(cfg: Config, log: seq<Event>, more: seq<Event>, t: Tid, id: Id, w: WorkerPc)
    requires WorkerPath(cfg, log, t, id, w)
    ensures WorkerPath(cfg, log + more, t, id, w)
  {
    if w.Liability? || w.Persist? || w.Recheck? || w.SubmitGate? || w.Submit? || w.SendGate? || w.SendRecheck?
       || w.LastGate? || w.Send?
    {
      SignedGrows(log, more, t, id, w.s);
      PricedGrows(cfg, log, more, t, id, w.s);
    }
  }

  lemma AnsweredGrows(cfg: Config, log: seq<Event>, more: seq<Event>, t: Tid, but: Option<Id>)
    requires Answered(cfg, log, t, but)
    requires forall k | 0 <= k < |more| :: more[k].t != t || !Overrun(more[k]) || Some(more[k].id) == but
    ensures Answered(cfg, log + more, t, but)
  {
    var all := log + more;
    forall k | cfg.chain.Eip155? && 0 <= k < |all| && all[k].t == t && Overrun(all[k]) && Some(all[k].id) != but
      ensures Quarantined(t, all[k].id) in all
    {
      if k < |log| {
        assert all[k] == log[k];
      }
    }
  }

  lemma OverrunGrows(cfg: Config, log: seq<Event>, more: seq<Event>, t: Tid, r: ReconcilerPc)
    requires OverrunPath(cfg, log, t, r) && forall k | 0 <= k < |more| :: more[k].t != t || !Overrun(more[k])
    ensures OverrunPath(cfg, log + more, t, r)
  {
    if !r.Quit? && !r.PauseLeave? {
      AnsweredGrows(cfg, log, more, t, if r.Quarantine? then Some(r.pass.rows[r.pass.at].id) else None);
    }
  }

  lemma TaskGrows(cfg: Config, log: seq<Event>, more: seq<Event>, t: Tid, task: Task)
    requires TaskPath(cfg, log, t, task) && NotOf(more, t)
    ensures TaskPath(cfg, log + more, t, task)
  {
    if task.Worker? {
      WorkerGrows(cfg, log, more, t, task.id, task.w);
    } else {
      OverrunGrows(cfg, log, more, t, task.r);
    }
  }

  /** The event is its own, and what it needs is in the log. */
  predicate GoodEvent(cfg: Config, log: seq<Event>, t: Tid, event: Option<Event>) {
    event.Some? ==> event.value.t == t && EventPath(cfg, log, event.value)
  }

  predicate EarlyPc(w: WorkerPc) {
    w.Acquire? || w.FirstGate? || w.Verify? || w.Reload? || w.Sign? || w.Liability?
  }

  lemma EarlySteps(cfg: Config, d: Disk, log: seq<Event>, gate: bool, t: Tid, id: Id, w: WorkerPc, a: Answer, e: Effect)
    requires EarlyPc(w) && WorkerPath(cfg, log, t, id, w) && e == WorkerStep(cfg, d, gate, t, id, w, a)
    ensures GoodEvent(cfg, log, t, e.event) && TaskPath(cfg, log + Logged(e.event), t, e.task)
  {
    var all := log + Logged(e.event);
    if e.event.Some? {
      assert all[|log|] == e.event.value && e.event.value in all;
    }
    if w.Liability? {
      SignedGrows(log, Logged(e.event), t, id, w.s);
    }
  }

  lemma LateSteps(cfg: Config, d: Disk, log: seq<Event>, gate: bool, t: Tid, id: Id, w: WorkerPc, a: Answer, e: Effect)
    requires !EarlyPc(w) && WorkerPath(cfg, log, t, id, w) && e == WorkerStep(cfg, d, gate, t, id, w, a)
    ensures GoodEvent(cfg, log, t, e.event) && TaskPath(cfg, log + Logged(e.event), t, e.task)
  {
    WorkerGrows(cfg, log, Logged(e.event), t, id, w);
    if e.event.Some? {
      assert e.event.value in log + Logged(e.event);
    }
  }

  /** Steps whose answers may report an overrun. */
  lemma FinalSteps(cfg: Config, log: seq<Event>, t: Tid, p: Pass, success: bool, response: string, overrun: bool,
                   e: Event)
    requires Answered(cfg, log, t, None) && p.at < |p.rows| && e.t == t && (Overrun(e) <==> overrun)
    requires !e.Scanned? && !e.Led? && e.id == p.rows[p.at].id
    ensures PassPath(cfg, log + Logged(Some(e)), t, AfterFinal(cfg, p, success, response, overrun))
  {
    var id := p.rows[p.at].id;
    if cfg.chain.Eip155? {
      AnsweredBut(cfg, log, t, id);
      AnsweredGrows(cfg, log, Logged(Some(e)), t, if overrun then Some(id) else None);
    }
  }

  lemma AnsweredBut(cfg: Config, log: seq<Event>, t: Tid, id: Id)
    requires Answered(cfg, log, t, None)
    ensures Answered(cfg, log, t, Some(id))
  {
  }

  lemma QuerySteps(cfg: Config, d: Disk, log: seq<Event>, gate: bool, t: Tid, p: Pass, a: Answer, e: Effect)
    requires Answered(cfg, log, t, None) && e == QueryStep(cfg, d, gate, t, p, a)
    ensures GoodEvent(cfg, log, t, e.event) && TaskPath(cfg, log + Logged(e.event), t, e.task)
  {
    if e.event.Some? {
      assert e.event.value in log + Logged(e.event);
      if a.verdict.FinalOutcome? {
        FinalSteps(cfg, log, t, p, a.verdict.success, a.verdict.response, a.verdict.overrun, e.event.value);
      } else {
        AnsweredGrows(cfg, log, Logged(e.event), t, None);
      }
    }
  }

  lemma ResendSteps(cfg: Config, d: Disk, log: seq<Event>, gate: bool, t: Tid, p: Pass, a: Answer, e: Effect)
    requires PassPath(cfg, log, t, Resend(p)) && e == ResendStep(cfg, d, gate, t, p, a)
    ensures GoodEvent(cfg, log, t, e.event) && TaskPath(cfg, log + Logged(e.event), t, e.task)
  {
    if e.event.Some? {
      if a.send.SendFinal? {
        FinalSteps(cfg, log, t, p, a.send.success, a.send.response, a.send.overrun, e.event.value);
      } else {
        AnsweredGrows(cfg, log, Logged(e.event), t, None);
      }
    }
  }

  lemma QuarantineSteps(cfg: Config, d: Disk, log: seq<Event>, t: Tid, r: ReconcilerPc, a: Answer, e: Effect)
    requires r.Quarantine? && PassPath(cfg, log, t, r) && e == QuarantineStep(d, t, r.pass, r.state, r.response, a)
    ensures GoodEvent(cfg, log, t, e.event) && TaskPath(cfg, log + Logged(e.event), t, e.task)
  {
    if e.event.Some? {
      var id := r.pass.rows[r.pass.at].id;
      AnsweredGrows(cfg, log, Logged(e.event), t, Some(id));
      assert Quarantined(t, id) in log + Logged(e.event);
    }
  }

  lemma HeadsSteps(cfg: Config, d: Disk, log: seq<Event>, gate: bool, t: Tid, p: Pass, a: Answer, e: Effect)
    requires PassPath(cfg, log, t, Heads(p)) && e == HeadsStep(d, gate, t, p, a)
    ensures GoodEvent(cfg, log, t, e.event) && TaskPath(cfg, log + Logged(e.event), t, e.task)
  {
    AnsweredGrows(cfg, log, Logged(e.event), t, None);
    if e.event.Some? {
      assert e.event.value in log + Logged(e.event);
    }
  }

  lemma NonceSteps(cfg: Config, d: Disk, log: seq<Event>, gate: bool, t: Tid, p: Pass, a: Answer, e: Effect)
    requires PassPath(cfg, log, t, ResendRecheck(p))
    requires e == NonceStep(cfg, d, gate, t, p, a.ok, a.heads)
    ensures GoodEvent(cfg, log, t, e.event) && TaskPath(cfg, log + Logged(e.event), t, e.task)
  {
    AnsweredGrows(cfg, log, Logged(e.event), t, None);
    if e.event.Some? {
      assert e.event.value in log + Logged(e.event);
    }
  }

  lemma GateSteps(cfg: Config, d: Disk, log: seq<Event>, gate: bool, t: Tid, r: ReconcilerPc, a: Answer, e: Effect)
    requires Gates(r) && !r.ResendRecheck? && PassPath(cfg, log, t, r) && e == ReconcilerStep(cfg, d, gate, t, r, a)
    ensures GoodEvent(cfg, log, t, e.event) && TaskPath(cfg, log + Logged(e.event), t, e.task)
  {
    AnsweredGrows(cfg, log, Logged(e.event), t, None);
    if e.event.Some? {
      assert e.event.value in log + Logged(e.event);
    }
  }

  lemma StartSteps(cfg: Config, d: Disk, log: seq<Event>, gate: bool, t: Tid, r: ReconcilerPc, a: Answer, e: Effect)
    requires (r.Start? || Leading(r)) && PassPath(cfg, log, t, r) && e == ReconcilerStep(cfg, d, gate, t, r, a)
    ensures GoodEvent(cfg, log, t, e.event) && TaskPath(cfg, log + Logged(e.event), t, e.task)
  {
    AnsweredGrows(cfg, log, Logged(e.event), t, None);
    if e.event.Some? {
      assert e.event.value in log + Logged(e.event);
    }
  }

  /** The remaining steps learn nothing that a send would need. */
  predicate Other(r: ReconcilerPc) {
    || r.ReleaseRow? || r.ReleaseFailed? || r.NextRow? || r.Validate? || r.FinishRow? || r.PauseCheck? || r.CheckRow?
    || r.PauseLeave? || r.Remaining? || r.OpenGate? || r.Quit?
  }

  lemma OtherSteps(cfg: Config, d: Disk, gate: bool, t: Tid, r: ReconcilerPc, a: Answer, e: Effect)
    requires Other(r) && e == ReconcilerStep(cfg, d, gate, t, r, a)
    ensures e.task.Reconciler? && (Other(e.task.r) || e.task.r.Query?)
    ensures e.event.Some? ==> e.event.value.ReleaseTried? && e.event.value.t == t
    ensures r.Quit? || r.PauseLeave? ==> e.task.r.Quit?
  {
  }

  lemma MarkSteps(cfg: Config, d: Disk, log: seq<Event>, gate: bool, t: Tid, p: Pass, a: Answer, e: Effect)
    requires PassPath(cfg, log, t, MarkRow(p)) && e == MarkStep(cfg, d, gate, p, a)
    ensures GoodEvent(cfg, log, t, e.event) && TaskPath(cfg, log + Logged(e.event), t, e.task)
  {
    assert log + Logged(None) == log;
  }

  predicate Asking(r: ReconcilerPc) {
    r.Query? || r.Resend? || r.Quarantine? || r.Heads?
  }

  lemma AskingSteps(cfg: Config, d: Disk, log: seq<Event>, gate: bool, t: Tid, r: ReconcilerPc, a: Answer, e: Effect)
    requires Asking(r) && PassPath(cfg, log, t, r) && e == ReconcilerStep(cfg, d, gate, t, r, a)
    ensures GoodEvent(cfg, log, t, e.event) && TaskPath(cfg, log + Logged(e.event), t, e.task)
  {
    if r.Query? {
      QuerySteps(cfg, d, log, gate, t, r.pass, a, e);
    } else if r.Resend? {
      ResendSteps(cfg, d, log, gate, t, r.pass, a, e);
    } else if r.Quarantine? {
      QuarantineSteps(cfg, d, log, t, r, a, e);
    } else {
      HeadsSteps(cfg, d, log, gate, t, r.pass, a, e);
    }
  }

  lemma PassSteps(cfg: Config, d: Disk, log: seq<Event>, gate: bool, t: Tid, r: ReconcilerPc, a: Answer, e: Effect)
    requires PassPath(cfg, log, t, r) && e == ReconcilerStep(cfg, d, gate, t, r, a)
    ensures GoodEvent(cfg, log, t, e.event) && TaskPath(cfg, log + Logged(e.event), t, e.task)
  {
    if Asking(r) {
      AskingSteps(cfg, d, log, gate, t, r, a, e);
    } else if r.ResendRecheck? {
      NonceSteps(cfg, d, log, gate, t, r.pass, a, e);
    } else if Gates(r) {
      GateSteps(cfg, d, log, gate, t, r, a, e);
    } else if r.MarkRow? {
      MarkSteps(cfg, d, log, gate, t, r.pass, a, e);
    } else if r.Start? || Leading(r) {
      StartSteps(cfg, d, log, gate, t, r, a, e);
    } else {
      OtherSteps(cfg, d, gate, t, r, a, e);
      OverrunGrows(cfg, log, Logged(e.event), t, r);
    }
  }

  lemma TaskSteps(cfg: Config, d: Disk, log: seq<Event>, gate: bool, t: Tid, task: Task, a: Answer, e: Effect)
    requires TaskPath(cfg, log, t, task) && e == TaskStep(cfg, d, gate, t, task, a)
    ensures GoodEvent(cfg, log, t, e.event) && TaskPath(cfg, log + Logged(e.event), t, e.task)
  {
    if task.Reconciler? {
      PassSteps(cfg, d, log, gate, t, task.r, a, e);
    } else if EarlyPc(task.w) {
      EarlySteps(cfg, d, log, gate, t, task.id, task.w, a, e);
    } else {
      LateSteps(cfg, d, log, gate, t, task.id, task.w, a, e);
    }
  }

  ghost function TaskFactOf(cfg: Config): (f: TaskFact) {
    (log: seq<Event>, t: Tid, task: Task) => TaskPath(cfg, log, t, task)
  }

  ghost function EventFactOf(cfg: Config): (f: EventFact) {
    (log: seq<Event>, e: Event) => EventPath(cfg, log, e)
  }

  lemma PathIsLasting(cfg: Config)
    ensures Lasting(TaskFactOf(cfg))
  {
    forall log, more, t, task | TaskPath(cfg, log, t, task) && NotOf(more, t)
      ensures TaskPath(cfg, log + more, t, task)
    {
      TaskGrows(cfg, log, more, t, task);
    }
  }

  lemma PathIsStepping(cfg: Config)
    ensures Stepping(cfg, TaskFactOf(cfg), EventFactOf(cfg))
  {
    forall d, log, gate, t, task, a | TaskPath(cfg, log, t, task)
      ensures StepsWell(cfg, TaskFactOf(cfg), EventFactOf(cfg), d, log, gate, t, task, a)
    {
      TaskSteps(cfg, d, log, gate, t, task, a, TaskStep(cfg, d, gate, t, task, a));
    }
  }

  /** In every run each event happened on its path, and each task is on its path. */
  lemma EveryEventOnPath(cfg: Config, s: State, steps: seq<Step>, i: nat)
    requires Initial(cfg, s) && i < |Execute(cfg, s, steps).log|
    ensures EventPath(cfg, Execute(cfg, s, steps).log[..i], Execute(cfg, s, steps).log[i])
  {
    PathIsLasting(cfg);
    PathIsStepping(cfg);
    EveryRunTraced(cfg, TaskFactOf(cfg), EventFactOf(cfg), s, steps);
    assert EventFactOf(cfg)(Execute(cfg, s, steps).log[..i], Execute(cfg, s, steps).log[i]);
  }

  lemma EveryTaskOnPath(cfg: Config, s: State, steps: seq<Step>, p: Pid, t: Tid)
    requires Initial(cfg, s) && p in Execute(cfg, s, steps).procs && t in Execute(cfg, s, steps).procs[p].tasks
    ensures TaskPath(cfg, Execute(cfg, s, steps).log, t, Execute(cfg, s, steps).procs[p].tasks[t])
  {
    PathIsLasting(cfg);
    PathIsStepping(cfg);
    EveryRunTraced(cfg, TaskFactOf(cfg), EventFactOf(cfg), s, steps);
    var r := Execute(cfg, s, steps);
    assert TaskFactOf(cfg)(r.log, t, r.procs[p].tasks[t]);
  }

  /**
   Every first broadcast, of any process: the same worker was let in by the gate, then had the payment accepted, then
   reread its row reserved and matching, then signed these bytes; and all later checks went well.
   */
  lemma BroadcastsAreCleared(cfg: Config, s: State, steps: seq<Step>, i: nat)
    returns (entered: nat, accepted: nat, reread: nat, signed: nat)
    requires Initial(cfg, s) && i < |Execute(cfg, s, steps).log| && Execute(cfg, s, steps).log[i].Broadcast?
    ensures var log := Execute(cfg, s, steps).log;
            var e := log[i];
            && entered < accepted < reread < signed < i
            && log[entered] == Checked(e.t, e.id, Entry, true)
            && log[accepted] == Verified(e.t, e.id, Accepted)
            && log[signed].Signed? && log[signed].t == e.t && log[signed].id == e.id && log[signed].s == e.s
            && log[reread] == Reread(e.t, e.id, log[signed].seen, true) && log[signed].seen.state.Reserved?
            && ClearedToSend(cfg, log[..i], e.t, e.id, e.s)
  {
    var log := Execute(cfg, s, steps).log;
    var e := log[i];
    EveryEventOnPath(cfg, s, steps, i);
    signed :| 0 <= signed < i && log[..i][signed].Signed? && log[..i][signed].t == e.t && log[..i][signed].id == e.id
              && log[..i][signed].s == e.s;
    assert log[signed] == log[..i][signed];
    EveryEventOnPath(cfg, s, steps, signed);
    reread :| 0 <= reread < signed && log[..signed][reread] == Reread(e.t, e.id, log[signed].seen, true);
    assert log[reread] == log[..signed][reread];
    EveryEventOnPath(cfg, s, steps, reread);
    accepted :| 0 <= accepted < reread && log[..reread][accepted] == Verified(e.t, e.id, Accepted);
    assert log[accepted] == log[..reread][accepted];
    EveryEventOnPath(cfg, s, steps, accepted);
    entered :| 0 <= entered < accepted && log[..accepted][entered] == Checked(e.t, e.id, Entry, true);
    assert log[entered] == log[..accepted][entered];
  }

  /** Every replay passed the checks of its pass; on NEAR its heads were usable, and read after an unknown verdict. */
  lemma ReplaysAreCleared(cfg: Config, s: State, steps: seq<Step>, i: nat)
    requires Initial(cfg, s) && i < |Execute(cfg, s, steps).log| && Execute(cfg, s, steps).log[i].Rebroadcast?
    ensures var log := Execute(cfg, s, steps).log;
            var e := log[i];
            && ClearedToResend(cfg, log[..i], e.t, e.id, e.s, e.pass)
            && (cfg.chain.Near? ==>
                  exists j, k | 0 <= j < k < i ::
                    log[j] == Judged(e.t, e.id, e.s, Unknown, e.pass)
                        && log[k] == HeadsRead(e.t, e.id, e.s, Usable, e.pass))
  {
    var log := Execute(cfg, s, steps).log;
    var e := log[i];
    EveryEventOnPath(cfg, s, steps, i);
    if cfg.chain.Near? {
      var k :| 0 <= k < i && log[..i][k] == HeadsRead(e.t, e.id, e.s, Usable, e.pass);
      assert log[k] == log[..i][k];
      EveryEventOnPath(cfg, s, steps, k);
      var j :| 0 <= j < k && log[..k][j] == Judged(e.t, e.id, e.s, Unknown, e.pass);
      assert log[j] == log[..k][j];
    }
  }

  /** On EVM a pass about to finish a row has quarantined the signer for every overrun it was told of. */
  lemma OverrunQuarantinesFirst(cfg: Config, s: State, steps: seq<Step>, p: Pid, t: Tid, k: nat)
    requires Initial(cfg, s) && cfg.chain.Eip155?
    requires var r := Execute(cfg, s, steps);
             && p in r.procs && t in r.procs[p].tasks
             && r.procs[p].tasks[t].Reconciler? && r.procs[p].tasks[t].r.FinishRow?
             && k < |r.log| && r.log[k].t == t && Overrun(r.log[k])
    ensures Quarantined(t, Execute(cfg, s, steps).log[k].id) in Execute(cfg, s, steps).log
  {
    EveryTaskOnPath(cfg, s, steps, p, t);
  }

  /** Only a leader scans the journal for recovery. */
  lemma ScansAreLed(cfg: Config, s: State, steps: seq<Step>, i: nat)
    requires Initial(cfg, s) && i < |Execute(cfg, s, steps).log| && Execute(cfg, s, steps).log[i].Scanned?
    ensures Led(Execute(cfg, s, steps).log[i].t, true) in Execute(cfg, s, steps).log[..i]
  {
    EveryEventOnPath(cfg, s, steps, i);
  }
}
