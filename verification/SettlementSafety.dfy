/**
 What every run keeps, with any number of processes, crashes, stale leaders,
 unreported commits and writes that land late.
 */
module SettlementSafety {
  import opened Base
  import opened Journal
  import opened Settlement

  /** The row journals exactly `s` and was marked submitted (it may have finished since). */
  predicate Sent(r: Row, s: Submission) {
    r.submission == Some(s) && r.submitted && (r.state.Submitted? || Terminal(r.state))
  }

  predicate Journaled(t: Table, id: Id, s: Submission) {
    id in t && t[id].submission == Some(s)
  }

  predicate SentIn(t: Table, id: Id, s: Submission) {
    id in t && Sent(t[id], s)
  }

  /** `seen` is the row as reloaded: a reservation without bytes, whatever became of it since. */
  predicate Reloaded(t: Table, id: Id, seen: Row) {
    seen.state.Reserved? && seen.submission.None? && id in t && RowEvolves(seen, t[id])
  }

  predicate WorkerOk(t: Table, id: Id, pc: WorkerPc) {
    match pc
    case Sign(seen) => Reloaded(t, id, seen)
    case Recheck(s) => Journaled(t, id, s)
    case SubmitGate(s) => Journaled(t, id, s)
    case Submit(s) => Journaled(t, id, s)
    case SendGate(s) => SentIn(t, id, s)
    case SendRecheck(s) => SentIn(t, id, s)
    case LastGate(s) => SentIn(t, id, s)
    case Send(s) => SentIn(t, id, s)
    case _ => true
  }

  predicate RowsOk(t: Table) {
    forall k | k in t :: RowOk(t[k])
  }

  /** The pass works through a complete scan, oldest first, of a journal that has only moved forward since. */
  predicate PassOk(t: Table, p: Pass) {
    p.at <= |p.rows| && IsScan(p.rows, p.seen) && RowsOk(p.seen) && Evolves(p.seen, t)
  }

  lemma PassRow(t: Table, p: Pass, i: nat)
    requires PassOk(t, p) && i < |p.rows|
    ensures p.rows[i].id in t && RowOk(p.rows[i].row) && RowEvolves(p.rows[i].row, t[p.rows[i].id])
  {
  }

  /** The scan is on record, and so is a release of each reservation among its first `n` rows. */
  predicate Tried(log: seq<Event>, t: Tid, p: Pass, n: nat) {
    && Scanned(t, p.seen) in log
    && forall i | 0 <= i < n && i < |p.rows| && p.rows[i].row.state.Reserved? :: ReleaseTried(t, p.rows[i].id) in log
  }

  predicate EarlierDone(t: Table, p: Pass) {
    forall i | 0 <= i < p.at && i < |p.rows| && InFlight(p.rows[i].row.state) ::
      p.rows[i].id in t && Terminal(t[p.rows[i].id].state)
  }

  predicate Ordered(t: Table, log: seq<Event>, tid: Tid, p: Pass) {
    PassOk(t, p) && EarlierDone(t, p) && Tried(log, tid, p, |p.rows|)
  }

  predicate OnRow(t: Table, log: seq<Event>, tid: Tid, p: Pass) {
    Ordered(t, log, tid, p) && p.at < |p.rows| && InFlight(p.rows[p.at].row.state)
  }

  predicate BytesChecked(cfg: Config, p: Pass) {
    && p.at < |p.rows|
    && p.rows[p.at].row.submission.Some?
    && cfg.valid(p.rows[p.at].id, p.rows[p.at].row.submission.value)
  }

  predicate SeenUnknown(cfg: Config, log: seq<Event>, tid: Tid, p: Pass) {
    BytesChecked(cfg, p) && Judged(tid, p.rows[p.at].id, p.rows[p.at].row.submission.value, Unknown, p) in log
  }

  predicate ReadyToResend(cfg: Config, t: Table, log: seq<Event>, tid: Tid, p: Pass) {
    && OnRow(t, log, tid, p)
    && SeenUnknown(cfg, log, tid, p)
    && SentIn(t, p.rows[p.at].id, p.rows[p.at].row.submission.value)
  }

  predicate ReconcilerOk(cfg: Config, t: Table, log: seq<Event>, tid: Tid, pc: ReconcilerPc) {
    match pc
    case ReleaseRow(p) => PassOk(t, p) && Tried(log, tid, p, p.at)
    case ReleaseFailed(p) => PassOk(t, p) && p.at < |p.rows| && Tried(log, tid, p, p.at + 1)
    case NextRow(p) => Ordered(t, log, tid, p)
    case Validate(p) => OnRow(t, log, tid, p)
    case Query(p) => OnRow(t, log, tid, p) && BytesChecked(cfg, p)
    case Quarantine(p, _, _) => OnRow(t, log, tid, p)
    case FinishRow(p, _, _, _, _) => OnRow(t, log, tid, p)
    case PauseCheck(p) => OnRow(t, log, tid, p)
    case CheckRow(p) => OnRow(t, log, tid, p)
    case Heads(p) => OnRow(t, log, tid, p) && SeenUnknown(cfg, log, tid, p)
    case MarkRow(p) => OnRow(t, log, tid, p) && SeenUnknown(cfg, log, tid, p)
    case ResendGate(p) => ReadyToResend(cfg, t, log, tid, p)
    case ResendRecheck(p) => ReadyToResend(cfg, t, log, tid, p)
    case ResendLastGate(p) => ReadyToResend(cfg, t, log, tid, p)
    case Resend(p) => ReadyToResend(cfg, t, log, tid, p)
    case _ => true
  }

  predicate TaskOk(cfg: Config, t: Table, log: seq<Event>, tid: Tid, task: Task) {
    match task
    case Worker(id, w) => WorkerOk(t, id, w)
    case Reconciler(r) => ReconcilerOk(cfg, t, log, tid, r)
  }

  /** What was true when an event happened, given the events before it. */
  predicate EventOk(cfg: Config, before: seq<Event>, e: Event) {
    match e
    case Signed(_, id, _, seen, table) => Reloaded(table, id, seen)
    case Broadcast(_, id, s, table, _) => SentIn(table, id, s)
    case Judged(tid, id, s, _, p) =>
      && IsScan(p.rows, p.seen)
      && Tried(before, tid, p, |p.rows|)
      && BytesChecked(cfg, p)
      && p.rows[p.at].id == id
      && p.rows[p.at].row.submission == Some(s)
    case Rebroadcast(tid, id, s, table, p, _) =>
      && ReadyToResend(cfg, table, before, tid, p)
      && p.rows[p.at].id == id
      && p.rows[p.at].row.submission == Some(s)
    case _ => true
  }

  predicate IsSend(e: Event) {
    e.Broadcast? || e.Rebroadcast?
  }

  /** What an event leaves true for good: transactions sent or asked about, and bytes seen, are still journaled. */
  predicate StillJournaled(t: Table, e: Event) {
    && (IsSend(e) ==> SentIn(t, e.id, e.s))
    && (e.Judged? || e.HeadsRead? ==> Journaled(t, e.id, e.s))
    && (e.Judged? ==> EarlierDone(t, e.pass))
    && (e.Signed? && e.id in e.table && e.table[e.id].submission.Some? ==>
        Journaled(t, e.id, e.table[e.id].submission.value))
  }

  predicate LogOk(cfg: Config, t: Table, log: seq<Event>) {
    forall i | 0 <= i < |log| :: EventOk(cfg, log[..i], log[i]) && StillJournaled(t, log[i])
  }

  predicate ProcessOk(cfg: Config, t: Table, log: seq<Event>, p: Process) {
    forall tid | tid in p.tasks :: TaskOk(cfg, t, log, tid, p.tasks[tid])
  }

  predicate StateOk(cfg: Config, s: State) {
    && TableOk(cfg.chain, s.disk.table)
    && LogOk(cfg, s.disk.table, s.log)
    && forall p | p in s.procs :: ProcessOk(cfg, s.disk.table, s.log, s.procs[p])
  }

  lemma StoreKeepsTable(chain: ChainKind, d: Disk, c: Call, o: StoreOutcome)
    requires TableOk(chain, d.table)
    ensures TableOk(chain, Store(chain, d, c, o).0.table) && Evolves(d.table, Store(chain, d, c, o).0.table)
    ensures Store(chain, d, c, o).1 ==>
              o.Acknowledged? && Apply(chain, d.table, c).1
                  && Store(chain, d, c, o).0.table == Apply(chain, d.table, c).0
  {
    ApplyKeepsTable(chain, d.table, c);
  }

  /** Facts held by a task survive anything another task, or the database, does meanwhile. */
  lemma TaskStable(cfg: Config, t: Table, u: Table, log: seq<Event>, more: seq<Event>, tid: Tid, task: Task)
    requires TaskOk(cfg, t, log, tid, task) && Evolves(t, u)
    ensures TaskOk(cfg, u, log + more, tid, task)
  {
    if task.Reconciler? && task.r.ReleaseRow? {
      PassStable(t, u, task.r.pass);
    } else if task.Reconciler? && task.r.ReleaseFailed? {
      PassStable(t, u, task.r.pass);
    } else if task.Reconciler? && HasPass(task.r) {
      PassStable(t, u, task.r.pass);
    }
  }

  predicate HasPass(r: ReconcilerPc) {
    || r.NextRow? || r.Validate? || r.Query? || r.Heads? || r.MarkRow? || r.ResendGate? || r.ResendRecheck?
    || r.ResendLastGate? || r.Resend? || r.Quarantine? || r.FinishRow? || r.PauseCheck? || r.CheckRow?
  }

  lemma PassStable(t: Table, u: Table, p: Pass)
    requires PassOk(t, p) && Evolves(t, u)
    ensures PassOk(u, p)
    ensures EarlierDone(t, p) ==> EarlierDone(u, p)
  {
    EvolvesTransitive(p.seen, t, u);
  }

  lemma LogStable(cfg: Config, t: Table, u: Table, log: seq<Event>)
    requires LogOk(cfg, t, log) && Evolves(t, u)
    ensures LogOk(cfg, u, log)
  {
    forall i | 0 <= i < |log| ensures StillJournaled(u, log[i]) {
      assert StillJournaled(t, log[i]);
    }
  }

  lemma LogGrows(cfg: Config, t: Table, log: seq<Event>, e: Event)
    requires LogOk(cfg, t, log) && EventOk(cfg, log, e) && StillJournaled(t, e)
    ensures LogOk(cfg, t, log + [e])
  {
    forall i | 0 <= i < |log + [e]|
      ensures EventOk(cfg, (log + [e])[..i], (log + [e])[i]) && StillJournaled(t, (log + [e])[i])
    {
      if i < |log| {
        assert (log + [e])[..i] == log[..i];
        assert EventOk(cfg, log[..i], log[i]);
      } else {
        assert (log + [e])[..i] == log;
      }
    }
  }

  function Logged(e: Option<Event>): (r: seq<Event>) {
    if e.Some? then [e.value] else []
  }

  /** A task step leaves good tables, moves rows forward and announces only true events. */
  predicate GoodEffect(cfg: Config, t: Table, log: seq<Event>, tid: Tid, e: Effect) {
    && TableOk(cfg.chain, e.disk.table)
    && Evolves(t, e.disk.table)
    && (e.event.Some? ==> EventOk(cfg, log, e.event.value) && StillJournaled(e.disk.table, e.event.value))
    && TaskOk(cfg, e.disk.table, log + Logged(e.event), tid, e.task)
  }

  /** A journal write is good when both continuations are, over whatever journal the write leaves. */
  lemma WriteGood(cfg: Config, d: Disk, log: seq<Event>, tid: Tid, c: Call, o: StoreOutcome, e: Effect, gate: bool,
                  onOk: Task, onErr: Task, event: Option<Event>)
    requires TableOk(cfg.chain, d.table) && e == Write(cfg, d, gate, c, o, onOk, onErr, event)
    requires event.Some? ==> EventOk(cfg, log, event.value) && (event.value.Rejected? || event.value.ReleaseTried?)
    requires TaskOk(cfg, d.table, log + Logged(event), tid, onErr)
    requires Apply(cfg.chain, d.table, c).1 ==>
             TaskOk(cfg, Apply(cfg.chain, d.table, c).0, log + Logged(event), tid, onOk)
    ensures GoodEffect(cfg, d.table, log, tid, e)
  {
    StoreKeepsTable(cfg.chain, d, c, o);
    var more := log + Logged(event);
    assert more + [] == more;
    TaskStable(cfg, d.table, e.disk.table, more, [], tid, onErr);
  }

  lemma PersistGood(cfg: Config, d: Disk, log: seq<Event>, gate: bool, tid: Tid, id: Id, s: Submission, a: Answer)
    requires TableOk(cfg.chain, d.table)
    ensures GoodEffect(cfg, d.table, log, tid, WorkerStep(cfg, d, gate, tid, id, Persist(s), a))
  {
    WriteGood(cfg, d, log, tid, MarkPrepared(id, s), a.store, WorkerStep(cfg, d, gate, tid, id, Persist(s), a), gate,
              Worker(id, if cfg.chain.Near? then Recheck(s) else SubmitGate(s)), Worker(id, Pause), None);
  }

  lemma SubmitGood(cfg: Config, d: Disk, log: seq<Event>, gate: bool, tid: Tid, id: Id, s: Submission, a: Answer)
    requires TableOk(cfg.chain, d.table) && Journaled(d.table, id, s)
    ensures GoodEffect(cfg, d.table, log, tid, WorkerStep(cfg, d, gate, tid, id, Submit(s), a))
  {
    WriteGood(cfg, d, log, tid, MarkSubmitted(id), a.store, WorkerStep(cfg, d, gate, tid, id, Submit(s), a), gate,
              Worker(id, SendGate(s)), Worker(id, Pause), None);
  }

  lemma OutcomeGood(cfg: Config, d: Disk, log: seq<Event>, gate: bool, tid: Tid, id: Id, pc: WorkerPc, a: Answer,
                    c: Call)
    requires TableOk(cfg.chain, d.table)
    requires || (pc.Finish? && c == MarkTerminal(id, pc.state, pc.response))
             || (pc.Release? && c == MarkAwaitingRetry(id))
             || (pc.Reject? && c == MarkRefused(id, pc.response))
    ensures GoodEffect(cfg, d.table, log, tid, WorkerStep(cfg, d, gate, tid, id, pc, a))
  {
    WriteGood(cfg, d, log, tid, c, a.store, WorkerStep(cfg, d, gate, tid, id, pc, a), gate, Worker(id, Leave),
              Worker(id, Pause),
              if pc.Reject? then Some(Rejected(tid, id, pc.response, d.table)) else None);
  }

  /** What a worker step without a journal write leaves. */
  predicate MovesWell(cfg: Config, d: Disk, log: seq<Event>, e: Effect) {
    && e.disk == d && e.task.Worker? && WorkerOk(d.table, e.task.id, e.task.w)
    && (e.event.Some? ==> EventOk(cfg, log, e.event.value) && StillJournaled(d.table, e.event.value))
  }

  predicate BeforeBytes(pc: WorkerPc) {
    pc.Acquire? || pc.FirstGate? || pc.Verify? || pc.Reload? || pc.Sign? || pc.Liability? || pc.Pause? || pc.Leave?
  }

  lemma EarlyMoves(cfg: Config, d: Disk, log: seq<Event>, gate: bool, tid: Tid, id: Id, pc: WorkerPc, a: Answer)
    requires TableOk(cfg.chain, d.table) && WorkerOk(d.table, id, pc) && BeforeBytes(pc)
    ensures MovesWell(cfg, d, log, WorkerStep(cfg, d, gate, tid, id, pc, a))
  {
  }

  lemma LateMoves(cfg: Config, d: Disk, log: seq<Event>, gate: bool, tid: Tid, id: Id, pc: WorkerPc, a: Answer)
    requires WorkerOk(d.table, id, pc) && !BeforeBytes(pc) && !WorkerWrites(pc)
    ensures MovesWell(cfg, d, log, WorkerStep(cfg, d, gate, tid, id, pc, a))
  {
  }

  lemma WorkerPreserves(cfg: Config, d: Disk, log: seq<Event>, gate: bool, tid: Tid, id: Id, pc: WorkerPc, a: Answer,
                        e: Effect)
    requires TableOk(cfg.chain, d.table) && WorkerOk(d.table, id, pc) && e == WorkerStep(cfg, d, gate, tid, id, pc, a)
    ensures GoodEffect(cfg, d.table, log, tid, e)
  {
    if pc.Persist? {
      PersistGood(cfg, d, log, gate, tid, id, pc.s, a);
    } else if pc.Submit? {
      SubmitGood(cfg, d, log, gate, tid, id, pc.s, a);
    } else if pc.Finish? {
      OutcomeGood(cfg, d, log, gate, tid, id, pc, a, MarkTerminal(id, pc.state, pc.response));
    } else if pc.Release? {
      OutcomeGood(cfg, d, log, gate, tid, id, pc, a, MarkAwaitingRetry(id));
    } else if pc.Reject? {
      OutcomeGood(cfg, d, log, gate, tid, id, pc, a, MarkRefused(id, pc.response));
    } else {
      if BeforeBytes(pc) {
        EarlyMoves(cfg, d, log, gate, tid, id, pc, a);
      } else {
        LateMoves(cfg, d, log, gate, tid, id, pc, a);
      }
      QuietEffect(cfg, d, log, tid, e);
    }
  }

  lemma TriedOneMore(log: seq<Event>, tid: Tid, p: Pass, id: Id)
    requires Tried(log, tid, p, p.at) && p.at < |p.rows| && p.rows[p.at].id == id
    ensures Tried(log + Logged(Some(ReleaseTried(tid, id))), tid, p, p.at + 1)
  {
    assert ReleaseTried(tid, id) in log + Logged(Some(ReleaseTried(tid, id)));
  }

  lemma ReleaseContinues(cfg: Config, t: Table, u: Table, log: seq<Event>, tid: Tid, p: Pass)
    requires PassOk(t, p) && Evolves(t, u) && p.at < |p.rows| && Tried(log, tid, p, p.at + 1)
    ensures ReconcilerOk(cfg, u, log, tid, ReleaseRow(Advance(p)))
    ensures ReconcilerOk(cfg, t, log, tid, ReleaseFailed(p))
  {
    PassStable(t, u, p);
  }

  lemma ReleaseGood(cfg: Config, d: Disk, log: seq<Event>, gate: bool, tid: Tid, p: Pass, o: StoreOutcome, e: Effect,
                    id: Id)
    requires TableOk(cfg.chain, d.table) && PassOk(d.table, p) && Tried(log, tid, p, p.at)
    requires p.at < |p.rows| && p.rows[p.at].id == id
    requires e == Write(cfg, d, gate, MarkAwaitingRetry(id), o,
                        Reconciler(ReleaseRow(Advance(p))), Reconciler(ReleaseFailed(p)), Some(ReleaseTried(tid, id)))
    ensures GoodEffect(cfg, d.table, log, tid, e)
  {
    TriedOneMore(log, tid, p, id);
    ApplyKeepsTable(cfg.chain, d.table, MarkAwaitingRetry(id));
    ReleaseContinues(cfg, d.table, Apply(cfg.chain, d.table, MarkAwaitingRetry(id)).0,
                     log + Logged(Some(ReleaseTried(tid, id))), tid, p);
    WriteGood(cfg, d, log, tid, MarkAwaitingRetry(id), o, e, gate,
              Reconciler(ReleaseRow(Advance(p))), Reconciler(ReleaseFailed(p)), Some(ReleaseTried(tid, id)));
  }

  /** Past the last row the pass turns to the journaled ones; other rows need no release. */
  lemma ReleaseSkips(cfg: Config, t: Table, log: seq<Event>, tid: Tid, p: Pass)
    requires PassOk(t, p) && Tried(log, tid, p, p.at)
    ensures p.at >= |p.rows| ==> Ordered(t, log, tid, p.(at := 0))
    ensures p.at < |p.rows| && !p.rows[p.at].row.state.Reserved? ==>
              ReconcilerOk(cfg, t, log, tid, ReleaseRow(Advance(p)))
  {
  }

  lemma ReleasePreserves(cfg: Config, d: Disk, log: seq<Event>, gate: bool, tid: Tid, p: Pass, a: Answer, e: Effect)
    requires TableOk(cfg.chain, d.table) && PassOk(d.table, p) && Tried(log, tid, p, p.at)
    requires e == ReleaseStep(cfg, d, gate, tid, p, a)
    ensures GoodEffect(cfg, d.table, log, tid, e)
  {
    if p.at < |p.rows| && p.rows[p.at].row.state.Reserved? && a.ok {
      ReleaseGood(cfg, d, log, gate, tid, p, a.store, e, p.rows[p.at].id);
    } else {
      assert log + Logged(None) == log;
      ReleaseSkips(cfg, d.table, log, tid, p);
      QuietEffect(cfg, d, log, tid, e);
    }
  }

  /** Once the row's bytes are marked, the pass may send them. */
  lemma MarkContinues(cfg: Config, t: Table, log: seq<Event>, tid: Tid, p: Pass, c: Call)
    requires TableOk(cfg.chain, t) && OnRow(t, log, tid, p) && SeenUnknown(cfg, log, tid, p)
    requires c == MarkSubmitted(p.rows[p.at].id) && Apply(cfg.chain, t, c).1
    ensures ReadyToResend(cfg, Apply(cfg.chain, t, c).0, log, tid, p)
  {
    PassRow(t, p, p.at);
    ApplyKeepsTable(cfg.chain, t, c);
    PassStable(t, Apply(cfg.chain, t, c).0, p);
  }

  lemma MarkGood(cfg: Config, d: Disk, log: seq<Event>, gate: bool, tid: Tid, p: Pass, o: StoreOutcome, e: Effect,
                 c: Call)
    requires TableOk(cfg.chain, d.table) && OnRow(d.table, log, tid, p) && SeenUnknown(cfg, log, tid, p)
    requires c == MarkSubmitted(p.rows[p.at].id)
    requires e == Write(cfg, d, gate, c, o, Reconciler(ResendGate(p)), Reconciler(Quit), None)
    ensures GoodEffect(cfg, d.table, log, tid, e)
  {
    assert log + Logged(None) == log;
    if Apply(cfg.chain, d.table, c).1 {
      MarkContinues(cfg, d.table, log, tid, p, c);
    }
    WriteGood(cfg, d, log, tid, c, o, e, gate, Reconciler(ResendGate(p)), Reconciler(Quit), None);
  }

  lemma MarkPreserves(cfg: Config, d: Disk, log: seq<Event>, gate: bool, tid: Tid, p: Pass, a: Answer, e: Effect)
    requires TableOk(cfg.chain, d.table) && OnRow(d.table, log, tid, p) && SeenUnknown(cfg, log, tid, p)
    requires e == MarkStep(cfg, d, gate, p, a)
    ensures GoodEffect(cfg, d.table, log, tid, e)
  {
    var rec := p.rows[p.at];
    if rec.row.state.Prepared? {
      MarkGood(cfg, d, log, gate, tid, p, a.store, e, MarkSubmitted(rec.id));
    } else {
      assert log + Logged(None) == log;
      PassRow(d.table, p, p.at);
      QuietEffect(cfg, d, log, tid, e);
    }
  }

  /** Wherever a finished or unfinished row leads, the pass keeps its place. */
  lemma ContinueOk(cfg: Config, t: Table, u: Table, log: seq<Event>, tid: Tid, p: Pass, next: Then)
    requires OnRow(t, log, tid, p) && Evolves(t, u)
    ensures ReconcilerOk(cfg, u, log, tid, Continue(next, p))
  {
    PassStable(t, u, p);
  }

  lemma FinishContinues(cfg: Config, t: Table, log: seq<Event>, tid: Tid, pc: ReconcilerPc, c: Call)
    requires TableOk(cfg.chain, t) && pc.FinishRow? && OnRow(t, log, tid, pc.pass)
    ensures ReconcilerOk(cfg, Apply(cfg.chain, t, c).0, log, tid, Continue(pc.onSuccess, pc.pass))
    ensures ReconcilerOk(cfg, t, log, tid, Continue(pc.onError, pc.pass))
  {
    ApplyKeepsTable(cfg.chain, t, c);
    assert Evolves(t, t);
    ContinueOk(cfg, t, Apply(cfg.chain, t, c).0, log, tid, pc.pass, pc.onSuccess);
    ContinueOk(cfg, t, t, log, tid, pc.pass, pc.onError);
  }

  lemma FinishPreserves(cfg: Config, d: Disk, log: seq<Event>, gate: bool, tid: Tid, pc: ReconcilerPc, a: Answer,
                        e: Effect, c: Call)
    requires TableOk(cfg.chain, d.table) && pc.FinishRow? && OnRow(d.table, log, tid, pc.pass)
    requires c == MarkTerminal(pc.pass.rows[pc.pass.at].id, pc.state, pc.response)
    requires e == Write(cfg, d, gate, c, a.store,
                        Reconciler(Continue(pc.onSuccess, pc.pass)), Reconciler(Continue(pc.onError, pc.pass)), None)
    ensures GoodEffect(cfg, d.table, log, tid, e)
  {
    assert log + Logged(None) == log;
    FinishContinues(cfg, d.table, log, tid, pc, c);
    WriteGood(cfg, d, log, tid, c, a.store, e, gate,
              Reconciler(Continue(pc.onSuccess, pc.pass)), Reconciler(Continue(pc.onError, pc.pass)), None);
  }

  /** A step without a journal write is good as soon as its event and next task are. */
  lemma QuietEffect(cfg: Config, d: Disk, log: seq<Event>, tid: Tid, e: Effect)
    requires TableOk(cfg.chain, d.table) && e.disk.table == d.table
    requires e.event.Some? ==> EventOk(cfg, log, e.event.value) && StillJournaled(d.table, e.event.value)
    requires TaskOk(cfg, d.table, log + Logged(e.event), tid, e.task)
    ensures GoodEffect(cfg, d.table, log, tid, e)
  {
    forall k | k in d.table ensures RowEvolves(d.table[k], d.table[k]) {}
  }

  lemma OnRowGrows(t: Table, log: seq<Event>, more: seq<Event>, tid: Tid, p: Pass)
    requires OnRow(t, log, tid, p)
    ensures OnRow(t, log + more, tid, p)
  {
  }

  /** Program counters that need no more than a current row. */
  predicate NeedsRow(pc: ReconcilerPc) {
    pc.Validate? || pc.Quarantine? || pc.FinishRow? || pc.PauseCheck? || pc.CheckRow?
  }

  lemma RowSuffices(cfg: Config, t: Table, log: seq<Event>, tid: Tid, pc: ReconcilerPc)
    requires NeedsRow(pc) && OnRow(t, log, tid, pc.pass)
    ensures ReconcilerOk(cfg, t, log, tid, pc)
  {
  }

  /** Answers about a row keep the pass on that row, unless they end it. */
  lemma AnswersStayOnRow(cfg: Config, p: Pass, a: Answer)
    ensures var pc := AfterVerdict(cfg, p, a);
            || pc.PauseLeave? || (NeedsRow(pc) && pc.pass == p)
            || (a.verdict.Unknown? && (pc == Heads(p) || pc == MarkRow(p)))
    ensures var pc := AfterHeads(p, a); pc.Quit? || (NeedsRow(pc) && pc.pass == p) || pc == MarkRow(p)
    ensures var pc := AfterResend(cfg, p, a); NeedsRow(pc) && pc.pass == p
  {
  }

  lemma QueryEvent(cfg: Config, t: Table, log: seq<Event>, tid: Tid, p: Pass, v: Verdict, s: Submission)
    requires OnRow(t, log, tid, p) && BytesChecked(cfg, p) && p.rows[p.at].row.submission == Some(s)
    ensures EventOk(cfg, log, Judged(tid, p.rows[p.at].id, s, v, p))
    ensures StillJournaled(t, Judged(tid, p.rows[p.at].id, s, v, p))
  {
    PassRow(t, p, p.at);
  }

  lemma QueryTask(cfg: Config, d: Disk, log: seq<Event>, gate: bool, tid: Tid, p: Pass, a: Answer, e: Effect)
    requires OnRow(d.table, log, tid, p) && BytesChecked(cfg, p) && e == QueryStep(cfg, d, gate, tid, p, a)
    ensures e.disk == d && e.event.Some? && EventOk(cfg, log, e.event.value) && StillJournaled(d.table, e.event.value)
    ensures TaskOk(cfg, d.table, log + Logged(e.event), tid, e.task)
  {
    QueryEvent(cfg, d.table, log, tid, p, a.verdict, p.rows[p.at].row.submission.value);
    OnRowGrows(d.table, log, Logged(e.event), tid, p);
    assert e.event.value in log + Logged(e.event);
    AnswersStayOnRow(cfg, p, a);
    if NeedsRow(e.task.r) {
      RowSuffices(cfg, d.table, log + Logged(e.event), tid, e.task.r);
    }
  }

  lemma HeadsTask(cfg: Config, d: Disk, log: seq<Event>, gate: bool, tid: Tid, p: Pass, a: Answer, e: Effect)
    requires OnRow(d.table, log, tid, p) && SeenUnknown(cfg, log, tid, p) && e == HeadsStep(d, gate, tid, p, a)
    ensures e.disk == d && e.event.Some? && EventOk(cfg, log, e.event.value) && StillJournaled(d.table, e.event.value)
    ensures TaskOk(cfg, d.table, log + Logged(e.event), tid, e.task)
  {
    PassRow(d.table, p, p.at);
    OnRowGrows(d.table, log, Logged(e.event), tid, p);
    AnswersStayOnRow(cfg, p, a);
    if NeedsRow(e.task.r) {
      RowSuffices(cfg, d.table, log + Logged(e.event), tid, e.task.r);
    }
  }

  lemma ResendTask(cfg: Config, d: Disk, log: seq<Event>, gate: bool, tid: Tid, p: Pass, a: Answer, e: Effect)
    requires ReadyToResend(cfg, d.table, log, tid, p) && e == ResendStep(cfg, d, gate, tid, p, a)
    ensures e.disk == d && e.event.Some? && EventOk(cfg, log, e.event.value) && StillJournaled(d.table, e.event.value)
    ensures TaskOk(cfg, d.table, log + Logged(e.event), tid, e.task)
  {
    OnRowGrows(d.table, log, Logged(e.event), tid, p);
    AnswersStayOnRow(cfg, p, a);
    RowSuffices(cfg, d.table, log + Logged(e.event), tid, e.task.r);
  }

  lemma ScanTask(cfg: Config, d: Disk, log: seq<Event>, gate: bool, tid: Tid, a: Answer)
    requires TableOk(cfg.chain, d.table)
    ensures var e := ScanStep(d, gate, tid, a);
            && e.disk == d && (e.event.Some? ==> e.event.value.Scanned?)
            && TaskOk(cfg, d.table, log + Logged(e.event), tid, e.task)
  {
    var e := ScanStep(d, gate, tid, a);
    if e.event.Some? {
      assert e.event.value in log + Logged(e.event);
      forall k | k in d.table ensures RowEvolves(d.table[k], d.table[k]) {}
    }
  }

  /** The row just checked has finished, so the pass may leave it behind. */
  lemma StepOver(t: Table, log: seq<Event>, tid: Tid, p: Pass)
    requires Ordered(t, log, tid, p) && p.at < |p.rows|
    requires InFlight(p.rows[p.at].row.state) ==> p.rows[p.at].id in t && Terminal(t[p.rows[p.at].id].state)
    ensures Ordered(t, log, tid, Advance(p))
  {
  }

  lemma NextRowTask(cfg: Config, d: Disk, log: seq<Event>, gate: bool, tid: Tid, p: Pass, a: Answer, e: Effect)
    requires Ordered(d.table, log, tid, p) && e == NextRowStep(d, gate, p, a)
    ensures e.disk == d && e.event.None? && TaskOk(cfg, d.table, log, tid, e.task)
  {
    if p.at < |p.rows| && !InFlight(p.rows[p.at].row.state) {
      StepOver(d.table, log, tid, p);
    }
  }

  lemma CheckRowTask(cfg: Config, d: Disk, log: seq<Event>, gate: bool, tid: Tid, p: Pass, a: Answer, e: Effect)
    requires OnRow(d.table, log, tid, p) && e == CheckStep(d, gate, p, a)
    ensures e.disk == d && e.event.None? && TaskOk(cfg, d.table, log, tid, e.task)
  {
    PassRow(d.table, p, p.at);
    if Terminal(d.table[p.rows[p.at].id].state) {
      StepOver(d.table, log, tid, p);
    }
  }

  /** Steps on the current row, before and after it was found unknown, that only choose where to go next. */
  predicate Judges(pc: ReconcilerPc) {
    pc.PauseCheck? || pc.Validate?
  }

  lemma JudgesTask(cfg: Config, d: Disk, log: seq<Event>, gate: bool, tid: Tid, pc: ReconcilerPc, a: Answer)
    requires Judges(pc) && ReconcilerOk(cfg, d.table, log, tid, pc)
    ensures var e := ReconcilerStep(cfg, d, gate, tid, pc, a);
            e.disk == d && e.event.None? && TaskOk(cfg, d.table, log, tid, e.task)
  {
  }

  predicate Gates(pc: ReconcilerPc) {
    pc.ResendGate? || pc.ResendRecheck? || pc.ResendLastGate?
  }

  /** Events that claim nothing about the journal. */
  predicate Plain(e: Event) {
    !IsSend(e) && !e.Judged? && !e.HeadsRead? && !e.Signed?
  }

  lemma ReadyGrows(cfg: Config, t: Table, log: seq<Event>, more: seq<Event>, tid: Tid, p: Pass)
    requires ReadyToResend(cfg, t, log, tid, p)
    ensures ReadyToResend(cfg, t, log + more, tid, p)
  {
    OnRowGrows(t, log, more, tid, p);
  }

  lemma GatesTask(cfg: Config, d: Disk, log: seq<Event>, gate: bool, tid: Tid, pc: ReconcilerPc, a: Answer, e: Effect)
    requires Gates(pc) && ReadyToResend(cfg, d.table, log, tid, pc.pass)
    requires e == ReconcilerStep(cfg, d, gate, tid, pc, a)
    ensures e.disk == d && e.event.Some? && Plain(e.event.value)
    ensures TaskOk(cfg, d.table, log + Logged(e.event), tid, e.task)
  {
    ReadyGrows(cfg, d.table, log, Logged(e.event), tid, pc.pass);
  }

  lemma QuarantineTask(cfg: Config, d: Disk, log: seq<Event>, tid: Tid, pc: ReconcilerPc, a: Answer, e: Effect)
    requires pc.Quarantine? && OnRow(d.table, log, tid, pc.pass)
    requires e == QuarantineStep(d, tid, pc.pass, pc.state, pc.response, a)
    ensures e.disk == d && (e.event.Some? ==> Plain(e.event.value))
    ensures TaskOk(cfg, d.table, log + Logged(e.event), tid, e.task)
  {
    OnRowGrows(d.table, log, Logged(e.event), tid, pc.pass);
  }

  /** Steps before and after the rows. */
  predicate Outside(pc: ReconcilerPc) {
    || pc.Start? || pc.CloseGate? || pc.Enter? || pc.PauseLeave? || pc.Remaining? || pc.OpenGate? || pc.Quit?
    || pc.ReleaseFailed?
  }

  lemma OutsideTask(cfg: Config, d: Disk, log: seq<Event>, gate: bool, tid: Tid, pc: ReconcilerPc, a: Answer)
    requires Outside(pc) && !pc.Start? && ReconcilerOk(cfg, d.table, log, tid, pc)
    ensures var e := ReconcilerStep(cfg, d, gate, tid, pc, a);
            e.disk == d && e.event.None? && TaskOk(cfg, d.table, log, tid, e.task)
  {
  }

  /** Steps that announce an event without writing the journal. */
  predicate Asks(pc: ReconcilerPc) {
    pc.Query? || pc.Heads? || pc.Resend? || pc.Scan? || Gates(pc) || pc.Quarantine? || pc.Start?
  }

  lemma AskPreserves(cfg: Config, d: Disk, log: seq<Event>, gate: bool, tid: Tid, pc: ReconcilerPc, a: Answer,
                     e: Effect)
    requires TableOk(cfg.chain, d.table) && ReconcilerOk(cfg, d.table, log, tid, pc)
    requires Asks(pc) && e == ReconcilerStep(cfg, d, gate, tid, pc, a)
    ensures GoodEffect(cfg, d.table, log, tid, e)
  {
    if pc.Query? {
      QueryTask(cfg, d, log, gate, tid, pc.pass, a, e);
    } else if pc.Heads? {
      HeadsTask(cfg, d, log, gate, tid, pc.pass, a, e);
    } else if pc.Resend? {
      ResendTask(cfg, d, log, gate, tid, pc.pass, a, e);
    } else if Gates(pc) {
      GatesTask(cfg, d, log, gate, tid, pc, a, e);
    } else if pc.Quarantine? {
      QuarantineTask(cfg, d, log, tid, pc, a, e);
    } else if pc.Scan? {
      ScanTask(cfg, d, log, gate, tid, a);
    }
    QuietEffect(cfg, d, log, tid, e);
  }

  lemma QuietPreserves(cfg: Config, d: Disk, log: seq<Event>, gate: bool, tid: Tid, pc: ReconcilerPc, a: Answer,
                       e: Effect)
    requires TableOk(cfg.chain, d.table) && ReconcilerOk(cfg, d.table, log, tid, pc)
    requires !pc.ReleaseRow? && !pc.MarkRow? && !pc.FinishRow? && !Asks(pc)
             && e == ReconcilerStep(cfg, d, gate, tid, pc, a)
    ensures GoodEffect(cfg, d.table, log, tid, e)
  {
    assert log + Logged(None) == log;
    if Judges(pc) {
      JudgesTask(cfg, d, log, gate, tid, pc, a);
    } else if Outside(pc) {
      OutsideTask(cfg, d, log, gate, tid, pc, a);
    } else if pc.NextRow? {
      NextRowTask(cfg, d, log, gate, tid, pc.pass, a, e);
    } else {
      CheckRowTask(cfg, d, log, gate, tid, pc.pass, a, e);
    }
    QuietEffect(cfg, d, log, tid, e);
  }

  lemma ReconcilerPreserves(cfg: Config, d: Disk, log: seq<Event>, gate: bool, tid: Tid, pc: ReconcilerPc, a: Answer,
                            e: Effect)
    requires TableOk(cfg.chain, d.table) && ReconcilerOk(cfg, d.table, log, tid, pc)
    requires e == ReconcilerStep(cfg, d, gate, tid, pc, a)
    ensures GoodEffect(cfg, d.table, log, tid, e)
  {
    if pc.ReleaseRow? {
      ReleasePreserves(cfg, d, log, gate, tid, pc.pass, a, e);
    } else if pc.MarkRow? {
      MarkPreserves(cfg, d, log, gate, tid, pc.pass, a, e);
    } else if pc.FinishRow? {
      FinishPreserves(cfg, d, log, gate, tid, pc, a, e,
                      MarkTerminal(pc.pass.rows[pc.pass.at].id, pc.state, pc.response));
    } else if Asks(pc) {
      AskPreserves(cfg, d, log, gate, tid, pc, a, e);
    } else {
      QuietPreserves(cfg, d, log, gate, tid, pc, a, e);
    }
  }

  /** One task of a process takes a good step and the others stand still. */
  lemma Splice(cfg: Config, t: Table, log: seq<Event>, p: Process, tid: Tid, e: Effect, p': Process)
    requires LogOk(cfg, t, log) && ProcessOk(cfg, t, log, p) && GoodEffect(cfg, t, log, tid, e)
    requires forall k | k in p'.tasks ::
               (k == tid && p'.tasks[k] == e.task) || (k in p.tasks && p'.tasks[k] == p.tasks[k])
    ensures LogOk(cfg, e.disk.table, log + Logged(e.event)) && ProcessOk(cfg, e.disk.table, log + Logged(e.event), p')
  {
    assert log + [] == log;
    LogStable(cfg, t, e.disk.table, log);
    if e.event.Some? {
      LogGrows(cfg, e.disk.table, log, e.event.value);
    }
    forall k | k in p'.tasks ensures TaskOk(cfg, e.disk.table, log + Logged(e.event), k, p'.tasks[k]) {
      if !(k == tid && p'.tasks[k] == e.task) {
        TaskStable(cfg, t, e.disk.table, log, Logged(e.event), k, p.tasks[k]);
      }
    }
  }

  lemma RunTaskPreserves(cfg: Config, d: Disk, log: seq<Event>, p: Process, t: Tid, a: Answer)
    requires TableOk(cfg.chain, d.table) && LogOk(cfg, d.table, log) && ProcessOk(cfg, d.table, log, p)
    requires t in p.tasks
    ensures var (d', p', event) := RunTask(cfg, d, p, t, a);
            && TableOk(cfg.chain, d'.table) && Evolves(d.table, d'.table)
            && LogOk(cfg, d'.table, log + Logged(event)) && ProcessOk(cfg, d'.table, log + Logged(event), p')
  {
    var task := p.tasks[t];
    assert TaskOk(cfg, d.table, log, t, task);
    if Finished(task) || (Waiting(task) && p.lock.Some?) {
      assert log + [] == log;
    } else {
      var e := TaskStep(cfg, d, p.gate, t, task, a);
      TaskPreserves(cfg, d, log, p.gate, t, task, a, e);
      Splice(cfg, d.table, log, p, t, e, RunTask(cfg, d, p, t, a).1);
    }
  }

  lemma TaskPreserves(cfg: Config, d: Disk, log: seq<Event>, gate: bool, t: Tid, task: Task, a: Answer, e: Effect)
    requires TableOk(cfg.chain, d.table) && TaskOk(cfg, d.table, log, t, task)
             && e == TaskStep(cfg, d, gate, t, task, a)
    ensures GoodEffect(cfg, d.table, log, t, e)
  {
    if task.Worker? {
      WorkerPreserves(cfg, d, log, gate, t, task.id, task.w, a, e);
    } else {
      ReconcilerPreserves(cfg, d, log, gate, t, task.r, a, e);
    }
  }

  /** Replacing the journal by a later one, and one process by a good one, keeps the state good. */
  lemma Assemble(cfg: Config, s: State, d: Disk, procs: map<Pid, Process>, more: seq<Event>, next: Tid)
    requires StateOk(cfg, s) && TableOk(cfg.chain, d.table) && Evolves(s.disk.table, d.table)
    requires LogOk(cfg, d.table, s.log + more)
    requires forall p | p in procs ::
               (p in s.procs && procs[p] == s.procs[p]) || ProcessOk(cfg, d.table, s.log + more, procs[p])
    ensures StateOk(cfg, State(d, procs, next, s.log + more))
  {
    forall p | p in procs ensures ProcessOk(cfg, d.table, s.log + more, procs[p]) {
      if p in s.procs && procs[p] == s.procs[p] {
        forall t | t in procs[p].tasks ensures TaskOk(cfg, d.table, s.log + more, t, procs[p].tasks[t]) {
          TaskStable(cfg, s.disk.table, d.table, s.log, more, t, procs[p].tasks[t]);
        }
      }
    }
  }

  /** A request writes one row and may start a worker. */
  lemma RequestPreserves(cfg: Config, s: State, p: Pid, call: Call, store: StoreOutcome, d: Disk, proc: Process,
                         next: Tid)
    requires StateOk(cfg, s) && p in s.procs && d == Store(cfg.chain, s.disk, call, store).0
    requires forall t | t in proc.tasks ::
               (t in s.procs[p].tasks && proc.tasks[t] == s.procs[p].tasks[t])
                   || proc.tasks[t] == Worker(call.id, Acquire)
    ensures StateOk(cfg, State(d, s.procs[p := proc], next, s.log)) && Evolves(s.disk.table, d.table)
  {
    assert s.log + [] == s.log;
    StoreKeepsTable(cfg.chain, s.disk, call, store);
    LogStable(cfg, s.disk.table, d.table, s.log);
    assert ProcessOk(cfg, s.disk.table, s.log, s.procs[p]);
    forall t | t in proc.tasks ensures TaskOk(cfg, d.table, s.log + [], t, proc.tasks[t]) {
      if t in s.procs[p].tasks && proc.tasks[t] == s.procs[p].tasks[t] {
        TaskStable(cfg, s.disk.table, d.table, s.log, [], t, s.procs[p].tasks[t]);
      }
    }
    Assemble(cfg, s, d, s.procs[p := proc], [], next);
  }

  lemma StepPreserves(cfg: Config, s: State, step: Step)
    requires StateOk(cfg, s)
    ensures StateOk(cfg, Do(cfg, s, step)) && Evolves(s.disk.table, Do(cfg, s, step).disk.table)
  {
    var s' := Do(cfg, s, step);
    assert s.log + [] == s.log;
    assert Evolves(s.disk.table, s.disk.table);
    match step
    case Boot(p) => Assemble(cfg, s, s.disk, s'.procs, [], s.nextTid);
    case Crash(p) => Assemble(cfg, s, s.disk, s'.procs, [], s.nextTid);
    case CancelPass(p, t) =>
      if p in s.procs && t in s.procs[p].tasks && s.procs[p].tasks[t].Reconciler? {
        assert ProcessOk(cfg, s.disk.table, s.log, s.procs[p]);
        Assemble(cfg, s, s.disk, s'.procs, [], s.nextTid);
      }
    case LoseGate(p) => if p in s.procs { assert ProcessOk(cfg, s.disk.table, s.log, s.procs[p]); }
    case Request(p, call, store) =>
      if p in s.procs && (call.Claim? || call.Resume?) {
        RequestPreserves(cfg, s, p, call, store, s'.disk, s'.procs[p], s'.nextTid);
        assert s.procs[p := s'.procs[p]] == s'.procs;
      }
    case StartPass(p) =>
      if p in s.procs {
        assert ProcessOk(cfg, s.disk.table, s.log, s.procs[p]);
        Assemble(cfg, s, s.disk, s'.procs, [], s'.nextTid);
      }
    case Land(call) =>
      if call in s.disk.late {
        ApplyKeepsTable(cfg.chain, s.disk.table, call);
        LogStable(cfg, s.disk.table, s'.disk.table, s.log);
        Assemble(cfg, s, s'.disk, s.procs, [], s.nextTid);
      }
    case Run(p, t, a) =>
      if p in s.procs && t in s.procs[p].tasks {
        assert ProcessOk(cfg, s.disk.table, s.log, s.procs[p]);
        var (d, proc, event) := RunTask(cfg, s.disk, s.procs[p], t, a);
        RunTaskPreserves(cfg, s.disk, s.log, s.procs[p], t, a);
        Assemble(cfg, s, d, s'.procs, Logged(event), s.nextTid);
      }
  }

  lemma {:induction false} RunPreserves(cfg: Config, s: State, steps: seq<Step>)
    requires StateOk(cfg, s)
    ensures StateOk(cfg, Execute(cfg, s, steps))
    ensures Evolves(s.disk.table, Execute(cfg, s, steps).disk.table)
  {
    if steps != [] {
      var before := steps[..|steps| - 1];
      RunPreserves(cfg, s, before);
      var mid := Execute(cfg, s, before);
      StepPreserves(cfg, mid, steps[|steps| - 1]);
      EvolvesTransitive(s.disk.table, mid.disk.table, Execute(cfg, s, steps).disk.table);
    }
  }

  lemma ReachableOk(cfg: Config, s: State, steps: seq<Step>)
    requires Initial(cfg, s)
    ensures StateOk(cfg, Execute(cfg, s, steps))
  {
    RunPreserves(cfg, s, steps);
  }

  /** Never re-sign: every transaction ever sent for one settlement, first send or replay, is the same. */
  lemma OneTransactionPerSettlement(cfg: Config, s: State, steps: seq<Step>, i: nat, j: nat)
    requires Initial(cfg, s)
    requires i < |Execute(cfg, s, steps).log| && j < |Execute(cfg, s, steps).log|
    requires IsSend(Execute(cfg, s, steps).log[i]) && IsSend(Execute(cfg, s, steps).log[j])
    requires Execute(cfg, s, steps).log[i].id == Execute(cfg, s, steps).log[j].id
    ensures Execute(cfg, s, steps).log[i].s == Execute(cfg, s, steps).log[j].s
  {
    ReachableOk(cfg, s, steps);
    var r := Execute(cfg, s, steps);
    assert StillJournaled(r.disk.table, r.log[i]) && StillJournaled(r.disk.table, r.log[j]);
  }

  /** Two settlements never send transactions that compete for one signer nonce. */
  lemma DistinctSettlementsDistinctNonces(cfg: Config, s: State, steps: seq<Step>, i: nat, j: nat)
    requires Initial(cfg, s)
    requires i < |Execute(cfg, s, steps).log| && j < |Execute(cfg, s, steps).log|
    requires IsSend(Execute(cfg, s, steps).log[i]) && IsSend(Execute(cfg, s, steps).log[j])
    requires Execute(cfg, s, steps).log[i].id != Execute(cfg, s, steps).log[j].id
    ensures var a, b := Execute(cfg, s, steps).log[i].s, Execute(cfg, s, steps).log[j].s;
            a.signer != b.signer || a.nonce != b.nonce
    ensures var t := Execute(cfg, s, steps).disk.table;
            var a, b := Execute(cfg, s, steps).log[i].id, Execute(cfg, s, steps).log[j].id;
            a in t && b in t && t[a].anchor != t[b].anchor
  {
    ReachableOk(cfg, s, steps);
    var r := Execute(cfg, s, steps);
    assert StillJournaled(r.disk.table, r.log[i]) && StillJournaled(r.disk.table, r.log[j]);
    assert NonceFree(r.disk.table, r.log[i].id, r.log[i].s);
  }

  /** Journal before broadcast: at every send the row already held these bytes and was marked submitted. */
  lemma WriteAhead(cfg: Config, s: State, steps: seq<Step>, i: nat)
    requires Initial(cfg, s)
    requires i < |Execute(cfg, s, steps).log| && IsSend(Execute(cfg, s, steps).log[i])
    ensures var e := Execute(cfg, s, steps).log[i];
            e.id in e.table && Sent(e.table[e.id], e.s)
  {
    ReachableOk(cfg, s, steps);
    var r := Execute(cfg, s, steps);
    assert EventOk(cfg, r.log[..i], r.log[i]);
  }

  /** Every row the scanned journal had reserved was offered for release before event `i`. */
  predicate ReleasedBefore(log: seq<Event>, i: nat, t: Tid, seen: Table) {
    forall k | k in seen && seen[k].state.Reserved? :: ReleaseTriedBefore(log, i, t, k)
  }

  predicate ReleaseTriedBefore(log: seq<Event>, i: nat, t: Tid, k: Id) {
    exists j | 0 <= j < i && j < |log| :: log[j] == ReleaseTried(t, k)
  }

  /** Every row in flight in the scanned journal and older than `id` has finished in `t`. */
  predicate OlderFinished(seen: Table, id: Id, t: Table) {
    id in seen && forall k | k in seen && InFlight(seen[k].state) && seen[k].created < seen[id].created ::
      k in t && Terminal(t[k].state)
  }

  lemma TriedMeansReleased(log: seq<Event>, i: nat, t: Tid, p: Pass)
    requires i <= |log| && IsScan(p.rows, p.seen) && Tried(log[..i], t, p, |p.rows|)
    ensures ReleasedBefore(log, i, t, p.seen)
  {
    forall k | k in p.seen && p.seen[k].state.Reserved? ensures ReleaseTriedBefore(log, i, t, k) {
      assert Record(k, p.seen[k]) in p.rows;
      assert ReleaseTried(t, k) in log[..i];
    }
  }

  /** The scan is complete and ordered, so what precedes a row in the list includes all that is older. */
  lemma EarlierMeansOlder(p: Pass, t: Table)
    requires IsScan(p.rows, p.seen) && p.at < |p.rows| && EarlierDone(t, p)
    ensures OlderFinished(p.seen, p.rows[p.at].id, t)
  {
    var id := p.rows[p.at].id;
    forall k | k in p.seen && InFlight(p.seen[k].state) && p.seen[k].created < p.seen[id].created
      ensures k in t && Terminal(t[k].state)
    {
      assert Record(k, p.seen[k]) in p.rows;
      var n :| 0 <= n < |p.rows| && p.rows[n] == Record(k, p.seen[k]);
      assert n < p.at;
    }
  }

  /**
   A replay follows, in the same pass, a scan of the journal, a release attempt of every reservation that scan
   found, the exact-byte check, and a verdict that both readers lack the transaction; and every settlement the scan
   found in flight and listed earlier, which includes all older ones, has finished by then.
   */
  lemma ReplayOnlyAfterUnknownInOrder(cfg: Config, s: State, steps: seq<Step>, i: nat)
    requires Initial(cfg, s)
    requires i < |Execute(cfg, s, steps).log| && Execute(cfg, s, steps).log[i].Rebroadcast?
    ensures var log := Execute(cfg, s, steps).log;
            var e := log[i];
            && cfg.valid(e.id, e.s)
            && (exists j | 0 <= j < i :: log[j] == Scanned(e.t, e.pass.seen))
            && (exists j | 0 <= j < i :: log[j] == Judged(e.t, e.id, e.s, Unknown, e.pass))
            && ReleasedBefore(log, i, e.t, e.pass.seen)
            && EarlierDone(e.table, e.pass) && OlderFinished(e.pass.seen, e.id, e.table)
  {
    ReachableOk(cfg, s, steps);
    var r := Execute(cfg, s, steps);
    var e := r.log[i];
    assert EventOk(cfg, r.log[..i], e);
    assert Scanned(e.t, e.pass.seen) in r.log[..i];
    TriedMeansReleased(r.log, i, e.t, e.pass);
    EarlierMeansOlder(e.pass, e.table);
  }

  /**
   Recovery asks the chain about a row only for journaled bytes that passed the check, after it tried to release
   every reservation of its scan, and once every settlement in flight listed earlier there has finished. Taken at the
   prefix that ends with the query, the last clauses speak of the journal at that instant.
   */
  lemma QueryOnlyAfterReleases(cfg: Config, s: State, steps: seq<Step>, i: nat)
    requires Initial(cfg, s)
    requires i < |Execute(cfg, s, steps).log| && Execute(cfg, s, steps).log[i].Judged?
    ensures var r := Execute(cfg, s, steps);
            var e := r.log[i];
            && cfg.valid(e.id, e.s)
            && Journaled(r.disk.table, e.id, e.s)
            && (exists j | 0 <= j < i :: r.log[j] == Scanned(e.t, e.pass.seen))
            && ReleasedBefore(r.log, i, e.t, e.pass.seen)
            && EarlierDone(r.disk.table, e.pass) && OlderFinished(e.pass.seen, e.id, r.disk.table)
  {
    ReachableOk(cfg, s, steps);
    var r := Execute(cfg, s, steps);
    var e := r.log[i];
    assert EventOk(cfg, r.log[..i], e) && StillJournaled(r.disk.table, e);
    assert Scanned(e.t, e.pass.seen) in r.log[..i];
    TriedMeansReleased(r.log, i, e.t, e.pass);
    EarlierMeansOlder(e.pass, r.disk.table);
  }

  /** Every signature is made by a worker whose own reload saw the row reserved and without bytes. */
  lemma SignsAfterCleanReload(cfg: Config, s: State, steps: seq<Step>, i: nat)
    requires Initial(cfg, s)
    requires i < |Execute(cfg, s, steps).log| && Execute(cfg, s, steps).log[i].Signed?
    ensures var e := Execute(cfg, s, steps).log[i];
            e.seen.state.Reserved? && e.seen.submission.None? && e.id in e.table && RowEvolves(e.seen, e.table[e.id])
  {
    ReachableOk(cfg, s, steps);
    var r := Execute(cfg, s, steps);
    assert EventOk(cfg, r.log[..i], r.log[i]);
  }

  /** Bytes signed while the row already journals other bytes are never sent, before or after, by anyone. */
  lemma SupersededBytesAreNeverSent(cfg: Config, s: State, steps: seq<Step>, i: nat, j: nat)
    requires Initial(cfg, s)
    requires i < |Execute(cfg, s, steps).log| && j < |Execute(cfg, s, steps).log|
    requires var e := Execute(cfg, s, steps).log[i];
             e.Signed? && e.id in e.table && e.table[e.id].submission.Some? && e.table[e.id].submission.value != e.s
    requires IsSend(Execute(cfg, s, steps).log[j])
             && Execute(cfg, s, steps).log[j].id == Execute(cfg, s, steps).log[i].id
    ensures Execute(cfg, s, steps).log[j].s != Execute(cfg, s, steps).log[i].s
  {
    ReachableOk(cfg, s, steps);
    var r := Execute(cfg, s, steps);
    assert StillJournaled(r.disk.table, r.log[i]) && StillJournaled(r.disk.table, r.log[j]);
  }

  /** A dormant row never carries bytes, and neither does a reservation. */
  lemma DormantRowsCarryNoBytes(cfg: Config, s: State, steps: seq<Step>, id: Id)
    requires Initial(cfg, s) && id in Execute(cfg, s, steps).disk.table
    requires var r := Execute(cfg, s, steps).disk.table[id]; r.state.AwaitingRetry? || r.state.Reserved?
    ensures Execute(cfg, s, steps).disk.table[id].submission.None?
  {
    ReachableOk(cfg, s, steps);
  }

  /** Once finished, a row, with its stored response, is never written again by anyone. */
  lemma FinishedForever(cfg: Config, s: State, steps: seq<Step>, r: State, more: seq<Step>, id: Id)
    requires Initial(cfg, s) && r == Execute(cfg, s, steps)
    requires id in r.disk.table && Terminal(r.disk.table[id].state)
    ensures id in Execute(cfg, r, more).disk.table && Execute(cfg, r, more).disk.table[id] == r.disk.table[id]
  {
    ReachableOk(cfg, s, steps);
    RunPreserves(cfg, r, more);
  }

  /** On EVM the database alone admits one active settlement per network and signer, whatever the processes do. */
  lemma OneActiveEvmSettlement(cfg: Config, s: State, steps: seq<Step>, a: Id, b: Id)
    requires Initial(cfg, s) && cfg.chain.Eip155?
    requires var t := Execute(cfg, s, steps).disk.table;
             a in t && b in t && Active(t[a].state) && Active(t[b].state) && t[a].slot == t[b].slot
    ensures a == b
  {
    ReachableOk(cfg, s, steps);
  }
}
