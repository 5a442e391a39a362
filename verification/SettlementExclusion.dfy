/**
 What the reconciliation gate and the relayer lock of one process mean in any run, with
 any other processes and any writes that land late. Everything that can go wrong enters
 through the foreign rows: those whose bytes were journaled by another process, or by a
 write that landed after its caller gave up.
 */
module SettlementExclusion {
  import opened Base
  import opened Journal
  import opened Settlement
  import opened SettlementSafety

  predicate HasBytes(t: Table, k: Id) {
    k in t && t[k].submission.Some?
  }

  function NewBytes(t: Table, u: Table): (r: set<Id>) {
    set k | k in u && HasBytes(u, k) && !HasBytes(t, k)
  }

  /** A step that process `p` does not take itself. */
  predicate IsForeign(step: Step, p: Pid) {
    step.Land? || (step.Run? && step.p != p)
  }

  /** The rows whose bytes were journaled by a step that `p` did not take. */
  function Foreign(cfg: Config, s: State, steps: seq<Step>, p: Pid): (f: set<Id>) {
    if steps == [] then {}
    else
      var before, step := steps[..|steps| - 1], steps[|steps| - 1];
      var mid := Execute(cfg, s, before);
      Foreign(cfg, s, before, p) +
      if IsForeign(step, p) then NewBytes(mid.disk.table, Do(cfg, mid, step).disk.table) else {}
  }

  predicate Quiet(t: Table) {
    forall k | k in t :: !InFlight(t[k].state)
  }

  predicate AllFinished(f: set<Id>, t: Table) {
    forall k | k in f :: k in t && Terminal(t[k].state)
  }

  /** Only rows of `f` are in flight. */
  predicate Within(t: Table, f: set<Id>) {
    forall k | k in t && InFlight(t[k].state) :: k in f
  }

  predicate WithinBut(t: Table, f: set<Id>, id: Id) {
    forall k | k in t && InFlight(t[k].state) :: k in f || k == id
  }

  predicate OneOutside(t: Table, f: set<Id>) {
    forall a, b | a in t && b in t && InFlight(t[a].state) && InFlight(t[b].state) && a !in f && b !in f :: a == b
  }

  /** A row that gained no bytes did not become in flight. */
  lemma StaysWithin(t: Table, u: Table, f: set<Id>, f': set<Id>)
    requires RowsOk(t) && RowsOk(u) && Evolves(t, u) && f <= f' && NewBytes(t, u) <= f'
    ensures Within(t, f) ==> Within(u, f')
    ensures forall id | WithinBut(t, f, id) :: WithinBut(u, f', id)
    ensures OneOutside(t, f) ==> OneOutside(u, f')
  {
    forall k | k in u && InFlight(u[k].state) && k !in f' ensures k in t && InFlight(t[k].state) {
      assert HasBytes(u, k) && k !in NewBytes(t, u);
    }
  }

  /** What the holder of the relayer lock knows about the journal. */
  predicate HolderOk(t: Table, f: set<Id>, gate: bool, task: Task) {
    match task
    case Worker(id, w) =>
      (match w
       case Acquire => true
       case FirstGate => gate ==> Within(t, f)
       case Release => gate ==> Within(t, f)
       case Leave => gate ==> Within(t, f)
       case Verify => Within(t, f)
       case Reload => Within(t, f)
       case Reject(_) => Within(t, f)
       case Sign(_) => Within(t, f) && id in t && (HasBytes(t, id) ==> id in f)
       case Liability(_) => Within(t, f)
       case Persist(_) => Within(t, f)
       case Pause => true
       case _ => WithinBut(t, f, id))
    case Reconciler(r) =>
      (gate ==> Within(t, f)) && (r.OpenGate? && r.ready ==> Within(t, f))
  }

  predicate LockOk(p: Process) {
    && (forall t | t in p.tasks :: HoldsLock(p.tasks[t]) <==> p.lock == Some(t))
    && (p.lock.Some? ==> p.lock.value in p.tasks)
  }

  predicate Guarded(t: Table, f: set<Id>, p: Process) {
    && LockOk(p)
    && (p.lock.None? && p.gate ==> Within(t, f))
    && (p.lock.Some? ==> HolderOk(t, f, p.gate, p.tasks[p.lock.value]))
  }

  predicate ExclusionOk(s: State, f: set<Id>, p: Pid) {
    && (p in s.procs ==> Guarded(s.disk.table, f, s.procs[p]) && forall t | t in s.procs[p].tasks :: t < s.nextTid)
    && forall k | k in f :: HasBytes(s.disk.table, k)
  }

  /** Whatever others do to the journal, the holder's knowledge survives up to the rows they gave bytes. */
  lemma HolderStable(t: Table, u: Table, f: set<Id>, f': set<Id>, gate: bool, task: Task)
    requires RowsOk(t) && RowsOk(u) && Evolves(t, u) && f <= f' && NewBytes(t, u) <= f'
    requires HolderOk(t, f, gate, task)
    ensures HolderOk(u, f', gate, task)
  {
    StaysWithin(t, u, f, f');
    if task.Worker? && HasBytes(u, task.id) && !HasBytes(t, task.id) {
      assert task.id in NewBytes(t, u);
    }
  }

  lemma GuardedStable(t: Table, u: Table, f: set<Id>, f': set<Id>, p: Process)
    requires RowsOk(t) && RowsOk(u) && Evolves(t, u) && f <= f' && NewBytes(t, u) <= f'
    requires Guarded(t, f, p)
    ensures Guarded(u, f', p)
  {
    StaysWithin(t, u, f, f');
    if p.lock.Some? {
      HolderStable(t, u, f, f', p.gate, p.tasks[p.lock.value]);
    }
  }

  /** Only a prepare gives a row bytes. */
  lemma StoreBytes(chain: ChainKind, d: Disk, c: Call, o: StoreOutcome)
    ensures NewBytes(d.table, Store(chain, d, c, o).0.table) <= if c.MarkPrepared? then {c.id} else {}
  {
  }

  /** What a step of the lock holder leaves. */
  predicate Keeps(t: Table, f: set<Id>, e: Effect) {
    && HolderOk(e.disk.table, f, e.gate, e.task) && HoldsLock(e.task)
    && (OneOutside(t, f) ==> OneOutside(e.disk.table, f))
  }

  /** A write that gives no row bytes leaves what both continuations need. */
  lemma CalmWrite(cfg: Config, d: Disk, f: set<Id>, gate: bool, c: Call, o: StoreOutcome, onOk: Task, onErr: Task,
                  event: Option<Event>, e: Effect)
    requires TableOk(cfg.chain, d.table) && !c.MarkPrepared? && e == Write(cfg, d, gate, c, o, onOk, onErr, event)
    requires HolderOk(d.table, f, gate, onOk) && HoldsLock(onOk) && HolderOk(d.table, f, gate, onErr)
             && HoldsLock(onErr)
    ensures Keeps(d.table, f, e)
  {
    StoreKeepsTable(cfg.chain, d, c, o);
    StoreBytes(cfg.chain, d, c, o);
    StaysWithin(d.table, e.disk.table, f, f);
    HolderStable(d.table, e.disk.table, f, f, gate, e.task);
  }

  /** A prepare adds at most the worker's own row. */
  lemma PersistKeeps(cfg: Config, d: Disk, f: set<Id>, gate: bool, t: Tid, id: Id, s: Submission, a: Answer, e: Effect)
    requires TableOk(cfg.chain, d.table) && Within(d.table, f) && e == WorkerStep(cfg, d, gate, t, id, Persist(s), a)
    ensures Keeps(d.table, f, e)
  {
    PreparedIsOwn(cfg.chain, d, f, id, MarkPrepared(id, s), a.store);
  }

  lemma PreparedIsOwn(chain: ChainKind, d: Disk, f: set<Id>, id: Id, c: Call, o: StoreOutcome)
    requires TableOk(chain, d.table) && Within(d.table, f) && c.MarkPrepared? && c.id == id
    ensures var u := Store(chain, d, c, o).0.table; WithinBut(u, f, id) && OneOutside(u, f)
  {
    var u := Store(chain, d, c, o).0.table;
    StoreKeepsTable(chain, d, c, o);
    StoreBytes(chain, d, c, o);
    StaysWithin(d.table, u, f, f + {id});
  }

  lemma WorkerWriteKeeps(cfg: Config, d: Disk, f: set<Id>, gate: bool, t: Tid, id: Id, w: WorkerPc, a: Answer,
                         e: Effect)
    requires TableOk(cfg.chain, d.table) && HolderOk(d.table, f, gate, Worker(id, w))
    requires WorkerWrites(w) && e == WorkerStep(cfg, d, gate, t, id, w, a)
    ensures Keeps(d.table, f, e)
  {
    var pause, leave := Worker(id, Pause), Worker(id, Leave);
    match w
    case Persist(s) => PersistKeeps(cfg, d, f, gate, t, id, s, a, e);
    case Submit(s) => CalmWrite(cfg, d, f, gate, MarkSubmitted(id), a.store, Worker(id, SendGate(s)), pause, None, e);
    case Finish(s, state, response) => FinishKeeps(cfg, d, f, gate, t, id, s, state, response, a, e);
    case Release => CalmWrite(cfg, d, f, gate, MarkAwaitingRetry(id), a.store, leave, pause, None, e);
    case Reject(response) =>
      CalmWrite(cfg, d, f, gate, MarkRefused(id, response), a.store, leave, pause,
                Some(Rejected(t, id, response, d.table)), e);
  }

  /** An acknowledged outcome takes the worker's own row out of flight. */
  lemma FinishedIsOut(chain: ChainKind, d: Disk, f: set<Id>, id: Id, c: Call, o: StoreOutcome)
    requires TableOk(chain, d.table) && WithinBut(d.table, f, id) && c.MarkTerminal? && c.id == id
    ensures var (d', ok) := Store(chain, d, c, o);
            && WithinBut(d'.table, f, id) && (ok ==> Within(d'.table, f))
            && (OneOutside(d.table, f) ==> OneOutside(d'.table, f))
  {
    var d' := Store(chain, d, c, o).0;
    StoreKeepsTable(chain, d, c, o);
    StoreBytes(chain, d, c, o);
    StaysWithin(d.table, d'.table, f, f);
  }

  lemma FinishKeeps(cfg: Config, d: Disk, f: set<Id>, gate: bool, t: Tid, id: Id, s: Submission, state: RowState,
                    response: string, a: Answer, e: Effect)
    requires TableOk(cfg.chain, d.table) && WithinBut(d.table, f, id)
    requires e == Write(cfg, d, gate, MarkTerminal(id, state, response), a.store, Worker(id, Leave), Worker(id, Pause),
                        None)
    ensures Keeps(d.table, f, e)
  {
    FinishedIsOut(cfg.chain, d, f, id, MarkTerminal(id, state, response), a.store);
  }

  predicate EarlyMove(w: WorkerPc) {
    w.FirstGate? || w.Verify? || w.Reload? || w.Sign? || w.Liability? || w.Pause? || w.Leave?
  }

  lemma EarlyMoveKeeps(cfg: Config, d: Disk, f: set<Id>, gate: bool, t: Tid, id: Id, w: WorkerPc, a: Answer)
    requires RowsOk(d.table) && EarlyMove(w) && HolderOk(d.table, f, gate, Worker(id, w))
    ensures Keeps(d.table, f, WorkerStep(cfg, d, gate, t, id, w, a))
  {
  }

  lemma LateMoveKeeps(cfg: Config, d: Disk, f: set<Id>, gate: bool, t: Tid, id: Id, w: WorkerPc, a: Answer)
    requires !w.Acquire? && !WorkerWrites(w) && !EarlyMove(w) && WithinBut(d.table, f, id)
    ensures Keeps(d.table, f, WorkerStep(cfg, d, gate, t, id, w, a))
  {
  }

  /** A pass that may write changes neither the gate nor anything it could rely on. */
  lemma PassWriteKeeps(cfg: Config, d: Disk, f: set<Id>, gate: bool, t: Tid, r: ReconcilerPc, a: Answer, e: Effect)
    requires TableOk(cfg.chain, d.table) && (gate ==> Within(d.table, f))
    requires PassWrites(r) && e == ReconcilerStep(cfg, d, gate, t, r, a)
    ensures Keeps(d.table, f, e)
  {
    match r
    case ReleaseRow(p) => ReleaseKeeps(cfg, d, f, gate, t, p, a, e);
    case MarkRow(p) => MarkKeeps(cfg, d, f, gate, p, a, e);
    case FinishRow(p, state, response, onError, onSuccess) =>
      if p.at < |p.rows| {
        CalmWrite(cfg, d, f, gate, MarkTerminal(p.rows[p.at].id, state, response), a.store,
                  Reconciler(Continue(onSuccess, p)), Reconciler(Continue(onError, p)), None, e);
      }
  }

  lemma ReleaseKeeps(cfg: Config, d: Disk, f: set<Id>, gate: bool, t: Tid, p: Pass, a: Answer, e: Effect)
    requires TableOk(cfg.chain, d.table) && (gate ==> Within(d.table, f)) && e == ReleaseStep(cfg, d, gate, t, p, a)
    ensures Keeps(d.table, f, e)
  {
    if p.at < |p.rows| && p.rows[p.at].row.state.Reserved? && a.ok {
      var id := p.rows[p.at].id;
      CalmWrite(cfg, d, f, gate, MarkAwaitingRetry(id), a.store, Reconciler(ReleaseRow(Advance(p))),
                Reconciler(ReleaseFailed(p)), Some(ReleaseTried(t, id)), e);
    }
  }

  lemma MarkKeeps(cfg: Config, d: Disk, f: set<Id>, gate: bool, p: Pass, a: Answer, e: Effect)
    requires TableOk(cfg.chain, d.table) && (gate ==> Within(d.table, f)) && e == MarkStep(cfg, d, gate, p, a)
    ensures Keeps(d.table, f, e)
  {
    if p.at < |p.rows| && p.rows[p.at].row.state.Prepared? {
      CalmWrite(cfg, d, f, gate, MarkSubmitted(p.rows[p.at].id), a.store, Reconciler(ResendGate(p)), Reconciler(Quit),
                None, e);
    }
  }

  /** Steps on the rows never open the gate, nor are about to. */
  lemma RowMoveKeeps(cfg: Config, d: Disk, f: set<Id>, gate: bool, t: Tid, r: ReconcilerPc, a: Answer)
    requires (gate ==> Within(d.table, f)) && !PassWrites(r) && !Outside(r)
    ensures Keeps(d.table, f, ReconcilerStep(cfg, d, gate, t, r, a))
  {
    var e := ReconcilerStep(cfg, d, gate, t, r, a);
    assert e.disk == d && (e.gate ==> gate) && e.task.Reconciler? && !e.task.r.OpenGate?;
  }

  /** The gate opens only from a scan that found nothing active. */
  lemma OutsideMoveKeeps(cfg: Config, d: Disk, f: set<Id>, gate: bool, t: Tid, r: ReconcilerPc, a: Answer)
    requires HolderOk(d.table, f, gate, Reconciler(r)) && Outside(r) && HoldsLock(Reconciler(r))
    ensures Keeps(d.table, f, ReconcilerStep(cfg, d, gate, t, r, a))
  {
  }

  lemma HolderKeeps(cfg: Config, d: Disk, f: set<Id>, gate: bool, t: Tid, task: Task, a: Answer, e: Effect)
    requires TableOk(cfg.chain, d.table) && HoldsLock(task) && HolderOk(d.table, f, gate, task)
    requires e == TaskStep(cfg, d, gate, t, task, a)
    ensures Keeps(d.table, f, e)
  {
    if task.Worker? {
      if WorkerWrites(task.w) {
        WorkerWriteKeeps(cfg, d, f, gate, t, task.id, task.w, a, e);
      } else if EarlyMove(task.w) {
        EarlyMoveKeeps(cfg, d, f, gate, t, task.id, task.w, a);
      } else {
        LateMoveKeeps(cfg, d, f, gate, t, task.id, task.w, a);
      }
    } else if PassWrites(task.r) {
      PassWriteKeeps(cfg, d, f, gate, t, task.r, a, e);
    } else if Outside(task.r) {
      OutsideMoveKeeps(cfg, d, f, gate, t, task.r, a);
    } else {
      RowMoveKeeps(cfg, d, f, gate, t, task.r, a);
    }
  }

  /** A step outside the lock touches nothing but the gate, which it can only close. */
  lemma OutsiderKeeps(cfg: Config, d: Disk, gate: bool, t: Tid, task: Task, a: Answer, e: Effect)
    requires !HoldsLock(task) && e == TaskStep(cfg, d, gate, t, task, a)
    ensures e.disk == d && (e.gate ==> gate)
    ensures !Waiting(task) ==> !HoldsLock(e.task) || Finished(e.task)
    ensures Waiting(task) ==> e.gate == gate
    ensures Waiting(task) ==> e.task == (if task.Worker? then Worker(task.id, FirstGate) else Reconciler(Scan))
  {
  }

  lemma RunKeeps(cfg: Config, d: Disk, f: set<Id>, p: Process, t: Tid, a: Answer)
    requires TableOk(cfg.chain, d.table) && Guarded(d.table, f, p) && t in p.tasks
    ensures var (d', p', _) := RunTask(cfg, d, p, t, a);
            && Guarded(d'.table, f, p') && p'.tasks.Keys <= p.tasks.Keys
            && (OneOutside(d.table, f) ==> OneOutside(d'.table, f))
  {
    var task := p.tasks[t];
    if !Finished(task) && !(Waiting(task) && p.lock.Some?) {
      var e := TaskStep(cfg, d, p.gate, t, task, a);
      if HoldsLock(task) {
        HolderKeeps(cfg, d, f, p.gate, t, task, a, e);
        HolderTurn(d, f, p, t, e);
      } else {
        OutsiderKeeps(cfg, d, p.gate, t, task, a, e);
        OutsiderTurn(d.table, f, p, t, e);
      }
    }
  }

  lemma HolderTurn(d: Disk, f: set<Id>, p: Process, t: Tid, e: Effect)
    requires Guarded(d.table, f, p) && p.lock == Some(t) && t in p.tasks && Keeps(d.table, f, e)
    ensures Guarded(e.disk.table, f, Process(e.gate, p.lock, p.tasks[t := e.task]))
  {
  }

  lemma OutsiderTurn(u: Table, f: set<Id>, p: Process, t: Tid, e: Effect)
    requires Guarded(u, f, p) && t in p.tasks && !HoldsLock(p.tasks[t]) && (e.gate ==> p.gate)
    ensures Guarded(u, f, Process(e.gate, p.lock, p.tasks - {t}))
    ensures !HoldsLock(e.task) ==> Guarded(u, f, Process(e.gate, p.lock, p.tasks[t := e.task]))
    ensures && p.lock.None? && e.gate == p.gate
            && (e.task == Reconciler(Scan) || (e.task.Worker? && e.task.w.FirstGate?)) ==>
              Guarded(u, f, Process(e.gate, Some(t), p.tasks[t := e.task]))
  {
  }

  /** A new task that does not hold the lock changes nothing for the others. */
  lemma Joins(t: Table, f: set<Id>, p: Process, tid: Tid, task: Task)
    requires Guarded(t, f, p) && tid !in p.tasks && !HoldsLock(task)
    ensures Guarded(t, f, p.(tasks := p.tasks[tid := task]))
  {
  }

  lemma BytesStay(t: Table, u: Table, f: set<Id>)
    requires Evolves(t, u) && forall k | k in f :: HasBytes(t, k)
    ensures forall k | k in f :: HasBytes(u, k)
  {
    forall k | k in f ensures HasBytes(u, k) {
      assert HasBytes(t, k);
    }
  }

  /** The journal moved forward, within the constraints. */
  predicate Forward(t: Table, u: Table) {
    RowsOk(t) && RowsOk(u) && Evolves(t, u)
  }

  lemma ForeignKeeps(s: State, s': State, f: set<Id>, f': set<Id>, p: Pid)
    requires ExclusionOk(s, f, p) && Forward(s.disk.table, s'.disk.table)
             && f' == f + NewBytes(s.disk.table, s'.disk.table)
    requires s'.nextTid == s.nextTid && (p in s'.procs ==> p in s.procs && s'.procs[p] == s.procs[p])
    ensures ExclusionOk(s', f', p)
    ensures OneOutside(s.disk.table, f) ==> OneOutside(s'.disk.table, f')
  {
    StaysWithin(s.disk.table, s'.disk.table, f, f');
    if p in s'.procs {
      GuardedStable(s.disk.table, s'.disk.table, f, f', s.procs[p]);
    }
    BytesStay(s.disk.table, s'.disk.table, f);
  }

  lemma RequestKeeps(cfg: Config, s: State, step: Step, f: set<Id>, p: Pid)
    requires TableOk(cfg.chain, s.disk.table) && ExclusionOk(s, f, p)
    requires step.Request? && step.p in s.procs && (step.call.Claim? || step.call.Resume?)
    ensures ExclusionOk(Do(cfg, s, step), f, p)
    ensures OneOutside(s.disk.table, f) ==> OneOutside(Do(cfg, s, step).disk.table, f)
  {
    var s' := Do(cfg, s, step);
    StoreKeepsTable(cfg.chain, s.disk, step.call, step.store);
    StoreBytes(cfg.chain, s.disk, step.call, step.store);
    StaysWithin(s.disk.table, s'.disk.table, f, f);
    if p in s.procs {
      GuardedStable(s.disk.table, s'.disk.table, f, f, s.procs[p]);
      Joins(s'.disk.table, f, s.procs[p], s.nextTid, Worker(step.call.id, Acquire));
    }
    BytesStay(s.disk.table, s'.disk.table, f);
  }

  lemma OwnRunKeeps(cfg: Config, s: State, p: Pid, t: Tid, a: Answer, f: set<Id>)
    requires TableOk(cfg.chain, s.disk.table) && ExclusionOk(s, f, p) && p in s.procs && t in s.procs[p].tasks
    requires Evolves(s.disk.table, Do(cfg, s, Run(p, t, a)).disk.table)
    ensures ExclusionOk(Do(cfg, s, Run(p, t, a)), f, p)
    ensures OneOutside(s.disk.table, f) ==> OneOutside(Do(cfg, s, Run(p, t, a)).disk.table, f)
  {
    RunKeeps(cfg, s.disk, f, s.procs[p], t, a);
    BytesStay(s.disk.table, Do(cfg, s, Run(p, t, a)).disk.table, f);
  }

  /** Steps that leave the journal alone. */
  lemma ProcessKeeps(cfg: Config, s: State, step: Step, f: set<Id>, p: Pid)
    requires ExclusionOk(s, f, p)
    requires step.Boot? || step.Crash? || step.LoseGate? || step.StartPass? || step.CancelPass?
    ensures ExclusionOk(Do(cfg, s, step), f, p) && Do(cfg, s, step).disk == s.disk
  {
    if step.StartPass? && step.p == p && p in s.procs {
      Joins(s.disk.table, f, s.procs[p], s.nextTid, Reconciler(Start));
    }
  }

  /** A step of `p` itself, of a request, or of a process that leaves the journal alone. */
  lemma OwnStepKeeps(cfg: Config, s: State, step: Step, f: set<Id>, p: Pid)
    requires TableOk(cfg.chain, s.disk.table) && ExclusionOk(s, f, p) && !IsForeign(step, p)
    requires Forward(s.disk.table, Do(cfg, s, step).disk.table)
    ensures ExclusionOk(Do(cfg, s, step), f, p)
    ensures OneOutside(s.disk.table, f) ==> OneOutside(Do(cfg, s, step).disk.table, f)
  {
    if step.Run? {
      if p in s.procs && step.t in s.procs[p].tasks {
        OwnRunKeeps(cfg, s, p, step.t, step.a, f);
      }
    } else if step.Request? {
      if step.p in s.procs && (step.call.Claim? || step.call.Resume?) {
        RequestKeeps(cfg, s, step, f, p);
      }
    } else {
      ProcessKeeps(cfg, s, step, f, p);
    }
  }

  /** A foreign step does not touch the process itself. */
  lemma ForeignLeavesProcess(cfg: Config, s: State, step: Step, p: Pid)
    requires IsForeign(step, p)
    ensures var s' := Do(cfg, s, step);
            s'.nextTid == s.nextTid && (p in s'.procs ==> p in s.procs && s'.procs[p] == s.procs[p])
  {
  }

  lemma StepKeeps(cfg: Config, s: State, step: Step, s': State, f: set<Id>, f': set<Id>, p: Pid)
    requires TableOk(cfg.chain, s.disk.table) && ExclusionOk(s, f, p) && s' == Do(cfg, s, step)
    requires Forward(s.disk.table, s'.disk.table)
    requires f' == f + if IsForeign(step, p) then NewBytes(s.disk.table, s'.disk.table) else {}
    ensures ExclusionOk(s', f', p)
    ensures OneOutside(s.disk.table, f) ==> OneOutside(s'.disk.table, f')
  {
    if IsForeign(step, p) {
      ForeignLeavesProcess(cfg, s, step, p);
      ForeignKeeps(s, s', f, f', p);
    } else {
      assert f' == f;
      OwnStepKeeps(cfg, s, step, f, p);
    }
  }

  lemma StepForward(cfg: Config, s: State, step: Step)
    requires StateOk(cfg, s)
    ensures TableOk(cfg.chain, s.disk.table) && Forward(s.disk.table, Do(cfg, s, step).disk.table)
  {
    StepPreserves(cfg, s, step);
  }

  lemma {:induction false} RunsKeep(cfg: Config, s: State, steps: seq<Step>, p: Pid)
    requires Initial(cfg, s)
    ensures ExclusionOk(Execute(cfg, s, steps), Foreign(cfg, s, steps, p), p)
    ensures OneOutside(s.disk.table, {}) ==> OneOutside(Execute(cfg, s, steps).disk.table, Foreign(cfg, s, steps, p))
  {
    if steps != [] {
      var before := steps[..|steps| - 1];
      RunsKeep(cfg, s, before, p);
      ReachableOk(cfg, s, before);
      StepForward(cfg, Execute(cfg, s, before), steps[|steps| - 1]);
      StepKeeps(cfg, Execute(cfg, s, before), steps[|steps| - 1], Execute(cfg, s, steps),
                Foreign(cfg, s, before, p), Foreign(cfg, s, steps, p), p);
    }
  }

  /** The facts the theorems below read off. */
  lemma ReachableExclusion(cfg: Config, s: State, steps: seq<Step>, p: Pid)
    requires Initial(cfg, s)
    ensures RowsOk(Execute(cfg, s, steps).disk.table)
            && ExclusionOk(Execute(cfg, s, steps), Foreign(cfg, s, steps, p), p)
  {
    ReachableOk(cfg, s, steps);
    RunsKeep(cfg, s, steps, p);
  }

  /** If only foreign rows can be in flight, the journal is quiet exactly when the foreign rows have finished. */
  lemma QuietExactly(t: Table, f: set<Id>)
    requires RowsOk(t) && Within(t, f) && forall k | k in f :: HasBytes(t, k)
    ensures Quiet(t) <==> AllFinished(f, t)
  {
    forall k | k in f ensures k in t && (InFlight(t[k].state) || Terminal(t[k].state)) {
      assert HasBytes(t, k) && RowOk(t[k]);
    }
  }

  predicate At(s: State, p: Pid, t: Tid, id: Id, w: WorkerPc) {
    p in s.procs && t in s.procs[p].tasks && s.procs[p].tasks[t] == Worker(id, w)
  }

  /** In any run: behind a ready gate and a free lock nothing is in flight exactly when foreign rows have finished. */
  lemma ReadyIsQuiet(cfg: Config, s: State, steps: seq<Step>, p: Pid)
    requires Initial(cfg, s)
    requires var r := Execute(cfg, s, steps); p in r.procs && r.procs[p].gate && r.procs[p].lock.None?
    ensures Quiet(Execute(cfg, s, steps).disk.table) <==>
            AllFinished(Foreign(cfg, s, steps, p), Execute(cfg, s, steps).disk.table)
  {
    ReachableExclusion(cfg, s, steps, p);
    QuietExactly(Execute(cfg, s, steps).disk.table, Foreign(cfg, s, steps, p));
  }

  /** What a worker at `w` holds the lock over. */
  lemma HolderAt(cfg: Config, s: State, steps: seq<Step>, p: Pid, t: Tid, id: Id, w: WorkerPc)
    requires Initial(cfg, s) && At(Execute(cfg, s, steps), p, t, id, w) && !w.Acquire?
    ensures var r, f := Execute(cfg, s, steps), Foreign(cfg, s, steps, p);
            && RowsOk(r.disk.table) && ExclusionOk(r, f, p)
            && HolderOk(r.disk.table, f, r.procs[p].gate, Worker(id, w))
  {
    ReachableExclusion(cfg, s, steps, p);
    var proc := Execute(cfg, s, steps).procs[p];
    assert HoldsLock(proc.tasks[t]);
  }

  /**
   In any run: a worker about to refuse overwrites a settlement in flight exactly when that row is foreign and has
   not finished, and nothing at all is in flight exactly when every foreign row has finished.
   */
  lemma RefusalIsQuiet(cfg: Config, s: State, steps: seq<Step>, p: Pid, t: Tid, id: Id, response: string)
    requires Initial(cfg, s) && At(Execute(cfg, s, steps), p, t, id, Reject(response))
    ensures var r, f := Execute(cfg, s, steps).disk.table, Foreign(cfg, s, steps, p);
            && (Quiet(r) <==> AllFinished(f, r))
            && (id in r && InFlight(r[id].state) <==> id in f && id in r && !Terminal(r[id].state))
  {
    HolderAt(cfg, s, steps, p, t, id, Reject(response));
    var r, f := Execute(cfg, s, steps).disk.table, Foreign(cfg, s, steps, p);
    QuietExactly(r, f);
    if id in f {
      assert HasBytes(r, id) && RowOk(r[id]);
    }
  }

  /** In any run: a worker about to sign finds bytes on its row exactly when the row is foreign. */
  lemma SignatureIsClean(cfg: Config, s: State, steps: seq<Step>, p: Pid, t: Tid, id: Id, seen: Row)
    requires Initial(cfg, s) && At(Execute(cfg, s, steps), p, t, id, Sign(seen))
    ensures var r, f := Execute(cfg, s, steps).disk.table, Foreign(cfg, s, steps, p);
            && id in r && (r[id].submission.Some? <==> id in f)
            && (Quiet(r) <==> AllFinished(f, r))
  {
    HolderAt(cfg, s, steps, p, t, id, Sign(seen));
    var r, f := Execute(cfg, s, steps).disk.table, Foreign(cfg, s, steps, p);
    QuietExactly(r, f);
    assert id in f ==> HasBytes(r, id);
  }

  /** In any run: at a first broadcast whatever else is in flight is foreign. */
  lemma SendIsAlone(cfg: Config, s: State, steps: seq<Step>, p: Pid, t: Tid, id: Id, sub: Submission, k: Id)
    requires Initial(cfg, s) && At(Execute(cfg, s, steps), p, t, id, Send(sub))
    requires k in Execute(cfg, s, steps).disk.table && InFlight(Execute(cfg, s, steps).disk.table[k].state)
    ensures k == id || k in Foreign(cfg, s, steps, p)
  {
    HolderAt(cfg, s, steps, p, t, id, Send(sub));
  }

  /** In any run: if at most one settlement was in flight at the start, at most one that is not foreign ever is. */
  lemma OneOwnInFlight(cfg: Config, s: State, steps: seq<Step>, p: Pid, a: Id, b: Id)
    requires Initial(cfg, s) && OneOutside(s.disk.table, {})
    requires var t := Execute(cfg, s, steps).disk.table;
             a in t && b in t && InFlight(t[a].state) && InFlight(t[b].state)
    requires a !in Foreign(cfg, s, steps, p) && b !in Foreign(cfg, s, steps, p)
    ensures a == b
  {
    RunsKeep(cfg, s, steps, p);
  }
}
