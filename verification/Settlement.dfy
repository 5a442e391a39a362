/**
 The settlement engine as a step machine.

 Any number of processes share one journal. Each process has a reconciliation
 gate, a relayer lock and a set of tasks: settlement workers and reconcilers.
 A step runs one task up to its next await point, or is an environment event:
 boot, crash, loss of leadership, a request, or a store write that was given up
 on and lands late. All nondeterminism is in the step, so a run is a fold.
 */
module Settlement {
  import opened Base
  import opened Journal
  import EvmFees

  type Pid = nat
  type Tid = nat

  /** Which chain the instance settles on, the exact-byte check recovery applies, and the EVM fee policy. */
  datatype Config = Config(chain: ChainKind, valid: (Id, Submission) -> bool, policy: EvmFees.Policy)

  /** How a store transaction ends as seen by its caller. */
  datatype StoreOutcome =
    | Acknowledged   // it ran, and the caller learns its result
    | Lost           // it never ran, and the caller sees an error
    | Unreported     // it ran, and the caller sees an error
    | Delayed        // the caller sees an error, and it may still run at any later time

  datatype Disk = Disk(table: Table, late: multiset<Call>)

  function Store(chain: ChainKind, d: Disk, c: Call, o: StoreOutcome): (r: (Disk, bool)) {
    match o
    case Acknowledged => var (t, ok) := Apply(chain, d.table, c); (d.(table := t), ok)
    case Lost => (d, false)
    case Unreported => (d.(table := Apply(chain, d.table, c).0), false)
    case Delayed => (d.(late := d.late + multiset{c}), false)
  }

  /** A row as a reconcile pass loaded it. */
  datatype Record = Record(id: Id, row: Row)

  /** A reconcile pass: what it loaded, the row it is working on, and the journal it loaded from. */
  datatype Pass = Pass(rows: seq<Record>, at: nat, seen: Table)

  datatype WorkerPc =
    | Acquire
    | FirstGate
    | Verify
    | Reload
    | Sign(seen: Row)
    | Liability(s: Submission)
    | Persist(s: Submission)
    | Recheck(s: Submission)
    | SubmitGate(s: Submission)
    | Submit(s: Submission)
    | SendGate(s: Submission)
    | SendRecheck(s: Submission)
    | LastGate(s: Submission)
    | Send(s: Submission)
    | Finish(s: Submission, state: RowState, response: string)
    | Release
    | Reject(response: string)
    | Pause
    | Leave

  datatype Then = ToCheck | ToPauseCheck | ToLeave

  datatype ReconcilerPc =
    | Start
    | CloseGate
    | Enter
    | Scan
    | ReleaseRow(pass: Pass)
    | ReleaseFailed(pass: Pass)
    | NextRow(pass: Pass)
    | Validate(pass: Pass)
    | Query(pass: Pass)
    | Heads(pass: Pass)
    | MarkRow(pass: Pass)
    | ResendGate(pass: Pass)
    | ResendRecheck(pass: Pass)
    | ResendLastGate(pass: Pass)
    | Resend(pass: Pass)
    | Quarantine(pass: Pass, state: RowState, response: string)
    | FinishRow(pass: Pass, state: RowState, response: string, onError: Then, onSuccess: Then)
    | PauseCheck(pass: Pass)
    | CheckRow(pass: Pass)
    | PauseLeave
    | Remaining
    | OpenGate(ready: bool)
    | Quit

  datatype Task = Worker(id: Id, w: WorkerPc) | Reconciler(r: ReconcilerPc)

  /** The checks a worker and a pass make before a send, in order. */
  datatype Stage = Entry | BeforeSubmit | BeforeSend | Nonce | Last

  /**
   What tasks are answered and what they do to the outside, each act with the journal as it stood at that instant.
   Every event names its own worker or pass.
   */
  datatype Event =
    | Checked(t: Tid, id: Id, stage: Stage, ok: bool)
    | Verified(t: Tid, id: Id, verify: VerifyAnswer)
    | Reread(t: Tid, id: Id, seen: Row, matches: bool)
    | Signed(t: Tid, id: Id, s: Submission, seen: Row, table: Table)
    | Priced(t: Tid, id: Id, s: Submission, l1: Option<nat>)
    | Rejected(t: Tid, id: Id, response: string, table: Table)
    | Broadcast(t: Tid, id: Id, s: Submission, table: Table, answer: SendAnswer)
    | Led(t: Tid, ok: bool)
    | Scanned(t: Tid, table: Table)
    | ReleaseTried(t: Tid, id: Id)
    | Judged(t: Tid, id: Id, s: Submission, verdict: Verdict, pass: Pass)
    | HeadsRead(t: Tid, id: Id, s: Submission, heads: HeadsAnswer, pass: Pass)
    | Rechecked(t: Tid, id: Id, stage: Stage, ok: bool, pass: Pass)
    | NonceReread(t: Tid, id: Id, read: bool, heads: HeadsAnswer, pass: Pass)
    | Rebroadcast(t: Tid, id: Id, s: Submission, table: Table, pass: Pass, answer: SendAnswer)
    | Quarantined(t: Tid, id: Id)

  datatype VerifyAnswer = Accepted | RpcAmbiguous | Refused(response: string)

  datatype Verdict =
    | FinalOutcome(success: bool, response: string, overrun: bool)
    | Indeterminate
    | StillPending
    | Unknown
    | Conflict
    | Ambiguous

  datatype HeadsAnswer = HeadsUnavailable | NonceAdvanced | Expired(response: string) | Usable

  /** `overrun` is whether the reported fee passed the reservation; only EVM looks at it. */
  datatype SendAnswer =
    | SendFinal(success: bool, response: string, overrun: bool)
    | SendRejected(response: string)
    | SendPending

  /** Everything the outside world may answer at one await point. */
  datatype Answer = Answer(
    ok: bool,
    store: StoreOutcome,
    verify: VerifyAnswer,
    identityMatches: bool,
    submission: Submission,
    rows: seq<Record>,
    l1: Option<nat>,
    verdict: Verdict,
    heads: HeadsAnswer,
    send: SendAnswer)

  /** The result of one task step inside its process. */
  datatype Effect = Effect(disk: Disk, gate: bool, task: Task, event: Option<Event>)

  function Outcome(success: bool): (s: RowState) {
    if success then Succeeded else Failed
  }

  /** `can_settle`: the reconciliation gate as read now; the other gates are free to vary. */
  predicate CanSettle(gate: bool, a: Answer) {
    gate && a.ok
  }

  function Move(d: Disk, gate: bool, id: Id, w: WorkerPc): (e: Effect) {
    Effect(d, gate, Worker(id, w), None)
  }

  function Go(d: Disk, gate: bool, r: ReconcilerPc): (e: Effect) {
    Effect(d, gate, Reconciler(r), None)
  }

  /** A check of a worker, with where its two answers lead. */
  function Check(d: Disk, gate: bool, t: Tid, id: Id, stage: Stage, ok: bool, onOk: WorkerPc, onErr: WorkerPc)
    : (e: Effect)
  {
    Effect(d, gate, Worker(id, if ok then onOk else onErr), Some(Checked(t, id, stage, ok)))
  }

  /** The L1 estimate is known, and with the largest L2 fee it fits the reservation. */
  predicate Covered(cfg: Config, l1: Option<nat>) {
    l1.Some? && EvmFees.CoversLiability(cfg.policy, l1.value)
  }

  /** A journal write and where its two outcomes lead. */
  function Write(cfg: Config, d: Disk, gate: bool, c: Call, o: StoreOutcome, onOk: Task, onErr: Task,
                 event: Option<Event>)
    : (e: Effect)
  {
    var (d', ok) := Store(cfg.chain, d, c, o);
    Effect(d', gate, if ok then onOk else onErr, event)
  }

  const MISMATCH := "settlement_identity_mismatch"

  /** The forward path of one settlement, from lock acquisition to the journaled outcome. */
  function WorkerStep(cfg: Config, d: Disk, gate: bool, t: Tid, id: Id, pc: WorkerPc, a: Answer): (e: Effect) {
    match pc
    case Acquire => Move(d, gate, id, FirstGate)
    case FirstGate => Check(d, gate, t, id, Entry, CanSettle(gate, a), Verify, Release)
    case Verify =>
      var next :=
        match a.verify
        case Accepted => Reload
        case RpcAmbiguous => Release
        case Refused(response) => Reject(response);
      Effect(d, gate, Worker(id, next), Some(Verified(t, id, a.verify)))
    case Reload =>
      if !a.ok || id !in d.table then Move(d, gate, id, Release)
      else
        var seen := d.table[id];
        var next := if seen.state.Reserved? && a.identityMatches then Sign(seen) else Reject(MISMATCH);
        Effect(d, gate, Worker(id, next), Some(Reread(t, id, seen, a.identityMatches)))
    case Sign(seen) =>
      if !a.ok then Move(d, gate, id, Release)
      else
        var next := if cfg.chain.Near? then Persist(a.submission) else Liability(a.submission);
        Effect(d, gate, Worker(id, next), Some(Signed(t, id, a.submission, seen, d.table)))
    case Liability(s) =>
      // Signed EVM bytes are priced first, and dropped if the L1 estimate fails or passes the reservation.
      Effect(d, gate, Worker(id, if Covered(cfg, a.l1) then Persist(s) else Release), Some(Priced(t, id, s, a.l1)))
    case Persist(s) =>
      Write(cfg, d, gate, MarkPrepared(id, s), a.store,
            Worker(id, if cfg.chain.Near? then Recheck(s) else SubmitGate(s)), Worker(id, Pause), None)
    case Recheck(s) => Check(d, gate, t, id, Nonce, a.ok, SubmitGate(s), Pause)
    case SubmitGate(s) => Check(d, gate, t, id, BeforeSubmit, CanSettle(gate, a), Submit(s), Pause)
    case Submit(s) =>
      Write(cfg, d, gate, MarkSubmitted(id), a.store, Worker(id, SendGate(s)), Worker(id, Pause), None)
    case SendGate(s) =>
      Check(d, gate, t, id, BeforeSend, CanSettle(gate, a), if cfg.chain.Near? then Send(s) else SendRecheck(s), Pause)
    case SendRecheck(s) => Check(d, gate, t, id, Nonce, a.ok, LastGate(s), Pause)
    case LastGate(s) => Check(d, gate, t, id, Last, CanSettle(gate, a), Send(s), Pause)
    case Send(s) =>
      var next :=
        match a.send
        case SendFinal(success, response, _) =>
          // On EVM a final answer at submission is never trusted; recovery decides.
          if cfg.chain.Near? then Finish(s, Outcome(success), response) else Pause
        case SendRejected(response) => Finish(s, Failed, response)
        case SendPending => Pause;
      Effect(d, gate, Worker(id, next), Some(Broadcast(t, id, s, d.table, a.send)))
    case Finish(s, state, response) =>
      Write(cfg, d, gate, MarkTerminal(id, state, response), a.store, Worker(id, Leave), Worker(id, Pause), None)
    case Release =>
      Write(cfg, d, gate, MarkAwaitingRetry(id), a.store, Worker(id, Leave), Worker(id, Pause), None)
    case Reject(response) =>
      Write(cfg, d, gate, MarkRefused(id, response), a.store, Worker(id, Leave), Worker(id, Pause),
            Some(Rejected(t, id, response, d.table)))
    case Pause => Effect(d, false, Worker(id, Leave), None)
    case Leave => Move(d, gate, id, Leave)
  }

  /** Program counters at which a worker writes the journal. */
  predicate WorkerWrites(w: WorkerPc) {
    w.Persist? || w.Submit? || w.Finish? || w.Release? || w.Reject?
  }

  /** Program counters at which a pass may write the journal. */
  predicate PassWrites(r: ReconcilerPc) {
    r.ReleaseRow? || r.MarkRow? || r.FinishRow?
  }

  /** A scan lists exactly the active rows, oldest first. */
  predicate IsScan(rows: seq<Record>, t: Table) {
    && (forall i | 0 <= i < |rows| :: rows[i].id in t && rows[i].row == t[rows[i].id] && Active(rows[i].row.state))
    && (forall i, j | 0 <= i < j < |rows| :: rows[i].id != rows[j].id && rows[i].row.created <= rows[j].row.created)
    && (forall k | k in t && Active(t[k].state) :: Record(k, t[k]) in rows)
  }

  function Advance(p: Pass): (r: Pass) {
    p.(at := p.at + 1)
  }

  function Continue(next: Then, p: Pass): (r: ReconcilerPc) {
    match next
    case ToCheck => CheckRow(p)
    case ToPauseCheck => PauseCheck(p)
    case ToLeave => Quit
  }

  /** A reported outcome; on EVM an overrun quarantines the signer before the row is finished. */
  function AfterFinal(cfg: Config, p: Pass, success: bool, response: string, overrun: bool): (r: ReconcilerPc) {
    if overrun && cfg.chain.Eip155? then Quarantine(p, Outcome(success), response)
    else FinishRow(p, Outcome(success), response, ToLeave, ToCheck)
  }

  function AfterVerdict(cfg: Config, p: Pass, a: Answer): (r: ReconcilerPc) {
    match a.verdict
    case FinalOutcome(success, response, overrun) => AfterFinal(cfg, p, success, response, overrun)
    case Indeterminate => PauseCheck(p)
    case StillPending => CheckRow(p)
    case Conflict => PauseLeave
    case Ambiguous => PauseLeave
    case Unknown => if cfg.chain.Near? then Heads(p) else MarkRow(p)
  }

  function AfterHeads(p: Pass, a: Answer): (r: ReconcilerPc) {
    match a.heads
    case HeadsUnavailable => Quit
    case NonceAdvanced => Quit
    case Expired(response) => FinishRow(p, Failed, response, ToPauseCheck, ToCheck)
    case Usable => MarkRow(p)
  }

  function ScanStep(d: Disk, gate: bool, t: Tid, a: Answer): (e: Effect) {
    if !a.ok || !IsScan(a.rows, d.table) then Go(d, gate, Quit)
    else Effect(d, gate, Reconciler(ReleaseRow(Pass(a.rows, 0, d.table))), Some(Scanned(t, d.table)))
  }

  function ReleaseStep(cfg: Config, d: Disk, gate: bool, t: Tid, p: Pass, a: Answer): (e: Effect) {
    if p.at >= |p.rows| then Go(d, gate, NextRow(p.(at := 0)))
    else if !p.rows[p.at].row.state.Reserved? then Go(d, gate, ReleaseRow(Advance(p)))
    else if !a.ok then Go(d, gate, Quit)
    else
      var id := p.rows[p.at].id;
      Write(cfg, d, gate, MarkAwaitingRetry(id), a.store,
            Reconciler(ReleaseRow(Advance(p))), Reconciler(ReleaseFailed(p)), Some(ReleaseTried(t, id)))
  }

  function NextRowStep(d: Disk, gate: bool, p: Pass, a: Answer): (e: Effect) {
    if p.at >= |p.rows| then Go(d, gate, Remaining)
    else if !InFlight(p.rows[p.at].row.state) then Go(d, gate, NextRow(Advance(p)))
    else Go(d, gate, if a.ok then Validate(p) else Quit)
  }

  function ValidateStep(cfg: Config, d: Disk, gate: bool, p: Pass, a: Answer): (e: Effect) {
    if p.at >= |p.rows| then Go(d, gate, Quit)
    else
      var rec := p.rows[p.at];
      Go(d, gate, if a.ok && rec.row.submission.Some? && cfg.valid(rec.id, rec.row.submission.value) then Query(p)
         else Quit)
  }

  function QueryStep(cfg: Config, d: Disk, gate: bool, t: Tid, p: Pass, a: Answer): (e: Effect) {
    if p.at >= |p.rows| || p.rows[p.at].row.submission.None? then Go(d, gate, Quit)
    else
      var rec := p.rows[p.at];
      Effect(d, gate, Reconciler(AfterVerdict(cfg, p, a)),
             Some(Judged(t, rec.id, rec.row.submission.value, a.verdict, p)))
  }

  function HeadsStep(d: Disk, gate: bool, t: Tid, p: Pass, a: Answer): (e: Effect) {
    if p.at >= |p.rows| || p.rows[p.at].row.submission.None? then Go(d, gate, Quit)
    else
      var rec := p.rows[p.at];
      Effect(d, gate, Reconciler(AfterHeads(p, a)), Some(HeadsRead(t, rec.id, rec.row.submission.value, a.heads, p)))
  }

  function MarkStep(cfg: Config, d: Disk, gate: bool, p: Pass, a: Answer): (e: Effect) {
    if p.at >= |p.rows| then Go(d, gate, Quit)
    else if !p.rows[p.at].row.state.Prepared? then Go(d, gate, ResendGate(p))
    else Write(cfg, d, gate, MarkSubmitted(p.rows[p.at].id), a.store, Reconciler(ResendGate(p)), Reconciler(Quit), None)
  }

  function AfterResend(cfg: Config, p: Pass, a: Answer): (r: ReconcilerPc) {
    match a.send
    case SendFinal(success, response, overrun) => AfterFinal(cfg, p, success, response, overrun)
    case SendRejected(response) => FinishRow(p, Failed, response, ToPauseCheck, ToCheck)
    case SendPending => CheckRow(p)
  }

  function ResendStep(cfg: Config, d: Disk, gate: bool, t: Tid, p: Pass, a: Answer): (e: Effect) {
    if p.at >= |p.rows| || p.rows[p.at].row.submission.None? then Go(d, gate, Quit)
    else
      var rec := p.rows[p.at];
      Effect(d, gate, Reconciler(AfterResend(cfg, p, a)),
             Some(Rebroadcast(t, rec.id, rec.row.submission.value, d.table, p, a.send)))
  }

  /** A check of a pass on its current row, with where its two answers lead. */
  function RecheckStep(d: Disk, gate: bool, t: Tid, p: Pass, stage: Stage, ok: bool, onOk: ReconcilerPc,
                       onErr: ReconcilerPc): (e: Effect)
  {
    if p.at >= |p.rows| then Go(d, gate, Quit)
    else Effect(d, gate, Reconciler(if ok then onOk else onErr), Some(Rechecked(t, p.rows[p.at].id, stage, ok, p)))
  }

  /** The second look at the signer; on EVM a low balance, or any nonce but the journaled one, closes the gate. */
  function NonceStep(cfg: Config, d: Disk, gate: bool, t: Tid, p: Pass, read: bool, heads: HeadsAnswer): (e: Effect) {
    if p.at >= |p.rows| then Go(d, gate, Quit)
    else
      var next :=
        if read && heads.Usable? then if cfg.chain.Eip155? then ResendLastGate(p) else Resend(p)
        else if read && cfg.chain.Eip155? then PauseLeave
        else Quit;
      Effect(d, gate, Reconciler(next), Some(NonceReread(t, p.rows[p.at].id, read, heads, p)))
  }

  /** The gate closes and the signer is quarantined before the row is finished, and the pass then fails. */
  function QuarantineStep(d: Disk, t: Tid, p: Pass, state: RowState, response: string, a: Answer): (e: Effect) {
    if !a.ok || p.at >= |p.rows| then Go(d, false, Quit)
    else
      Effect(d, false, Reconciler(FinishRow(p, state, response, ToLeave, ToLeave)),
             Some(Quarantined(t, p.rows[p.at].id)))
  }

  function FinishStep(cfg: Config, d: Disk, gate: bool, p: Pass, state: RowState, response: string, onError: Then,
                      onSuccess: Then, a: Answer): (e: Effect)
  {
    if p.at >= |p.rows| then Go(d, gate, Quit)
    else
      Write(cfg, d, gate, MarkTerminal(p.rows[p.at].id, state, response), a.store,
            Reconciler(Continue(onSuccess, p)), Reconciler(Continue(onError, p)), None)
  }

  function CheckStep(d: Disk, gate: bool, p: Pass, a: Answer): (e: Effect) {
    if !a.ok || p.at >= |p.rows| then Go(d, gate, Quit)
    else
      var id := p.rows[p.at].id;
      Go(d, gate, if id in d.table && !Terminal(d.table[id].state) then Remaining else NextRow(Advance(p)))
  }

  /** One recovery pass: release reserved rows first, then resolve journaled rows in order. */
  function ReconcilerStep(cfg: Config, d: Disk, gate: bool, t: Tid, pc: ReconcilerPc, a: Answer): (e: Effect) {
    match pc
    case Start => Effect(d, gate, Reconciler(if a.ok then CloseGate else Quit), Some(Led(t, a.ok)))
    case CloseGate => Effect(d, false, Reconciler(Enter), None)
    case Enter => Go(d, gate, Scan)
    case Scan => ScanStep(d, gate, t, a)
    case ReleaseRow(p) => ReleaseStep(cfg, d, gate, t, p, a)
    case ReleaseFailed(p) => Effect(d, false, Reconciler(ReleaseRow(Advance(p))), None)
    case NextRow(p) => NextRowStep(d, gate, p, a)
    case Validate(p) => ValidateStep(cfg, d, gate, p, a)
    case Query(p) => QueryStep(cfg, d, gate, t, p, a)
    case Heads(p) => HeadsStep(d, gate, t, p, a)
    case MarkRow(p) => MarkStep(cfg, d, gate, p, a)
    case ResendGate(p) => RecheckStep(d, gate, t, p, BeforeSend, a.ok, ResendRecheck(p), Quit)
    case ResendRecheck(p) => NonceStep(cfg, d, gate, t, p, a.ok, a.heads)
    case ResendLastGate(p) => RecheckStep(d, gate, t, p, Last, a.ok, Resend(p), Quit)
    case Resend(p) => ResendStep(cfg, d, gate, t, p, a)
    case Quarantine(p, state, response) => QuarantineStep(d, t, p, state, response, a)
    case FinishRow(p, state, response, onError, onSuccess) =>
      FinishStep(cfg, d, gate, p, state, response, onError, onSuccess, a)
    case PauseCheck(p) => Effect(d, false, Reconciler(CheckRow(p)), None)
    case CheckRow(p) => CheckStep(d, gate, p, a)
    case PauseLeave => Effect(d, false, Reconciler(Quit), None)
    case Remaining => Go(d, gate, if a.ok then OpenGate(forall k | k in d.table :: !Active(d.table[k].state)) else Quit)
    case OpenGate(ready) => Effect(d, ready, Reconciler(Quit), None)
    case Quit => Go(d, gate, Quit)
  }

  datatype Process = Process(gate: bool, lock: Option<Tid>, tasks: map<Tid, Task>)

  datatype State = State(disk: Disk, procs: map<Pid, Process>, nextTid: Tid, log: seq<Event>)

  datatype Step =
    | Boot(p: Pid)
    | Crash(p: Pid)
    | LoseGate(p: Pid)
    | Request(p: Pid, call: Call, store: StoreOutcome)
    | StartPass(p: Pid)
    | CancelPass(p: Pid, t: Tid)
    | Land(call: Call)
    | Run(p: Pid, t: Tid, a: Answer)

  predicate Waiting(task: Task) {
    (task.Worker? && task.w.Acquire?) || (task.Reconciler? && task.r.Enter?)
  }

  predicate Finished(task: Task) {
    (task.Worker? && task.w.Leave?) || (task.Reconciler? && task.r.Quit?)
  }

  /** Tasks between taking and dropping the relayer lock. */
  predicate HoldsLock(task: Task) {
    match task
    case Worker(_, w) => !w.Acquire?
    case Reconciler(r) => !r.Start? && !r.CloseGate? && !r.Enter?
  }

  /** Forget a task and release the lock if it held it. */
  function Drop(p: Process, t: Tid): (r: Process) {
    p.(tasks := p.tasks - {t}, lock := if p.lock == Some(t) then None else p.lock)
  }

  function TaskStep(cfg: Config, d: Disk, gate: bool, t: Tid, task: Task, a: Answer): (e: Effect) {
    match task
    case Worker(id, w) => WorkerStep(cfg, d, gate, t, id, w, a)
    case Reconciler(r) => ReconcilerStep(cfg, d, gate, t, r, a)
  }

  /** Run one task of one process; a task waiting for a taken lock does nothing. */
  function RunTask(cfg: Config, d: Disk, p: Process, t: Tid, a: Answer): (r: (Disk, Process, Option<Event>))
    requires t in p.tasks
  {
    var task := p.tasks[t];
    if Finished(task) then (d, Drop(p, t), None)
    else if Waiting(task) && p.lock.Some? then (d, p, None)
    else
      var e := TaskStep(cfg, d, p.gate, t, task, a);
      // A pass refused for want of leadership never touched the lock.
      if Finished(e.task) && !HoldsLock(task) then (e.disk, Process(e.gate, p.lock, p.tasks - {t}), e.event)
      else (e.disk, Process(e.gate, if Waiting(task) then Some(t) else p.lock, p.tasks[t := e.task]), e.event)
  }

  /** One step of the whole system; a step that is not enabled changes nothing. */
  function Do(cfg: Config, s: State, step: Step): (r: State) {
    match step
    case Boot(p) =>
      if p in s.procs then s else s.(procs := s.procs[p := Process(false, None, map[])])
    case Crash(p) => s.(procs := s.procs - {p})
    case LoseGate(p) =>
      if p in s.procs then s.(procs := s.procs[p := s.procs[p].(gate := false)]) else s
    case Request(p, call, store) =>
      if p !in s.procs || !(call.Claim? || call.Resume?) then s
      else
        var (d, ok) := Store(cfg.chain, s.disk, call, store);
        if ok then
          var proc := s.procs[p].(tasks := s.procs[p].tasks[s.nextTid := Worker(call.id, Acquire)]);
          State(d, s.procs[p := proc], s.nextTid + 1, s.log)
        else s.(disk := d)
    case StartPass(p) =>
      if p !in s.procs then s
      else
        var proc := s.procs[p].(tasks := s.procs[p].tasks[s.nextTid := Reconciler(Start)]);
        State(s.disk, s.procs[p := proc], s.nextTid + 1, s.log)
    case CancelPass(p, t) =>
      // Shutdown aborts the recovery task wherever it is; its lock guard is dropped.
      if p !in s.procs || t !in s.procs[p].tasks || !s.procs[p].tasks[t].Reconciler? then s
      else s.(procs := s.procs[p := Drop(s.procs[p], t)])
    case Land(call) =>
      if call !in s.disk.late then s
      else s.(disk := Disk(Apply(cfg.chain, s.disk.table, call).0, s.disk.late - multiset{call}))
    case Run(p, t, a) =>
      if p !in s.procs || t !in s.procs[p].tasks then s
      else
        var (d, proc, event) := RunTask(cfg, s.disk, s.procs[p], t, a);
        State(d, s.procs[p := proc], s.nextTid, s.log + (if event.Some? then [event.value] else []))
  }

  function Execute(cfg: Config, s: State, steps: seq<Step>): (r: State) {
    if steps == [] then s
    else Do(cfg, Execute(cfg, s, steps[..|steps| - 1]), steps[|steps| - 1])
  }

  /** No process is running; the journal is whatever earlier runs left. */
  predicate Initial(cfg: Config, s: State) {
    TableOk(cfg.chain, s.disk.table) && s.procs == map[] && s.log == []
  }
}
