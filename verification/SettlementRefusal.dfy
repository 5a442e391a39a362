/**
 A worker may refuse a settlement before it has bytes: verification says no, or the row it
 reloads is not the one it claimed. Exactly when, in any run, such a refusal is recorded
 over a transaction that is in flight, and what its absence gives the intended deployment.
 */
module SettlementRefusal {
  import opened Base
  import opened Journal
  import opened Settlement
  import opened SettlementExclusion
  import opened SettlementOutcome
  import opened SettlementSafety
  import opened SettlementSolo

  function WorkerCall(id: Id, w: WorkerPc): (c: Option<Call>) {
    match w
    case Persist(s) => Some(MarkPrepared(id, s))
    case Submit(_) => Some(MarkSubmitted(id))
    case Finish(_, state, response) => Some(MarkTerminal(id, state, response))
    case Release => Some(MarkAwaitingRetry(id))
    case Reject(response) => Some(MarkRefused(id, response))
    case _ => None
  }

  function PassCall(r: ReconcilerPc, a: Answer): (c: Option<Call>) {
    if !PassWrites(r) || r.pass.at >= |r.pass.rows| then None
    else
      var rec := r.pass.rows[r.pass.at];
      match r
      case ReleaseRow(_) => if rec.row.state.Reserved? && a.ok then Some(MarkAwaitingRetry(rec.id)) else None
      case MarkRow(_) => if rec.row.state.Prepared? then Some(MarkSubmitted(rec.id)) else None
      case FinishRow(_, state, response, _, _) => Some(MarkTerminal(rec.id, state, response))
  }

  /** The one store call, if any, that a task makes in its next step. */
  function CallOf(task: Task, a: Answer): (c: Option<Call>) {
    if task.Worker? then WorkerCall(task.id, task.w) else PassCall(task.r, a)
  }

  function Stored(chain: ChainKind, d: Disk, c: Option<Call>, o: StoreOutcome): (r: Disk) {
    if c.None? then d else Store(chain, d, c.value, o).0
  }

  lemma WorkerStores(cfg: Config, d: Disk, gate: bool, t: Tid, id: Id, w: WorkerPc, a: Answer)
    ensures WorkerStep(cfg, d, gate, t, id, w, a).disk == Stored(cfg.chain, d, WorkerCall(id, w), a.store)
  {
  }

  lemma PassStores(cfg: Config, d: Disk, gate: bool, t: Tid, r: ReconcilerPc, a: Answer)
    ensures ReconcilerStep(cfg, d, gate, t, r, a).disk == Stored(cfg.chain, d, PassCall(r, a), a.store)
  {
  }

  lemma TaskStores(cfg: Config, d: Disk, gate: bool, t: Tid, task: Task, a: Answer)
    ensures TaskStep(cfg, d, gate, t, task, a).disk == Stored(cfg.chain, d, CallOf(task, a), a.store)
  {
    if task.Worker? {
      WorkerStores(cfg, d, gate, t, task.id, task.w, a);
    } else {
      PassStores(cfg, d, gate, t, task.r, a);
    }
  }

  predicate Refused(t: Table, k: Id) {
    k in t && t[k].refused
  }

  /** Only a refusal refuses a row, and it touches no bytes. */
  lemma ApplyRefuses(chain: ChainKind, t: Table, c: Call, k: Id)
    requires !Refused(t, k)
    ensures var u := Apply(chain, t, c).0;
            Refused(u, k) <==> c.MarkRefused? && c.id == k && k in t && TerminalAllowed(t[k].state, Failed)
    ensures var u := Apply(chain, t, c).0; Refused(u, k) ==> u[k].submission == t[k].submission
  {
  }

  predicate Commits(o: StoreOutcome) {
    o.Acknowledged? || o.Unreported?
  }

  lemma StoreRefuses(chain: ChainKind, d: Disk, c: Call, o: StoreOutcome, k: Id)
    requires !Refused(d.table, k)
    ensures var u := Store(chain, d, c, o).0.table;
            Refused(u, k) <==>
              Commits(o) && c.MarkRefused? && c.id == k && k in d.table && TerminalAllowed(d.table[k].state, Failed)
    ensures var u := Store(chain, d, c, o).0.table; Refused(u, k) ==> u[k].submission == d.table[k].submission
  {
    ApplyRefuses(chain, d.table, c, k);
  }

  /** A worker of `p` is about to record a refusal of `id`. */
  predicate AtReject(s: State, p: Pid, t: Tid, id: Id) {
    && p in s.procs && t in s.procs[p].tasks
    && s.procs[p].tasks[t].Worker? && s.procs[p].tasks[t].id == id && s.procs[p].tasks[t].w.Reject?
  }

  /** The step commits a refusal of `id` by a worker that is at it, */
  predicate RefusesNow(s: State, step: Step, id: Id) {
    step.Run? && AtReject(s, step.p, step.t, id) && Commits(step.a.store)
  }

  /** or lands one that a worker gave up on. */
  predicate RefusesLate(s: State, step: Step, id: Id) {
    step.Land? && step.call in s.disk.late && step.call.MarkRefused? && step.call.id == id
  }

  lemma RunRefuses(cfg: Config, s: State, p: Pid, t: Tid, a: Answer, k: Id)
    requires p in s.procs && t in s.procs[p].tasks && !Refused(s.disk.table, k)
    ensures var u := Do(cfg, s, Run(p, t, a)).disk.table;
            && (Refused(u, k) <==>
                  RefusesNow(s, Run(p, t, a), k) && k in s.disk.table && TerminalAllowed(s.disk.table[k].state, Failed))
            && (Refused(u, k) ==> u[k].submission == s.disk.table[k].submission)
  {
    var task := s.procs[p].tasks[t];
    TaskStores(cfg, s.disk, s.procs[p].gate, t, task, a);
    var c := CallOf(task, a);
    if c.Some? {
      StoreRefuses(cfg.chain, s.disk, c.value, a.store, k);
    }
  }

  /** What a step newly refuses: the row of a refusal that commits now or lands late, if its state admits it. */
  lemma StepRefuses(cfg: Config, s: State, step: Step, k: Id)
    requires !Refused(s.disk.table, k)
    ensures var u := Do(cfg, s, step).disk.table;
            && (Refused(u, k) <==>
                  && (RefusesNow(s, step, k) || RefusesLate(s, step, k))
                  && k in s.disk.table && TerminalAllowed(s.disk.table[k].state, Failed))
            && (Refused(u, k) ==> u[k].submission == s.disk.table[k].submission)
  {
    if step.Run? && step.p in s.procs && step.t in s.procs[step.p].tasks {
      RunRefuses(cfg, s, step.p, step.t, step.a, k);
    } else if step.Request? {
      StoreRefuses(cfg.chain, s.disk, step.call, step.store, k);
    } else if step.Land? {
      ApplyRefuses(cfg.chain, s.disk.table, step.call, k);
    }
  }

  /** The step takes a settlement out of flight by recording a refusal of it. */
  predicate Overwrites(cfg: Config, s: State, step: Step, id: Id) {
    id in s.disk.table && InFlight(s.disk.table[id].state) && Refused(Do(cfg, s, step).disk.table, id)
  }

  /**
   In any run: a step overwrites a settlement in flight with a refusal exactly when it commits the refusal of a worker
   to whose process the row is foreign and unfinished, or lands a refusal that was given up on while the row is in
   flight.
   */
  lemma RefusalOverwritesExactly(cfg: Config, s: State, steps: seq<Step>, step: Step, id: Id)
    requires Initial(cfg, s)
    ensures var r := Execute(cfg, s, steps);
            Overwrites(cfg, r, step, id) <==>
              && id in r.disk.table
              && (|| (&& RefusesNow(r, step, id)
                      && id in Foreign(cfg, s, steps, step.p) && !Terminal(r.disk.table[id].state))
                  || (RefusesLate(r, step, id) && InFlight(r.disk.table[id].state)))
  {
    var r := Execute(cfg, s, steps);
    ReachableRows(cfg, s, steps);
    if id in r.disk.table && !Terminal(r.disk.table[id].state) {
      assert RowOk(r.disk.table[id]);
      StepRefuses(cfg, r, step, id);
      if RefusesNow(r, step, id) {
        var w := r.procs[step.p].tasks[step.t].w;
        RefusalIsQuiet(cfg, s, steps, step.p, step.t, id, w.response);
      }
    }
  }

  lemma ReachableRows(cfg: Config, s: State, steps: seq<Step>)
    requires Initial(cfg, s)
    ensures RowsOk(Execute(cfg, s, steps).disk.table)
  {
    ReachableOk(cfg, s, steps);
  }

  /** The deployment of `SettlementSolo`, in which moreover no abandoned refusal lands late. */
  predicate Punctual(steps: seq<Step>) {
    SoloRun(steps) && forall i | 0 <= i < |steps| :: !(steps[i].Land? && steps[i].call.MarkRefused?)
  }

  lemma PunctualNeverOverwrites(cfg: Config, s: State, steps: seq<Step>, step: Step, id: Id)
    requires Initial(cfg, s) && Punctual(steps + [step])
    ensures !Overwrites(cfg, Execute(cfg, s, steps), step, id)
  {
    var all := steps + [step];
    assert all[|steps|] == step && SoloStep(all[|steps|]);
    assert SoloRun(steps) by {
      forall i | 0 <= i < |steps| ensures SoloStep(steps[i]) { assert all[i] == steps[i]; }
    }
    NothingForeign(cfg, s, steps);
    RefusalOverwritesExactly(cfg, s, steps, step, id);
  }

  /** Rows that this run refused carry no bytes. */
  ghost predicate Bare(base: Table, t: Table) {
    forall k | Refused(t, k) && !(k in base && Terminal(base[k].state)) :: t[k].submission.None?
  }

  lemma StepStaysBare(cfg: Config, base: Table, s: State, step: Step)
    requires StateOk(cfg, s) && Bare(base, s.disk.table) && forall id :: !Overwrites(cfg, s, step, id)
    ensures Bare(base, Do(cfg, s, step).disk.table)
  {
    StepPreserves(cfg, s, step);
    var t, u := s.disk.table, Do(cfg, s, step).disk.table;
    forall k | Refused(u, k) && !(k in base && Terminal(base[k].state)) ensures u[k].submission.None? {
      if Refused(t, k) {
        assert RowOk(t[k]) && RowEvolves(t[k], u[k]);
      } else {
        StepRefuses(cfg, s, step, k);
        assert RowOk(t[k]) && !Overwrites(cfg, s, step, k);
      }
    }
  }

  lemma {:induction false} RefusedRowsAreBare(cfg: Config, s: State, steps: seq<Step>)
    requires Initial(cfg, s) && Punctual(steps)
    ensures Bare(s.disk.table, Execute(cfg, s, steps).disk.table)
  {
    if steps == [] {
      assert RowsOk(s.disk.table);
      assert forall k | Refused(s.disk.table, k) :: RowOk(s.disk.table[k]);
    } else {
      var before, step := steps[..|steps| - 1], steps[|steps| - 1];
      assert before + [step] == steps;
      RefusedRowsAreBare(cfg, s, before);
      ReachableOk(cfg, s, before);
      forall id ensures !Overwrites(cfg, Execute(cfg, s, before), step, id) {
        PunctualNeverOverwrites(cfg, s, before, step, id);
      }
      StepStaysBare(cfg, s.disk.table, Execute(cfg, s, before), step);
    }
  }

  /**
   One process, restarted at will, whose abandoned prepares and refusals do not land late: every settlement that
   carries bytes and finished in the run did so on an answer about its transaction, never on a refusal.
   */
  lemma SentRowsFinishOnChainEvidence(cfg: Config, s: State, steps: seq<Step>, id: Id) returns (k: nat)
    requires Initial(cfg, s) && s.disk.late == multiset{} && Punctual(steps)
    requires var t := Execute(cfg, s, steps).disk.table; id in t && Terminal(t[id].state) && t[id].submission.Some?
    requires !(id in s.disk.table && Terminal(s.disk.table[id].state))
    ensures var r := Execute(cfg, s, steps);
            var row := r.disk.table[id];
            && !row.refused && row.response.Some?
            && k < |r.log| && AboutTransaction(r.log[k])
            && Justifies(cfg.chain, r.log[k], id, row.state, row.response.value, false)
  {
    RefusedRowsAreBare(cfg, s, steps);
    FinishedOnEvidence(cfg, s, steps, id);
    var r := Execute(cfg, s, steps);
    assert !Refused(r.disk.table, id);
    k :| 0 <= k < |r.log| &&
      Justifies(cfg.chain, r.log[k], id, r.disk.table[id].state, r.disk.table[id].response.value, false);
  }
}
