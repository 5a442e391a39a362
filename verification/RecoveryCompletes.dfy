/** What a recovery pass achieves when nothing interferes and the nodes tell it how every row in flight ended. */
module RecoveryCompletes {
  import opened Base
  import opened Journal
  import opened Settlement
  import opened SettlementCompletes

  function Ask(env: Environment, r: ReconcilerPc): (a: Answer) {
    env(Reconciler(r))
  }

  /** An outcome that needs no quarantine. */
  function Plainly(cfg: Config, success: bool, response: string, overrun: bool): (o: Option<(RowState, string)>) {
    if overrun && cfg.chain.Eip155? then None else Some((Outcome(success), response))
  }

  function FromResend(cfg: Config, env: Environment, p: Pass): (o: Option<(RowState, string)>) {
    match Ask(env, Resend(p)).send
    case SendFinal(success, response, overrun) => Plainly(cfg, success, response, overrun)
    case SendRejected(response) => Some((Failed, response))
    case SendPending => None
  }

  /** The pass finds the row unknown to the chain and still alive, so it replays the bytes. */
  predicate Replays(cfg: Config, env: Environment, p: Pass) {
    Ask(env, Query(p)).verdict.Unknown? && (cfg.chain.Near? ==> Ask(env, Heads(p)).heads.Usable?)
  }

  /** How the nodes say the current row of a pass ended, if they do. */
  function Told(cfg: Config, env: Environment, p: Pass): (o: Option<(RowState, string)>) {
    var verdict := Ask(env, Query(p)).verdict;
    if verdict.FinalOutcome? then Plainly(cfg, verdict.success, verdict.response, verdict.overrun)
    else if Replays(cfg, env, p) then FromResend(cfg, env, p)
    else if verdict.Unknown? && Ask(env, Heads(p)).heads.Expired? then Some((Failed, Ask(env, Heads(p)).heads.response))
    else None
  }

  /** The row with that outcome; a replayed one was first marked submitted. */
  function Ended(cfg: Config, env: Environment, p: Pass, row: Row): (r: Row)
    requires Told(cfg, env, p).Some?
  {
    var (state, response) := Told(cfg, env, p).value;
    row.(state := state, response := Some(response), refused := false,
         submitted := row.submitted || Replays(cfg, env, p))
  }

  /** The current row of a pass is in flight, exactly as the pass loaded it, with bytes that pass the check. */
  predicate Open(cfg: Config, d: Disk, p: Pass) {
    && p.at < |p.rows|
    && p.rows[p.at].id in d.table && d.table[p.rows[p.at].id] == p.rows[p.at].row
    && RowOk(p.rows[p.at].row) && InFlight(p.rows[p.at].row.state)
    && cfg.valid(p.rows[p.at].id, p.rows[p.at].row.submission.value)
  }

  function Put(d: Disk, p: Pass, row: Row): (r: Disk)
    requires p.at < |p.rows|
  {
    d.(table := d.table[p.rows[p.at].id := row])
  }

  function On(d: Disk, gate: bool, r: ReconcilerPc): (c: Place) {
    Place(d, gate, Reconciler(r))
  }

  lemma Writes(cfg: Config, env: Environment, t: Tid, d: Disk, gate: bool, p: Pass, state: RowState, response: string,
               onError: Then)
    requires Cooperative(env) && p.at < |p.rows| && p.rows[p.at].id in d.table
    requires InFlight(d.table[p.rows[p.at].id].state) && Terminal(state)
    ensures var row := d.table[p.rows[p.at].id].(state := state, response := Some(response), refused := false);
            Next(cfg, env, t, On(d, gate, FinishRow(p, state, response, onError, ToCheck))) ==
            On(Put(d, p, row), gate, CheckRow(p))
  {
  }

  /** A replayed row is marked submitted and passes its checks. */
  lemma Replayed(cfg: Config, env: Environment, t: Tid, d: Disk, gate: bool, p: Pass)
    requires Cooperative(env) && Open(cfg, d, p)
    ensures var row := p.rows[p.at].row;
            Reaches(Machine(cfg, env, t), On(d, gate, MarkRow(p)),
                    On(Put(d, p, row.(state := Submitted, submitted := true)), gate, Resend(p)))
  {
    var row := p.rows[p.at].row;
    var marked := Put(d, p, row.(state := Submitted, submitted := true));
    assert row.state.Submitted? ==> marked.table == d.table;
    PassesResendGates(cfg, env, t, marked, gate, p);
    Detour(Machine(cfg, env, t), [On(d, gate, MarkRow(p)), On(marked, gate, ResendGate(p))],
           [On(marked, gate, Resend(p))]);
  }

  lemma PassesResendGates(cfg: Config, env: Environment, t: Tid, d: Disk, gate: bool, p: Pass)
    requires Cooperative(env) && p.at < |p.rows|
    ensures Reaches(Machine(cfg, env, t), On(d, gate, ResendGate(p)), On(d, gate, Resend(p)))
  {
    var first, recheck, resend := On(d, gate, ResendGate(p)), On(d, gate, ResendRecheck(p)), On(d, gate, Resend(p));
    if cfg.chain.Near? {
      Walk(Machine(cfg, env, t), [first, recheck, resend]);
    } else {
      Walk(Machine(cfg, env, t), [first, recheck, On(d, gate, ResendLastGate(p)), resend]);
    }
  }

  lemma GoesToFinish(cfg: Config, env: Environment, t: Tid, d: Disk, gate: bool, p: Pass)
    requires p.at < |p.rows| && p.rows[p.at].row.submission.Some? && FromResend(cfg, env, p).Some?
    ensures var (state, response) := FromResend(cfg, env, p).value;
            Machine(cfg, env, t)(On(d, gate, Resend(p))) ==
            On(d, gate, FinishRow(p, state, response,
                                  if Ask(env, Resend(p)).send.SendFinal? then ToLeave else ToPauseCheck, ToCheck))
  {
  }

  lemma ResendEnds(cfg: Config, env: Environment, t: Tid, d: Disk, gate: bool, p: Pass)
    requires Cooperative(env) && Open(cfg, d, p) && Replays(cfg, env, p) && Told(cfg, env, p).Some?
    ensures Reaches(Machine(cfg, env, t), On(d, gate, MarkRow(p)),
                    On(Put(d, p, Ended(cfg, env, p, p.rows[p.at].row)), gate, CheckRow(p)))
  {
    var row := p.rows[p.at].row;
    var sent := row.(state := Submitted, submitted := true);
    var marked, end := Put(d, p, sent), On(Put(d, p, Ended(cfg, env, p, row)), gate, CheckRow(p));
    var (state, response) := Told(cfg, env, p).value;
    var onError := if Ask(env, Resend(p)).send.SendFinal? then ToLeave else ToPauseCheck;
    assert Put(marked, p, Ended(cfg, env, p, row)).table == end.disk.table;
    Replayed(cfg, env, t, d, gate, p);
    Writes(cfg, env, t, marked, gate, p, state, response, onError);
    var finish := On(marked, gate, FinishRow(p, state, response, onError, ToCheck));
    GoesToFinish(cfg, env, t, marked, gate, p);
    Detour(Machine(cfg, env, t), [On(d, gate, MarkRow(p))], [On(marked, gate, Resend(p)), finish, end]);
  }

  lemma QueryEnds(cfg: Config, env: Environment, t: Tid, d: Disk, gate: bool, p: Pass)
    requires Cooperative(env) && Open(cfg, d, p) && Told(cfg, env, p).Some?
    ensures Reaches(Machine(cfg, env, t), On(d, gate, Query(p)),
                    On(Put(d, p, Ended(cfg, env, p, p.rows[p.at].row)), gate, CheckRow(p)))
  {
    var row := p.rows[p.at].row;
    var query, end := On(d, gate, Query(p)), On(Put(d, p, Ended(cfg, env, p, row)), gate, CheckRow(p));
    var (state, response) := Told(cfg, env, p).value;
    if Replays(cfg, env, p) {
      ResendEnds(cfg, env, t, d, gate, p);
      if cfg.chain.Near? {
        Detour(Machine(cfg, env, t), [query, On(d, gate, Heads(p)), On(d, gate, MarkRow(p))], [end]);
      } else {
        Detour(Machine(cfg, env, t), [query, On(d, gate, MarkRow(p))], [end]);
      }
    } else if Ask(env, Query(p)).verdict.FinalOutcome? {
      Writes(cfg, env, t, d, gate, p, state, response, ToLeave);
      Walk(Machine(cfg, env, t), [query, On(d, gate, FinishRow(p, state, response, ToLeave, ToCheck)), end]);
    } else {
      Writes(cfg, env, t, d, gate, p, state, response, ToPauseCheck);
      Walk(Machine(cfg, env, t), [query, On(d, gate, Heads(p)),
                                  On(d, gate, FinishRow(p, state, response, ToPauseCheck, ToCheck)),
                         end]);
    }
  }

  lemma GoesToQuery(cfg: Config, env: Environment, t: Tid, d: Disk, gate: bool, p: Pass)
    requires Cooperative(env) && Open(cfg, d, p)
    ensures Machine(cfg, env, t)(On(d, gate, NextRow(p))) == On(d, gate, Validate(p))
    ensures Machine(cfg, env, t)(On(d, gate, Validate(p))) == On(d, gate, Query(p))
  {
  }

  lemma GoesOn(cfg: Config, env: Environment, t: Tid, d: Disk, gate: bool, p: Pass)
    requires Cooperative(env) && p.at < |p.rows| && p.rows[p.at].id in d.table
    requires Terminal(d.table[p.rows[p.at].id].state)
    ensures Machine(cfg, env, t)(On(d, gate, CheckRow(p))) == On(d, gate, NextRow(Advance(p)))
  {
  }

  /** One row in flight: the pass records what it was told and goes on to the next row. */
  lemma RowEnds(cfg: Config, env: Environment, t: Tid, d: Disk, gate: bool, p: Pass)
    requires Cooperative(env) && Open(cfg, d, p) && Told(cfg, env, p).Some?
    ensures Reaches(Machine(cfg, env, t), On(d, gate, NextRow(p)),
                    On(Put(d, p, Ended(cfg, env, p, p.rows[p.at].row)), gate, NextRow(Advance(p))))
  {
    var after := Put(d, p, Ended(cfg, env, p, p.rows[p.at].row));
    var next, query, check := On(d, gate, NextRow(p)), On(d, gate, Query(p)), On(after, gate, CheckRow(p));
    QueryEnds(cfg, env, t, d, gate, p);
    GoesToQuery(cfg, env, t, d, gate, p);
    GoesOn(cfg, env, t, after, gate, p);
    Detour(Machine(cfg, env, t), [next, On(d, gate, Validate(p)), query],
           [check, On(after, gate, NextRow(Advance(p)))]);
  }

  // ---- The whole pass ----

  /** Every loaded row in flight has bytes that pass the check, and the nodes say how it ended. */
  predicate AllTold(cfg: Config, env: Environment, rows: seq<Record>, seen: Table) {
    forall i | 0 <= i < |rows| && InFlight(rows[i].row.state) ::
      && rows[i].row.submission.Some? && cfg.valid(rows[i].id, rows[i].row.submission.value)
      && Told(cfg, env, Pass(rows, i, seen)).Some?
  }

  /** Row `i` once the first `released` reservations were given up and the first `finished` rows in flight ended. */
  function RowThen(cfg: Config, env: Environment, rows: seq<Record>, seen: Table, released: nat, finished: nat, i: nat)
    : (r: Row)
    requires AllTold(cfg, env, rows, seen) && i < |rows|
  {
    var row := rows[i].row;
    if row.state.Reserved? && i < released then row.(state := AwaitingRetry)
    else if InFlight(row.state) && i < finished then Ended(cfg, env, Pass(rows, i, seen), row)
    else row
  }

  /** The loaded rows at that point. */
  function RowsThen(cfg: Config, env: Environment, rows: seq<Record>, seen: Table, released: nat, finished: nat)
    : (r: seq<Row>)
    requires AllTold(cfg, env, rows, seen)
    ensures |r| == |rows|
    ensures forall i | 0 <= i < |rows| :: r[i] == RowThen(cfg, env, rows, seen, released, finished, i)
  {
    seq(|rows|, i requires 0 <= i < |rows| => RowThen(cfg, env, rows, seen, released, finished, i))
  }

  /** The journal with the loaded rows as given and every other row as it was. */
  predicate Holds(rows: seq<Record>, seen: Table, now: seq<Row>, table: Table) {
    && |now| == |rows| && table.Keys == seen.Keys
    && (forall k | k in seen && !Active(seen[k].state) :: table[k] == seen[k])
    && (forall i | 0 <= i < |rows| :: rows[i].id in table && table[rows[i].id] == now[i])
  }

  /** The loaded rows are different active rows of the journal. */
  predicate Listed(rows: seq<Record>, seen: Table) {
    && (forall i | 0 <= i < |rows| ::
          rows[i].id in seen && rows[i].row == seen[rows[i].id] && Active(rows[i].row.state) && RowOk(rows[i].row))
    && (forall i, j | 0 <= i < j < |rows| :: rows[i].id != rows[j].id)
  }

  lemma HoldsOne(rows: seq<Record>, seen: Table, now: seq<Row>, table: Table, i: nat, row: Row)
    requires Listed(rows, seen) && Holds(rows, seen, now, table) && i < |rows|
    ensures Holds(rows, seen, now[i := row], table[rows[i].id := row])
  {
    assert table[rows[i].id := row].Keys == table.Keys;
  }

  ghost predicate Ready(cfg: Config, env: Environment, rows: seq<Record>, seen: Table) {
    Cooperative(env) && Listed(rows, seen) && AllTold(cfg, env, rows, seen)
  }

  lemma {:induction false} ReleasesAll(cfg: Config, env: Environment, t: Tid, d: Disk, gate: bool, p: Pass)
    returns (d': Disk)
    requires Ready(cfg, env, p.rows, p.seen) && p.at <= |p.rows|
    requires Holds(p.rows, p.seen, RowsThen(cfg, env, p.rows, p.seen, p.at, 0), d.table)
    ensures Reaches(Machine(cfg, env, t), On(d, gate, ReleaseRow(p)), On(d', gate, NextRow(p.(at := 0))))
    ensures d'.late == d.late && Holds(p.rows, p.seen, RowsThen(cfg, env, p.rows, p.seen, |p.rows|, 0), d'.table)
    decreases |p.rows| - p.at
  {
    var here := On(d, gate, ReleaseRow(p));
    if p.at == |p.rows| {
      d' := d;
      Walk(Machine(cfg, env, t), [here, On(d, gate, NextRow(p.(at := 0)))]);
    } else {
      var now := RowsThen(cfg, env, p.rows, p.seen, p.at, 0);
      var row := RowThen(cfg, env, p.rows, p.seen, p.at + 1, 0, p.at);
      var after := Put(d, p, row);
      HoldsOne(p.rows, p.seen, now, d.table, p.at, row);
      assert now[p.at := row] == RowsThen(cfg, env, p.rows, p.seen, p.at + 1, 0);
      Releases(cfg, env, t, d, gate, p);
      d' := ReleasesAll(cfg, env, t, after, gate, Advance(p));
      Detour(Machine(cfg, env, t), [here, On(after, gate, ReleaseRow(Advance(p)))],
             [On(d', gate, NextRow(p.(at := 0)))]);
    }
  }

  lemma Releases(cfg: Config, env: Environment, t: Tid, d: Disk, gate: bool, p: Pass)
    requires Cooperative(env) && p.at < |p.rows| && p.rows[p.at].id in d.table
    requires d.table[p.rows[p.at].id] == p.rows[p.at].row
    ensures var row := p.rows[p.at].row;
            Next(cfg, env, t, On(d, gate, ReleaseRow(p))) ==
            On(Put(d, p, if row.state.Reserved? then row.(state := AwaitingRetry) else row), gate,
               ReleaseRow(Advance(p)))
  {
    var id := p.rows[p.at].id;
    assert d.table[id := d.table[id]] == d.table;
  }

  lemma {:induction false} FinishesAll(cfg: Config, env: Environment, t: Tid, d: Disk, gate: bool, p: Pass)
    returns (d': Disk)
    requires Ready(cfg, env, p.rows, p.seen) && p.at <= |p.rows|
    requires Holds(p.rows, p.seen, RowsThen(cfg, env, p.rows, p.seen, |p.rows|, p.at), d.table)
    ensures Reaches(Machine(cfg, env, t), On(d, gate, NextRow(p)), On(d', gate, Remaining))
    ensures d'.late == d.late
    ensures Holds(p.rows, p.seen, RowsThen(cfg, env, p.rows, p.seen, |p.rows|, |p.rows|), d'.table)
    decreases |p.rows| - p.at
  {
    var here := On(d, gate, NextRow(p));
    if p.at == |p.rows| {
      d' := d;
      Walk(Machine(cfg, env, t), [here, On(d, gate, Remaining)]);
    } else {
      var now := RowsThen(cfg, env, p.rows, p.seen, |p.rows|, p.at);
      var row := RowThen(cfg, env, p.rows, p.seen, |p.rows|, p.at + 1, p.at);
      var after := Put(d, p, row);
      HoldsOne(p.rows, p.seen, now, d.table, p.at, row);
      assert now[p.at := row] == RowsThen(cfg, env, p.rows, p.seen, |p.rows|, p.at + 1);
      DealsWith(cfg, env, t, d, gate, p, row);
      d' := FinishesAll(cfg, env, t, after, gate, Advance(p));
      ReachesOn(Machine(cfg, env, t), here, On(after, gate, NextRow(Advance(p))), On(d', gate, Remaining));
    }
  }

  lemma DealsWith(cfg: Config, env: Environment, t: Tid, d: Disk, gate: bool, p: Pass, row: Row)
    requires Ready(cfg, env, p.rows, p.seen) && p.at < |p.rows|
    requires row == RowThen(cfg, env, p.rows, p.seen, |p.rows|, p.at + 1, p.at)
    requires p.rows[p.at].id in d.table
    requires d.table[p.rows[p.at].id] == RowThen(cfg, env, p.rows, p.seen, |p.rows|, p.at, p.at)
    ensures Reaches(Machine(cfg, env, t), On(d, gate, NextRow(p)), On(Put(d, p, row), gate, NextRow(Advance(p))))
  {
    if InFlight(p.rows[p.at].row.state) {
      assert p == Pass(p.rows, p.at, p.seen);
      RowEnds(cfg, env, t, d, gate, p);
    } else {
      assert Put(d, p, row).table == d.table;
      Walk(Machine(cfg, env, t), [On(d, gate, NextRow(p)), On(Put(d, p, row), gate, NextRow(Advance(p)))]);
    }
  }

  /** What a pass leaves of a journal it was told everything about. */
  ghost predicate Settled(cfg: Config, env: Environment, rows: seq<Record>, seen: Table, now: Table)
    requires AllTold(cfg, env, rows, seen)
  {
    && now.Keys == seen.Keys
    && (forall k | k in now :: !Active(now[k].state))
    && (forall k | k in seen && !Active(seen[k].state) :: now[k] == seen[k])
    && (forall k | k in seen && seen[k].state.Reserved? :: now[k] == seen[k].(state := AwaitingRetry))
    && (forall i | 0 <= i < |rows| && InFlight(rows[i].row.state) ::
          rows[i].id in now && now[rows[i].id] == Ended(cfg, env, Pass(rows, i, seen), rows[i].row))
  }

  lemma RowThenIsDone(cfg: Config, env: Environment, rows: seq<Record>, seen: Table, i: nat)
    requires AllTold(cfg, env, rows, seen) && i < |rows| && Active(rows[i].row.state)
    ensures !Active(RowThen(cfg, env, rows, seen, |rows|, |rows|, i).state)
  {
  }

  lemma HoldsMeansSettled(cfg: Config, env: Environment, rows: seq<Record>, seen: Table, now: Table)
    requires Listed(rows, seen) && AllTold(cfg, env, rows, seen)
    requires forall k | k in seen && Active(seen[k].state) :: Record(k, seen[k]) in rows
    requires Holds(rows, seen, RowsThen(cfg, env, rows, seen, |rows|, |rows|), now)
    ensures Settled(cfg, env, rows, seen, now)
  {
    forall k | k in seen && Active(seen[k].state)
      ensures !Active(now[k].state)
      ensures seen[k].state.Reserved? ==> now[k] == seen[k].(state := AwaitingRetry)
    {
      assert Record(k, seen[k]) in rows;
      var i :| 0 <= i < |rows| && rows[i] == Record(k, seen[k]);
      assert now[rows[i].id] == RowThen(cfg, env, rows, seen, |rows|, |rows|, i);
      RowThenIsDone(cfg, env, rows, seen, i);
    }
  }

  lemma ScanIsListed(chain: ChainKind, rows: seq<Record>, seen: Table)
    requires TableOk(chain, seen) && IsScan(rows, seen)
    ensures Listed(rows, seen)
  {
  }

  /**
   A pass alone, told how every row in flight ended, releases every reservation, records for every row in flight exactly
   what it was told, leaves every other row alone and opens the gate.
   */
  lemma PassSettlesEverything(cfg: Config, env: Environment, t: Tid, d: Disk) returns (d': Disk)
    requires Cooperative(env) && TableOk(cfg.chain, d.table)
    requires IsScan(Ask(env, Scan).rows, d.table) && AllTold(cfg, env, Ask(env, Scan).rows, d.table)
    ensures Reaches(Machine(cfg, env, t), On(d, false, Scan), On(d', true, Quit))
    ensures d'.late == d.late && Settled(cfg, env, Ask(env, Scan).rows, d.table, d'.table)
  {
    var rows := Ask(env, Scan).rows;
    ScanIsListed(cfg.chain, rows, d.table);
    d' := SweepSettles(cfg, env, t, d, Pass(rows, 0, d.table));
    HoldsMeansSettled(cfg, env, rows, d.table, d'.table);
    StartsAndEnds(cfg, env, t, d, d', rows);
  }

  lemma GoesToRelease(cfg: Config, env: Environment, t: Tid, d: Disk, rows: seq<Record>)
    requires Cooperative(env) && rows == Ask(env, Scan).rows && IsScan(rows, d.table)
    ensures Machine(cfg, env, t)(On(d, false, Scan)) == On(d, false, ReleaseRow(Pass(rows, 0, d.table)))
  {
  }

  lemma GoesToOpen(cfg: Config, env: Environment, t: Tid, d: Disk)
    requires Cooperative(env) && forall k | k in d.table :: !Active(d.table[k].state)
    ensures Machine(cfg, env, t)(On(d, false, Remaining)) == On(d, false, OpenGate(true))
    ensures Machine(cfg, env, t)(On(d, false, OpenGate(true))) == On(d, true, Quit)
  {
  }

  lemma StartsAndEnds(cfg: Config, env: Environment, t: Tid, d: Disk, d': Disk, rows: seq<Record>)
    requires Cooperative(env) && rows == Ask(env, Scan).rows && IsScan(rows, d.table)
    requires Reaches(Machine(cfg, env, t), On(d, false, ReleaseRow(Pass(rows, 0, d.table))), On(d', false, Remaining))
    requires forall k | k in d'.table :: !Active(d'.table[k].state)
    ensures Reaches(Machine(cfg, env, t), On(d, false, Scan), On(d', true, Quit))
  {
    GoesToRelease(cfg, env, t, d, rows);
    GoesToOpen(cfg, env, t, d');
    Detour(Machine(cfg, env, t), [On(d, false, Scan), On(d, false, ReleaseRow(Pass(rows, 0, d.table)))],
           [On(d', false, Remaining), On(d', false, OpenGate(true)), On(d', true, Quit)]);
  }

  lemma SweepSettles(cfg: Config, env: Environment, t: Tid, d: Disk, p: Pass) returns (d': Disk)
    requires Ready(cfg, env, p.rows, p.seen) && p.at == 0 && p.seen == d.table
    ensures Reaches(Machine(cfg, env, t), On(d, false, ReleaseRow(p)), On(d', false, Remaining)) && d'.late == d.late
    ensures Holds(p.rows, p.seen, RowsThen(cfg, env, p.rows, p.seen, |p.rows|, |p.rows|), d'.table)
  {
    var freed := ReleasesAll(cfg, env, t, d, false, p);
    assert p.(at := 0) == p;
    d' := FinishesAll(cfg, env, t, freed, false, p);
    ReachesOn(Machine(cfg, env, t), On(d, false, ReleaseRow(p)), On(freed, false, NextRow(p)),
              On(d', false, Remaining));
  }

  /** The same as a run: with only this pass running, the process ends with its gate open and the journal settled. */
  lemma RecoveryOpensGate(cfg: Config, env: Environment, s: State, p: Pid, t: Tid) returns (steps: seq<Step>)
    requires Stands(s, p, t, On(s.disk, false, Scan))
    requires Cooperative(env) && TableOk(cfg.chain, s.disk.table)
    requires IsScan(Ask(env, Scan).rows, s.disk.table) && AllTold(cfg, env, Ask(env, Scan).rows, s.disk.table)
    ensures forall i | 0 <= i < |steps| :: steps[i].Run? && steps[i].p == p && steps[i].t == t
    ensures var r := Execute(cfg, s, steps);
            p in r.procs && r.procs[p].gate && Settled(cfg, env, Ask(env, Scan).rows, s.disk.table, r.disk.table)
  {
    var d' := PassSettlesEverything(cfg, env, t, s.disk);
    steps := ReachedByRun(cfg, env, s, p, t, On(s.disk, false, Scan), On(d', true, Quit));
  }
}
