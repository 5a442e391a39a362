/**
 The deployment the service is meant for: one process works through settlements, restarted
 any number of times, and no abandoned prepare lands late. Then no row is foreign.
 */
module SettlementSolo {
  import opened Journal
  import opened Settlement
  import opened SettlementExclusion

  const P: Pid := 0

  /** No other process runs a task, and no prepare lands after its caller gave up on it. */
  predicate SoloStep(step: Step) {
    match step
    case Run(p, _, _) => p == P
    case Land(call) => !call.MarkPrepared?
    case _ => true
  }

  predicate SoloRun(steps: seq<Step>) {
    forall i | 0 <= i < |steps| :: SoloStep(steps[i])
  }

  lemma {:induction false} NothingForeign(cfg: Config, s: State, steps: seq<Step>)
    requires SoloRun(steps)
    ensures Foreign(cfg, s, steps, P) == {}
  {
    if steps != [] {
      var before, step := steps[..|steps| - 1], steps[|steps| - 1];
      NothingForeign(cfg, s, before);
      assert SoloStep(step);
      if step.Land? {
        StoreBytes(cfg.chain, Execute(cfg, s, before).disk, step.call, Acknowledged);
      }
    }
  }

  /** Fail closed: a ready gate and a free lock mean no transaction is unresolved, whatever the journal was at boot. */
  lemma ReadyMeansQuiet(cfg: Config, s: State, steps: seq<Step>)
    requires Initial(cfg, s) && SoloRun(steps)
    requires var r := Execute(cfg, s, steps); P in r.procs && r.procs[P].gate && r.procs[P].lock.None?
    ensures Quiet(Execute(cfg, s, steps).disk.table)
  {
    NothingForeign(cfg, s, steps);
    ReadyIsQuiet(cfg, s, steps, P);
  }

  /** If at most one settlement was in flight at boot, at most one ever is. */
  lemma AtMostOneInFlight(cfg: Config, s: State, steps: seq<Step>, a: Id, b: Id)
    requires Initial(cfg, s) && SoloRun(steps) && OneOutside(s.disk.table, {})
    requires var t := Execute(cfg, s, steps).disk.table;
             a in t && b in t && InFlight(t[a].state) && InFlight(t[b].state)
    ensures a == b
  {
    NothingForeign(cfg, s, steps);
    OneOwnInFlight(cfg, s, steps, P, a, b);
  }

  /** A signature is made only for a row without bytes, while nothing at all is in flight. */
  lemma SignsOnlyCleanReservations(cfg: Config, s: State, steps: seq<Step>, t: Tid, id: Id, seen: Row)
    requires Initial(cfg, s) && SoloRun(steps) && At(Execute(cfg, s, steps), P, t, id, Sign(seen))
    ensures var r := Execute(cfg, s, steps).disk.table; Quiet(r) && id in r && r[id].submission.None?
  {
    NothingForeign(cfg, s, steps);
    SignatureIsClean(cfg, s, steps, P, t, id, seen);
  }

  /** At the instant before a worker writes a refusal nothing is in flight; one that lands late is another matter. */
  lemma RejectsOnlyWhenQuiet(cfg: Config, s: State, steps: seq<Step>, t: Tid, id: Id, response: string)
    requires Initial(cfg, s) && SoloRun(steps) && At(Execute(cfg, s, steps), P, t, id, Reject(response))
    ensures Quiet(Execute(cfg, s, steps).disk.table)
  {
    NothingForeign(cfg, s, steps);
    RefusalIsQuiet(cfg, s, steps, P, t, id, response);
  }
}
