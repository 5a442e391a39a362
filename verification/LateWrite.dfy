/**
 One process alone is not safe from its own abandoned writes, and these runs show how. In
 the first its worker gives up on journaling signed bytes, recovery releases the row, the
 client resumes it, and the write lands behind the open gate. In the second its worker
 gives up on recording a refusal, the row is released, resumed and broadcast, and the
 refusal lands on it.
 */
module LateWrite {
  import opened Base
  import opened Journal
  import opened Settlement
  import opened SettlementExclusion
  import opened SettlementSolo
  import opened Scenes

  const ALONE: set<Pid> := {P}

  /** Only the process itself acts, so nothing is foreign to it. */
  lemma AloneIsSolo(steps: seq<Step>, s: State)
    requires Leads(steps, ALONE, s)
    ensures SoloRun(steps)
  {
    forall i | 0 <= i < |steps| ensures SoloStep(steps[i]) {
      assert By(steps[i], ALONE);
    }
  }

  const LATE := MarkPrepared(ID, TX)

  /** The worker signs, and the store call that journals its bytes is abandoned. */
  lemma GivesUp(reached: State -> bool, pids: set<Pid>, sign: Scene) returns (c: Scene)
    requires Closed(reached, pids) && sign.p in pids && reached(sign.State())
    requires sign.task == Worker(ID, Sign(CLAIMED)) && sign.d == Disk(map[ID := CLAIMED], multiset{})
    ensures reached(c.State()) && c.task == Worker(ID, Leave) && c.p == sign.p
    ensures c.d == Disk(map[ID := CLAIMED], multiset{LATE})
  {
    c := Act(reached, pids, sign, YES);
    assert c.task == Worker(ID, Persist(TX));
    c := Act(reached, pids, c, YES.(store := Delayed));
    assert c.task == Worker(ID, Pause) && c.d == Disk(map[ID := CLAIMED], multiset{LATE});
    c := Act(reached, pids, c, YES);
  }

  /** The row is resumed, and its worker waits for the lock. */
  lemma Resumes(reached: State -> bool, pids: set<Pid>, c: Scene) returns (s: State)
    requires Closed(reached, pids) && c.p in pids && reached(c.State()) && c.task == Reconciler(Quit)
    requires c.gate && c.d == Disk(map[ID := DORMANT], multiset{LATE})
    ensures reached(s) && s.disk == Disk(map[ID := CLAIMED], multiset{LATE})
    ensures c.p in s.procs && s.procs[c.p].gate && s.procs[c.p].lock.None?
  {
    Retires(reached, pids, c);
    var d := Disk(map[ID := CLAIMED], multiset{LATE});
    assert c.d.table[ID := CLAIMED] == map[ID := CLAIMED];
    Asks(reached, pids, c, Resume(ID), d);
    s := State(d, c.others[c.p := Process(c.gate, None, map[c.n := Worker(ID, Acquire)])], c.n + 1, c.log);
  }

  /** From the empty journal one process and one late prepare reach an open gate with a transaction in flight. */
  lemma LateWriteBreaksReadyMeansQuiet() returns (steps: seq<Step>)
    ensures Initial(NearConfig(), EMPTY) && SoloRun(steps)
    ensures var r := Execute(NearConfig(), EMPTY, steps + [Land(LATE)]);
            && P in r.procs && r.procs[P].gate && r.procs[P].lock.None?
            && ID in r.disk.table && InFlight(r.disk.table[ID].state)
  {
    ReachedIsClosed(ALONE);
    var reached := (s: State) => Reached(ALONE, s);
    var reload, sign := Opening(reached, ALONE);
    var c := GivesUp(reached, ALONE, sign);
    c := ReleasesAfter(reached, ALONE, c);
    var s := Resumes(reached, ALONE, c);
    assert Reached(ALONE, s);
    steps :| Leads(steps, ALONE, s);
    AloneIsSolo(steps, s);
    assert (steps + [Land(LATE)])[..|steps|] == steps;
    assert LATE in s.disk.late;
  }

  const WHY := "insufficient_funds"
  const LATE_REFUSAL := MarkRefused(ID, WHY)

  /** Verification refuses the payment, and the store call that records the refusal is abandoned. */
  lemma RefusesInVain(reached: State -> bool, pids: set<Pid>, before: Scene) returns (c: Scene)
    requires Closed(reached, pids) && before.p in pids && reached(before.State()) && before.gate
    requires before.task == Worker(ID, FirstGate) && before.d == Disk(map[ID := CLAIMED], multiset{})
    ensures reached(c.State()) && c.task == Worker(ID, Leave) && c.p == before.p
    ensures c.d == Disk(map[ID := CLAIMED], multiset{LATE_REFUSAL})
  {
    c := Act(reached, pids, before, YES);
    assert c == before.(task := Worker(ID, Verify), log := c.log);
    c := Act(reached, pids, c, YES.(verify := Refused(WHY)));
    assert c.task == Worker(ID, Reject(WHY)) && c.d == before.d;
    c := Act(reached, pids, c, YES.(store := Delayed));
    assert c.task == Worker(ID, Pause) && c.d == Disk(map[ID := CLAIMED], multiset{LATE_REFUSAL});
    c := Act(reached, pids, c, YES);
  }

  /** A settlement whose broadcast is the last event is recorded as refused, with the refusal's response. */
  predicate BroadcastThenRefusedLate(s: State) {
    && |s.log| > 0 && s.log[|s.log| - 1].Broadcast? && s.log[|s.log| - 1].id == ID
    && ID in s.disk.table && s.disk.table[ID].submitted && s.disk.table[ID].submission == Some(s.log[|s.log| - 1].s)
    && s.disk.table[ID].state.Failed? && s.disk.table[ID].refused && s.disk.table[ID].response == Some(WHY)
  }

  /** From the empty journal one process, to which nothing is foreign, reaches a broadcast settlement recorded as
      refused. */
  lemma LateRefusalFailsSubmittedRow() returns (steps: seq<Step>)
    ensures Initial(NearConfig(), EMPTY) && SoloRun(steps) && Foreign(NearConfig(), EMPTY, steps, P) == {}
    ensures BroadcastThenRefusedLate(Execute(NearConfig(), EMPTY, steps))
  {
    ReachedIsClosed(ALONE);
    var reached := (s: State) => Reached(ALONE, s);
    var c := FirstClaims(reached, ALONE);
    c := RefusesInVain(reached, ALONE, c);
    c := ReleasesAfter(reached, ALONE, c);
    c := Prepares(reached, ALONE, c);
    c := Broadcasts(reached, ALONE, c);
    assert Reached(ALONE, c.State());
    var before :| Leads(before, ALONE, c.State());
    steps := before + [Land(LATE_REFUSAL)];
    Lands(c.State(), before, steps);
  }

  lemma Lands(s: State, before: seq<Step>, steps: seq<Step>)
    requires Leads(before, ALONE, s) && steps == before + [Land(LATE_REFUSAL)]
    requires s.disk == Disk(map[ID := SUBMITTED], multiset{LATE_REFUSAL})
    requires |s.log| > 0 && s.log[|s.log| - 1].Broadcast?
    requires s.log[|s.log| - 1].id == ID && s.log[|s.log| - 1].s == TX
    ensures SoloRun(steps) && Foreign(NearConfig(), EMPTY, steps, P) == {}
    ensures BroadcastThenRefusedLate(Execute(NearConfig(), EMPTY, steps))
  {
    AloneIsSolo(before, s);
    NothingForeign(NearConfig(), EMPTY, steps);
    assert steps[..|steps| - 1] == before;
    assert LATE_REFUSAL in s.disk.late;
  }
}
