/**
 With two processes a worker may act on a foreign row, and these runs show how. A leader
 that has not yet noticed the loss of its session holds a worker while its successor
 releases, resumes, signs and broadcasts the same settlement. If the stale worker was at
 its journal reload it then finds the row no longer reserved, takes the identity-mismatch
 branch and marks the submitted row failed. If it was past the reload it signs new bytes.
 */
module StaleLeader {
  import opened Base
  import opened Journal
  import opened Settlement
  import opened Scenes

  /** The successor takes over the journal. */
  lemma SuccessorReady(reached: State -> bool, pids: set<Pid>, stalled: Scene) returns (c: Scene)
    requires Closed(reached, pids) && 0 in pids && 1 in pids && reached(stalled.State())
    requires stalled.d == Disk(map[ID := CLAIMED], multiset{}) && stalled.p == 0 && stalled.others == map[]
    ensures reached(c.State()) && c.others == stalled.State().procs && c.p == 1 && c.gate && c.task == Reconciler(Quit)
    ensures c.d == Disk(map[ID := DORMANT], multiset{}) && c.n == stalled.n + 1
  {
    var others, n := stalled.State().procs, stalled.n;
    Boots(reached, pids, stalled.d, others, 1, n, stalled.log);
    c := EnterPass(reached, pids, stalled.d, others, 1, false, n, stalled.log);
    c := ReleasesAndOpens(reached, pids, c);
  }

  /** The stale worker, wherever it stood, wakes up to a journal in which its row was broadcast. */
  lemma StaleWorkerWakes(reached: State -> bool, pids: set<Pid>, stalled: Scene) returns (back: Scene)
    requires Closed(reached, pids) && 0 in pids && 1 in pids && reached(stalled.State())
    requires stalled.d == Disk(map[ID := CLAIMED], multiset{}) && stalled.p == 0 && stalled.others == map[]
    ensures reached(back.State()) && back.d == Disk(map[ID := SUBMITTED], multiset{})
    ensures back.p == 0 && back.gate == stalled.gate && back.task == stalled.task
    ensures |back.log| > 0 && back.log[|back.log| - 1] .Broadcast? && back.log[|back.log| - 1].id == ID
    ensures back.log[|back.log| - 1].s == TX
  {
    var c := SuccessorReady(reached, pids, stalled);
    c := Prepares(reached, pids, c);
    c := Broadcasts(reached, pids, c);
    var successor := Process(c.gate, Some(c.t), map[c.t := c.task]);
    back := Scene(c.d, map[1 := successor], 0, stalled.gate, stalled.t, stalled.task, c.n, c.log);
    assert back.State().procs == c.State().procs;
  }

  /** A settlement that was broadcast ends failed, by a refusal that overwrote it in flight. */
  predicate BroadcastThenRefused(s: State) {
    && |s.log| >= 3
    && s.log[|s.log| - 3].Broadcast? && s.log[|s.log| - 1].Rejected?
    && var sent, refused := s.log[|s.log| - 3], s.log[|s.log| - 1];
       && sent.id == refused.id && refused.id in refused.table && InFlight(refused.table[refused.id].state)
       && refused.id in s.disk.table && s.disk.table[refused.id].state.Failed?
       && s.disk.table[refused.id].submission == Some(sent.s)
  }

  /** At its reload the worker takes the mismatch branch, */
  lemma StaleWorkerRefuses(reached: State -> bool, pids: set<Pid>, before: Scene) returns (back: Scene)
    requires Closed(reached, pids) && before.p in pids && reached(before.State()) && before.task == Worker(ID, Reload)
    requires before.d == Disk(map[ID := SUBMITTED], multiset{})
    requires |before.log| > 0 && before.log[|before.log| - 1].Broadcast?
    requires before.log[|before.log| - 1].id == ID && before.log[|before.log| - 1].s == TX
    ensures reached(back.State()) && BroadcastThenRefused(back.State())
  {
    back := Act(reached, pids, before, YES);
    var read := Reread(before.t, ID, SUBMITTED, true);
    assert back.task == Worker(ID, Reject(MISMATCH)) && back.log == before.log + [read];
    back := Act(reached, pids, back, YES);
    assert back.log == before.log + [read, Rejected(before.t, ID, MISMATCH, before.d.table)];
  }

  /** so two processes reach, from the empty journal and without one store error, a broadcast settlement recorded as
      failed. */
  lemma StaleLeaderFailsSubmittedRow() returns (steps: seq<Step>)
    ensures Initial(NearConfig(), EMPTY) && BroadcastThenRefused(Execute(NearConfig(), EMPTY, steps))
  {
    var pids: set<Pid> := {0, 1};
    ReachedIsClosed(pids);
    var reached := (s: State) => Reached(pids, s);
    var reload, sign := Opening(reached, pids);
    var back := StaleWorkerWakes(reached, pids, reload);
    back := StaleWorkerRefuses(reached, pids, back);
    assert Reached(pids, back.State());
    steps :| Leads(steps, pids, back.State());
  }

  const OTHER := Submission("relayer.near", 43, [3], "other")

  /** New bytes are signed for a settlement that already journals, and has broadcast, different ones. */
  predicate BroadcastThenSigned(s: State) {
    && |s.log| >= 2
    && s.log[|s.log| - 2].Broadcast? && s.log[|s.log| - 1].Signed?
    && var sent, signed := s.log[|s.log| - 2], s.log[|s.log| - 1];
       && sent.id == signed.id && sent.s != signed.s
       && signed.id in signed.table && signed.table[signed.id].submission == Some(sent.s)
  }

  /** Past its reload the worker signs whatever it prepared, */
  lemma StaleWorkerSigns(reached: State -> bool, pids: set<Pid>, before: Scene) returns (back: Scene)
    requires Closed(reached, pids) && before.p in pids && reached(before.State())
    requires before.task == Worker(ID, Sign(CLAIMED))
    requires before.d == Disk(map[ID := SUBMITTED], multiset{})
    requires |before.log| > 0 && before.log[|before.log| - 1].Broadcast?
    requires before.log[|before.log| - 1].id == ID && before.log[|before.log| - 1].s == TX
    ensures reached(back.State()) && BroadcastThenSigned(back.State())
  {
    back := Act(reached, pids, before, YES.(submission := OTHER));
    assert back.log == before.log + [Signed(before.t, ID, OTHER, CLAIMED, before.d.table)];
  }

  /** so two processes also reach a signature of new bytes over a settlement that was broadcast. */
  lemma StaleLeaderSignsOverBroadcast() returns (steps: seq<Step>)
    ensures Initial(NearConfig(), EMPTY) && BroadcastThenSigned(Execute(NearConfig(), EMPTY, steps))
  {
    var pids: set<Pid> := {0, 1};
    ReachedIsClosed(pids);
    var reached := (s: State) => Reached(pids, s);
    var reload, sign := Opening(reached, pids);
    var back := StaleWorkerWakes(reached, pids, sign);
    back := StaleWorkerSigns(reached, pids, back);
    assert Reached(pids, back.State());
    steps :| Leads(steps, pids, back.State());
  }
}
