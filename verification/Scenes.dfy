/** A small kit for exhibiting concrete runs of the settlement engine, one task step at a time. */
module Scenes {
  import opened Base
  import opened Journal
  import opened Settlement
  import opened SettlementSafety
  import EvmFees

  const ID: Id := 7
  const ANCHOR := Anchor("near", [1])
  const TX := Submission("relayer.near", 42, [2], "hash")
  const YES := Answer(true, Acknowledged, Accepted, true, TX, [], None, Unknown, Usable, SendPending)
  const NOTHING: Table := map[]
  const EMPTY := State(Disk(NOTHING, multiset{}), map[], 0, [])
  const CLAIMED := Row(Reserved, ANCHOR, "near", 0, None, false, None, false)
  const DORMANT := CLAIMED.(state := AwaitingRetry)
  const PREPARED := CLAIMED.(state := Prepared, submission := Some(TX))
  const SUBMITTED := CLAIMED.(state := Submitted, submission := Some(TX), submitted := true)
  const LOADED := [Record(ID, CLAIMED)]

  function NearConfig(): (c: Config) {
    Config(Near, (id: Id, s: Submission) => true, EvmFees.Policy(0, 0, 0, 0))
  }

  /** Tasks run only in these processes, and no abandoned write lands. */
  predicate By(step: Step, pids: set<Pid>) {
    !step.Land? && (step.Run? ==> step.p in pids)
  }

  /** Any property of states that every such step keeps. */
  ghost predicate Closed(reached: State -> bool, pids: set<Pid>) {
    forall s: State, step: Step :: reached(s) && By(step, pids) ==> reached(Do(NearConfig(), s, step))
  }

  predicate Leads(steps: seq<Step>, pids: set<Pid>, s: State) {
    (forall i | 0 <= i < |steps| :: By(steps[i], pids)) && Execute(NearConfig(), EMPTY, steps) == s
  }

  ghost predicate Reached(pids: set<Pid>, s: State) {
    exists steps :: Leads(steps, pids, s)
  }

  lemma ReachedIsClosed(pids: set<Pid>)
    ensures Reached(pids, EMPTY) && Closed(s => Reached(pids, s), pids)
  {
    assert Leads([], pids, EMPTY);
    forall s: State, step: Step | Reached(pids, s) && By(step, pids) ensures Reached(pids, Do(NearConfig(), s, step)) {
      var steps :| Leads(steps, pids, s);
      assert (steps + [step])[..|steps|] == steps;
      assert Leads(steps + [step], pids, Do(NearConfig(), s, step));
    }
  }

  /** One process with a single task holding its lock, the other processes, and the journal. */
  datatype Scene = Scene(
    d: Disk, others: map<Pid, Process>, p: Pid, gate: bool, t: Tid, task: Task, n: Tid, log: seq<Event>)
  {
    function State(): (s: State) {
      Settlement.State(d, others[p := Process(gate, Some(t), map[t := task])], n, log)
    }

    /** The same process once its worker or pass is gone. */
    function Idle(): (s: State) {
      Settlement.State(d, others[p := Process(gate, None, map[])], n, log)
    }
  }

  function Next(c: Scene, a: Answer): (e: Effect) {
    if c.task.Worker? then WorkerStep(NearConfig(), c.d, c.gate, c.t, c.task.id, c.task.w, a)
    else ReconcilerStep(NearConfig(), c.d, c.gate, c.t, c.task.r, a)
  }

  /** The lock holder of the scene runs one step. */
  lemma Act(reached: State -> bool, pids: set<Pid>, c: Scene, a: Answer) returns (r: Scene)
    requires Closed(reached, pids) && c.p in pids && reached(c.State()) && HoldsLock(c.task) && !Finished(c.task)
    ensures reached(r.State())
    ensures r == c.(d := Next(c, a).disk, gate := Next(c, a).gate, task := Next(c, a).task,
                    log := c.log + Logged(Next(c, a).event))
  {
    var e := Next(c, a);
    r := c.(d := e.disk, gate := e.gate, task := e.task, log := c.log + Logged(e.event));
    assert c.State().procs[c.p].tasks[c.t := e.task] == map[c.t := e.task];
    assert Do(NearConfig(), c.State(), Run(c.p, c.t, a)).procs == r.State().procs;
  }

  /** A process whose only task is `before` ends a step with only task `after`. */
  lemma Turn(reached: State -> bool, pids: set<Pid>, d: Disk, others: map<Pid, Process>, p: Pid, n: Tid,
             log: seq<Event>, t: Tid, before: Process, after: Process, event: Option<Event>)
    requires Closed(reached, pids) && p in pids && reached(State(d, others[p := before], n, log))
    requires t in before.tasks && RunTask(NearConfig(), d, before, t, YES) == (d, after, event)
    ensures reached(State(d, others[p := after], n, log + Logged(event)))
  {
    var s := State(d, others[p := before], n, log);
    assert Do(NearConfig(), s, Run(p, t, YES)).procs == others[p := after];
    assert Do(NearConfig(), s, Run(p, t, YES)).log == log + Logged(event);
  }

  /** A finished task drops the lock and is gone. */
  lemma Retires(reached: State -> bool, pids: set<Pid>, c: Scene)
    requires Closed(reached, pids) && c.p in pids && reached(c.State()) && Finished(c.task) && HoldsLock(c.task)
    ensures reached(c.Idle())
  {
    var busy := Process(c.gate, Some(c.t), map[c.t := c.task]);
    assert busy.tasks - {c.t} == map[];
    Turn(reached, pids, c.d, c.others, c.p, c.n, c.log, c.t, busy, Process(c.gate, None, map[]), None);
    assert c.log + Logged(None) == c.log;
  }

  lemma Boots(reached: State -> bool, pids: set<Pid>, d: Disk, others: map<Pid, Process>, p: Pid, n: Tid,
              log: seq<Event>)
    requires Closed(reached, pids) && p in pids && reached(State(d, others, n, log)) && p !in others
    ensures reached(State(d, others[p := Process(false, None, map[])], n, log))
  {
    assert Do(NearConfig(), State(d, others, n, log), Boot(p)).procs == others[p := Process(false, None, map[])];
  }

  lemma ClosesGate(reached: State -> bool, pids: set<Pid>, d: Disk, others: map<Pid, Process>, p: Pid, gate: bool,
                   n: Tid, log: seq<Event>)
    requires Closed(reached, pids) && p in pids
    requires reached(State(d, others[p := Process(gate, None, map[n := Reconciler(Start)])], n + 1, log))
    ensures reached(State(d, others[p := Process(false, None, map[n := Reconciler(Enter)])], n + 1,
                          log + [Led(n, true)]))
  {
    var p0 := Process(gate, None, map[n := Reconciler(Start)]);
    var p1 := Process(gate, None, map[n := Reconciler(CloseGate)]);
    var p2 := Process(false, None, map[n := Reconciler(Enter)]);
    assert p0.tasks[n := Reconciler(CloseGate)] == p1.tasks;
    Turn(reached, pids, d, others, p, n + 1, log, n, p0, p1, Some(Led(n, true)));
    var led := log + [Led(n, true)];
    assert p1.tasks[n := Reconciler(Enter)] == p2.tasks;
    Turn(reached, pids, d, others, p, n + 1, led, n, p1, p2, None);
    assert led + Logged(None) == led;
  }

  lemma StartsPass(reached: State -> bool, pids: set<Pid>, d: Disk, others: map<Pid, Process>, p: Pid, gate: bool,
                   n: Tid, log: seq<Event>)
    requires Closed(reached, pids) && p in pids && reached(State(d, others[p := Process(gate, None, map[])], n, log))
    ensures reached(State(d, others[p := Process(gate, None, map[n := Reconciler(Start)])], n + 1, log))
  {
    var empty: map<Tid, Task> := map[];
    assert empty[n := Reconciler(Start)] == map[n := Reconciler(Start)];
    assert Do(NearConfig(), State(d, others[p := Process(gate, None, map[])], n, log), StartPass(p)).procs ==
           others[p := Process(gate, None, map[n := Reconciler(Start)])];
  }

  /** A recovery pass of an idle process takes its lock. */
  lemma EnterPass(reached: State -> bool, pids: set<Pid>, d: Disk, others: map<Pid, Process>, p: Pid, gate: bool,
                  n: Tid, log: seq<Event>) returns (c: Scene)
    requires Closed(reached, pids) && p in pids && reached(State(d, others[p := Process(gate, None, map[])], n, log))
    ensures reached(c.State())
    ensures c == Scene(d, others, p, false, n, Reconciler(Scan), n + 1, c.log)
  {
    StartsPass(reached, pids, d, others, p, gate, n, log);
    ClosesGate(reached, pids, d, others, p, gate, n, log);
    var led := log + [Led(n, true)];
    var p2 := Process(false, None, map[n := Reconciler(Enter)]);
    var p3 := Process(false, Some(n), map[n := Reconciler(Scan)]);
    assert p2.tasks[n := Reconciler(Scan)] == p3.tasks;
    Turn(reached, pids, d, others, p, n + 1, led, n, p2, p3, None);
    assert led + Logged(None) == led;
    c := Scene(d, others, p, false, n, Reconciler(Scan), n + 1, led);
  }

  /** Past the last row, with nothing active left, the pass opens the gate. */
  lemma Opens(reached: State -> bool, pids: set<Pid>, c: Scene) returns (r: Scene)
    requires Closed(reached, pids) && c.p in pids && reached(c.State()) && c.task.Reconciler? && c.task.r.NextRow?
    requires c.task.r.pass.at == |c.task.r.pass.rows| && forall k | k in c.d.table :: !Active(c.d.table[k].state)
    ensures reached(r.State()) && r == c.(gate := true, task := Reconciler(Quit))
  {
    r := Act(reached, pids, c, YES);
    assert r == c.(task := Reconciler(Remaining));
    r := Act(reached, pids, r, YES);
    assert r == c.(task := Reconciler(OpenGate(true)));
    r := Act(reached, pids, r, YES);
  }

  /** The pass finds an empty journal and opens the gate. */
  lemma OpensOverNothing(reached: State -> bool, pids: set<Pid>, c: Scene) returns (r: Scene)
    requires Closed(reached, pids) && c.p in pids && reached(c.State())
    requires c.task == Reconciler(Scan) && c.d.table == NOTHING
    ensures reached(r.State()) && r == c.(gate := true, task := Reconciler(Quit), log := r.log)
  {
    var none := Pass([], 0, NOTHING);
    r := Act(reached, pids, c, YES);
    assert r == c.(task := Reconciler(ReleaseRow(none)), log := r.log);
    r := Act(reached, pids, r, YES);
    assert r.task == Reconciler(NextRow(none));
    r := Opens(reached, pids, r);
  }

  /** The pass finds one reservation and releases it, */
  lemma Releases(reached: State -> bool, pids: set<Pid>, c: Scene) returns (r: Scene)
    requires Closed(reached, pids) && c.p in pids && reached(c.State())
    requires c.task == Reconciler(Scan) && c.d.table == map[ID := CLAIMED]
    ensures reached(r.State())
    ensures r == c.(d := Disk(map[ID := DORMANT], c.d.late),
                    task := Reconciler(ReleaseRow(Pass(LOADED, 1, c.d.table))), log := r.log)
  {
    r := Act(reached, pids, c, YES.(rows := LOADED));
    assert r.task == Reconciler(ReleaseRow(Pass(LOADED, 0, c.d.table)));
    r := Act(reached, pids, r, YES);
    assert r.d.table == map[ID := DORMANT];
  }

  /** and opens the gate, since a dormant row is not active. */
  lemma ReleasesAndOpens(reached: State -> bool, pids: set<Pid>, c: Scene) returns (r: Scene)
    requires Closed(reached, pids) && c.p in pids && reached(c.State()) && c.task == Reconciler(Scan)
             && c.d.table == map[ID := CLAIMED]
    ensures reached(r.State())
    ensures r == c.(d := Disk(map[ID := DORMANT], c.d.late), gate := true, task := Reconciler(Quit), log := r.log)
  {
    r := Releases(reached, pids, c);
    var after := Pass(LOADED, 1, c.d.table);
    r := Act(reached, pids, r, YES);
    assert r.task == Reconciler(NextRow(after.(at := 0)));
    r := Act(reached, pids, r, YES);
    assert r.task == Reconciler(NextRow(after));
    r := Opens(reached, pids, r);
  }

  /** A request is accepted by an idle process, */
  lemma Asks(reached: State -> bool, pids: set<Pid>, c: Scene, call: Call, d: Disk)
    requires Closed(reached, pids) && c.p in pids && reached(c.Idle())
    requires (call.Claim? || call.Resume?) && Store(Near, c.d, call, Acknowledged) == (d, true)
    ensures reached(State(d, c.others[c.p := Process(c.gate, None, map[c.n := Worker(call.id, Acquire)])], c.n + 1,
                          c.log))
  {
    var empty: map<Tid, Task> := map[];
    assert empty[c.n := Worker(call.id, Acquire)] == map[c.n := Worker(call.id, Acquire)];
    assert Do(NearConfig(), c.Idle(), Request(c.p, call, Acknowledged)).procs ==
           c.others[c.p := Process(c.gate, None, map[c.n := Worker(call.id, Acquire)])];
  }

  /** and its worker takes the lock. */
  lemma Serve(reached: State -> bool, pids: set<Pid>, c: Scene, call: Call) returns (r: Scene)
    requires Closed(reached, pids) && c.p in pids && reached(c.State()) && Finished(c.task) && HoldsLock(c.task)
    requires (call.Claim? || call.Resume?) && Apply(Near, c.d.table, call).1
    ensures reached(r.State())
    ensures r == Scene(Disk(Apply(Near, c.d.table, call).0, c.d.late), c.others, c.p, c.gate, c.n,
                       Worker(call.id, FirstGate), c.n + 1, c.log)
  {
    Retires(reached, pids, c);
    var d := Disk(Apply(Near, c.d.table, call).0, c.d.late);
    Asks(reached, pids, c, call, d);
    var asked := Process(c.gate, None, map[c.n := Worker(call.id, Acquire)]);
    var holding := Process(c.gate, Some(c.n), map[c.n := Worker(call.id, FirstGate)]);
    assert asked.tasks[c.n := Worker(call.id, FirstGate)] == holding.tasks;
    Turn(reached, pids, d, c.others, c.p, c.n + 1, c.log, c.n, asked, holding, None);
    assert c.log + Logged(None) == c.log;
    r := Scene(d, c.others, c.p, c.gate, c.n, Worker(call.id, FirstGate), c.n + 1, c.log);
  }

  /** Behind an open gate a worker on the reservation gets as far as signing. */
  lemma ReachesSign(reached: State -> bool, pids: set<Pid>, c: Scene) returns (reload: Scene, r: Scene)
    requires Closed(reached, pids) && c.p in pids && reached(c.State())
    requires c.gate && c.task == Worker(ID, FirstGate) && c.d.table == map[ID := CLAIMED]
    ensures reload == c.(task := Worker(ID, Reload), log := reload.log) && reached(reload.State())
    ensures r == c.(task := Worker(ID, Sign(CLAIMED)), log := r.log) && reached(r.State())
  {
    reload := Act(reached, pids, c, YES);
    assert reload == c.(task := Worker(ID, Verify), log := reload.log);
    reload := Act(reached, pids, reload, YES);
    r := Act(reached, pids, reload, YES);
  }

  /** A dormant row is resumed, signed and journaled, */
  lemma Prepares(reached: State -> bool, pids: set<Pid>, before: Scene) returns (c: Scene)
    requires Closed(reached, pids) && before.p in pids && reached(before.State()) && before.task == Reconciler(Quit)
    requires before.d.table == map[ID := DORMANT] && before.gate
    ensures reached(c.State()) && c.others == before.others && c.p == before.p && c.gate
    ensures c.task == Worker(ID, Recheck(TX)) && c.d == Disk(map[ID := PREPARED], before.d.late)
  {
    c := Serve(reached, pids, before, Resume(ID));
    assert c.d.table == map[ID := CLAIMED];
    var reload, sign := ReachesSign(reached, pids, c);
    c := Persists(reached, pids, sign);
  }

  lemma Persists(reached: State -> bool, pids: set<Pid>, sign: Scene) returns (c: Scene)
    requires Closed(reached, pids) && sign.p in pids && reached(sign.State())
    requires sign.task == Worker(ID, Sign(CLAIMED)) && sign.d.table == map[ID := CLAIMED]
    ensures reached(c.State())
    ensures c == sign.(d := Disk(map[ID := PREPARED], sign.d.late), task := Worker(ID, Recheck(TX)), log := c.log)
  {
    c := Act(reached, pids, sign, YES);
    assert c == sign.(task := Worker(ID, Persist(TX)), log := c.log);
    c := Act(reached, pids, c, YES);
    assert c.d.table == map[ID := PREPARED];
  }

  /** marked submitted, */
  lemma Submits(reached: State -> bool, pids: set<Pid>, before: Scene) returns (c: Scene)
    requires Closed(reached, pids) && before.p in pids && reached(before.State())
    requires before.gate && before.task == Worker(ID, Recheck(TX)) && before.d.table == map[ID := PREPARED]
    ensures reached(c.State())
    ensures c == before.(d := Disk(map[ID := SUBMITTED], before.d.late), task := Worker(ID, SendGate(TX)), log := c.log)
  {
    c := Act(reached, pids, before, YES);
    assert c == before.(task := Worker(ID, SubmitGate(TX)), log := c.log);
    c := Act(reached, pids, c, YES);
    assert c == before.(task := Worker(ID, Submit(TX)), log := c.log);
    c := Act(reached, pids, c, YES);
    assert c.d.table == map[ID := SUBMITTED];
  }

  /** and broadcast. */
  lemma Broadcasts(reached: State -> bool, pids: set<Pid>, before: Scene) returns (c: Scene)
    requires Closed(reached, pids) && before.p in pids && reached(before.State())
    requires before.gate && before.task == Worker(ID, Recheck(TX)) && before.d.table == map[ID := PREPARED]
    ensures reached(c.State()) && c.others == before.others && c.p == before.p
    ensures c.d == Disk(map[ID := SUBMITTED], before.d.late)
    ensures |c.log| > 0 && c.log[|c.log| - 1] == Broadcast(c.t, ID, TX, c.d.table, SendPending)
  {
    c := Submits(reached, pids, before);
    c := Act(reached, pids, c, YES);
    assert c.task == Worker(ID, Send(TX));
    c := Act(reached, pids, c, YES);
  }

  /** A first process boots over the empty journal and opens its gate. */
  lemma FirstReady(reached: State -> bool, pids: set<Pid>) returns (c: Scene)
    requires Closed(reached, pids) && 0 in pids && reached(EMPTY)
    ensures reached(c.State())
    ensures c == Scene(Disk(NOTHING, multiset{}), map[], 0, true, 0, Reconciler(Quit), 1, c.log)
  {
    var d := Disk(NOTHING, multiset{});
    Boots(reached, pids, d, map[], 0, 0, []);
    c := EnterPass(reached, pids, d, map[], 0, false, 0, []);
    c := OpensOverNothing(reached, pids, c);
  }

  /** It then claims the settlement, and its worker takes the lock. */
  lemma FirstClaims(reached: State -> bool, pids: set<Pid>) returns (c: Scene)
    requires Closed(reached, pids) && 0 in pids && reached(EMPTY)
    ensures reached(c.State())
    ensures c == Scene(Disk(map[ID := CLAIMED], multiset{}), map[], 0, true, 1, Worker(ID, FirstGate), 2, c.log)
  {
    c := FirstReady(reached, pids);
    c := Serve(reached, pids, c, Claim(ID, ANCHOR, "near", 0));
    assert c.d.table == map[ID := CLAIMED];
  }

  /** The same worker at its reload, and about to sign. */
  lemma Opening(reached: State -> bool, pids: set<Pid>) returns (reload: Scene, sign: Scene)
    requires Closed(reached, pids) && 0 in pids && reached(EMPTY)
    ensures reached(reload.State()) && reached(sign.State())
    ensures reload == Scene(Disk(map[ID := CLAIMED], multiset{}), map[], 0, true, 1, Worker(ID, Reload), 2, reload.log)
    ensures sign == reload.(task := Worker(ID, Sign(CLAIMED)), log := sign.log)
  {
    var c := FirstClaims(reached, pids);
    reload, sign := ReachesSign(reached, pids, c);
  }

  /** Once a worker has left, a pass releases its reservation and opens the gate. */
  lemma ReleasesAfter(reached: State -> bool, pids: set<Pid>, c: Scene) returns (r: Scene)
    requires Closed(reached, pids) && c.p in pids && reached(c.State())
    requires c.task == Worker(ID, Leave) && c.d.table == map[ID := CLAIMED]
    ensures reached(r.State()) && r.d == Disk(map[ID := DORMANT], c.d.late)
    ensures r.others == c.others && r.p == c.p && r.gate && r.task == Reconciler(Quit)
  {
    Retires(reached, pids, c);
    r := EnterPass(reached, pids, c.d, c.others, c.p, c.gate, c.n, c.log);
    r := ReleasesAndOpens(reached, pids, r);
  }
}
