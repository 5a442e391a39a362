/**
 The daily sponsorship ledgers: what the facilitator has promised to spend on unfinished
 settlements and what it spent on finished ones, per day and per day and client. Each
 operation is one database transaction, so a refused reservation leaves nothing behind.
 */
module Sponsorship {
  import opened Base
  import opened Journal

  type Day = nat
  type Client = nat

  datatype Entry = Entry(state: RowState, client: Client, day: Day, reserved: nat, actual: nat)

  datatype Account = Account(reserved: nat, spent: nat)

  type Ledger<!K> = map<K, Account>

  datatype Books = Books(rows: map<Id, Entry>, daily: Ledger<Day>, byClient: Ledger<(Day, Client)>)

  /** Reserve under a key, opening its account if need be, unless the limit would be passed. */
  function Reserve<K>(m: Ledger<K>, k: K, amount: nat, limit: nat): (r: Option<Ledger<K>>) {
    if k !in m then
      if amount <= limit then Some(m[k := Account(amount, 0)]) else None
    else if m[k].reserved + m[k].spent + amount <= limit then
      Some(m[k := m[k].(reserved := m[k].reserved + amount)])
    else None
  }

  /** Turn a reservation into the cost actually paid; a missing or too small account is corruption. */
  function Release<K>(m: Ledger<K>, k: K, reserved: nat, actual: nat): (r: Option<Ledger<K>>) {
    if k in m && m[k].reserved >= reserved then
      Some(m[k := Account(m[k].reserved - reserved, m[k].spent + actual)])
    else None
  }

  datatype Limits = Limits(daily: nat, client: nat)

  datatype Op =
    | Claim(id: Id, client: Client, day: Day, amount: nat, limits: Limits)
    | Resume(id: Id, day: Day, amount: nat, limits: Limits)
    | Relinquish(id: Id)
    | Advance(id: Id, state: RowState)
    | Finish(id: Id, state: RowState, actual: nat)

  datatype Outcome = Done | Refused | BudgetExceeded | Corrupt

  function Admit(b: Books, id: Id, e: Entry, limits: Limits): (r: (Books, Outcome)) {
    var daily := Reserve(b.daily, e.day, e.reserved, limits.daily);
    var byClient := Reserve(b.byClient, (e.day, e.client), e.reserved, limits.client);
    if daily.Some? && byClient.Some? then (Books(b.rows[id := e], daily.value, byClient.value), Done)
    else (b, BudgetExceeded)
  }

  function Settle(b: Books, id: Id, e: Entry, actual: nat): (r: (Books, Outcome))
    requires id in b.rows
  {
    var was := b.rows[id];
    var daily := Release(b.daily, was.day, was.reserved, actual);
    var byClient := Release(b.byClient, (was.day, was.client), was.reserved, actual);
    if daily.Some? && byClient.Some? then (Books(b.rows[id := e], daily.value, byClient.value), Done)
    else (b, Corrupt)
  }

  function Post(b: Books, op: Op): (r: (Books, Outcome)) {
    match op
    case Claim(id, client, day, amount, limits) =>
      if id in b.rows then (b, Refused)
      else Admit(b, id, Entry(Reserved, client, day, amount, 0), limits)
    case Resume(id, day, amount, limits) =>
      if id !in b.rows || !b.rows[id].state.AwaitingRetry? then (b, Refused)
      else Admit(b, id, b.rows[id].(state := Reserved, day := day, reserved := amount), limits)
    case Relinquish(id) =>
      if id !in b.rows || !b.rows[id].state.Reserved? then (b, Refused)
      else Settle(b, id, b.rows[id].(state := AwaitingRetry, reserved := 0), 0)
    case Advance(id, state) =>
      if id in b.rows && ((b.rows[id].state.Reserved? && state.Prepared?)
                          || (b.rows[id].state.Prepared? && state.Submitted?)) then
        (b.(rows := b.rows[id := b.rows[id].(state := state)]), Done)
      else (b, Refused)
    case Finish(id, state, actual) =>
      if id !in b.rows || !TerminalAllowed(b.rows[id].state, state) then (b, Refused)
      else Settle(b, id, b.rows[id].(state := state, actual := actual), actual)
  }

  /** The three things a row can contribute to an account. */
  datatype Quantity = Held | Paid | Excess

  function Weight<K(==)>(q: Quantity, key: Entry -> K, k: K, e: Entry): (n: nat) {
    if key(e) != k then 0
    else
      match q
      case Held => if Active(e.state) then e.reserved else 0
      case Paid => if Terminal(e.state) then e.actual else 0
      case Excess => if Terminal(e.state) && e.actual > e.reserved then e.actual - e.reserved else 0
  }

  ghost function Total<K>(q: Quantity, key: Entry -> K, k: K, rows: map<Id, Entry>): (n: nat) {
    if rows == map[] then 0
    else
      var id :| id in rows;
      Weight(q, key, k, rows[id]) + Total(q, key, k, rows - {id})
  }

  lemma {:induction false} TotalSplit<K>(q: Quantity, key: Entry -> K, k: K, rows: map<Id, Entry>, id: Id)
    requires id in rows
    ensures Total(q, key, k, rows) == Weight(q, key, k, rows[id]) + Total(q, key, k, rows - {id})
    decreases |rows|
  {
    var j :| j in rows && Total(q, key, k, rows) == Weight(q, key, k, rows[j]) + Total(q, key, k, rows - {j});
    if j != id {
      var rj, ri := rows - {j}, rows - {id};
      assert rj.Keys == rows.Keys - {j} && ri.Keys == rows.Keys - {id};
      TotalSplit(q, key, k, rj, id);
      TotalSplit(q, key, k, ri, j);
      assert rj - {id} == ri - {j};
    }
  }

  /** Writing one row moves every total by that row's change. */
  lemma TotalUpdate<K>(q: Quantity, key: Entry -> K, k: K, rows: map<Id, Entry>, id: Id, e: Entry)
    ensures Total(q, key, k, rows[id := e]) ==
              Total(q, key, k, rows) - (if id in rows then Weight(q, key, k, rows[id]) else 0) + Weight(q, key, k, e)
  {
    TotalSplit(q, key, k, rows[id := e], id);
    assert rows[id := e] - {id} == rows - {id};
    if id in rows {
      TotalSplit(q, key, k, rows, id);
    } else {
      assert rows - {id} == rows;
    }
  }

  lemma {:induction false} TotalCoversMember<K>(q: Quantity, key: Entry -> K, k: K, rows: map<Id, Entry>, id: Id)
    requires id in rows
    ensures Total(q, key, k, rows) >= Weight(q, key, k, rows[id])
  {
    TotalSplit(q, key, k, rows, id);
  }

  lemma {:induction false} TotalZero<K>(q: Quantity, key: Entry -> K, k: K, rows: map<Id, Entry>)
    requires forall id | id in rows :: Weight(q, key, k, rows[id]) == 0
    ensures Total(q, key, k, rows) == 0
    decreases |rows|
  {
    if rows != map[] {
      var id :| id in rows && Total(q, key, k, rows) == Weight(q, key, k, rows[id]) + Total(q, key, k, rows - {id});
      assert (rows - {id}).Keys == rows.Keys - {id};
      TotalZero(q, key, k, rows - {id});
    }
  }

  /** An account holds exactly the open reservations and the paid costs of the rows under its key. */
  ghost predicate Balanced<K>(rows: map<Id, Entry>, key: Entry -> K, m: Ledger<K>, k: K) {
    k in m && m[k].reserved == Total(Held, key, k, rows) && m[k].spent == Total(Paid, key, k, rows)
  }

  ghost predicate Tracks<K(!new)>(rows: map<Id, Entry>, key: Entry -> K, m: Ledger<K>) {
    && (forall id | id in rows && !rows[id].state.AwaitingRetry? :: key(rows[id]) in m)
    && (forall k | k in m :: Balanced(rows, key, m, k))
  }

  /** Promised and paid money stays within the limit, up to what finished rows cost beyond their reservation. */
  ghost predicate Within<K(!new)>(rows: map<Id, Entry>, key: Entry -> K, m: Ledger<K>, limit: nat) {
    forall k | k in m :: m[k].reserved + m[k].spent <= limit + Total(Excess, key, k, rows)
  }

  /** A row that owes nothing becomes a reservation. */
  lemma ReserveTracks<K(!new)>(rows: map<Id, Entry>, key: Entry -> K, m: Ledger<K>, id: Id, e: Entry, limit: nat,
                               m': Ledger<K>)
    requires Tracks(rows, key, m) && Reserve(m, key(e), e.reserved, limit) == Some(m')
    requires e.state.Reserved? && (id in rows ==> rows[id].state.AwaitingRetry?)
    ensures Tracks(rows[id := e], key, m')
    ensures forall l: nat | limit <= l && Within(rows, key, m, l) :: Within(rows[id := e], key, m', l)
  {
    var k0 := key(e);
    if k0 !in m {
      TotalZero(Held, key, k0, rows);
      TotalZero(Paid, key, k0, rows);
    } else {
      assert Balanced(rows, key, m, k0);
    }
    forall k | k in m'
      ensures Balanced(rows[id := e], key, m', k) && Total(Excess, key, k, rows[id := e]) == Total(Excess, key, k, rows)
    {
      assert k == k0 || Balanced(rows, key, m, k);
      TotalUpdate(Held, key, k, rows, id, e);
      TotalUpdate(Paid, key, k, rows, id, e);
      TotalUpdate(Excess, key, k, rows, id, e);
    }
  }

  /** An open reservation can always be released, to nothing or to the cost it led to. */
  lemma ReleaseTracks<K(!new)>(rows: map<Id, Entry>, key: Entry -> K, m: Ledger<K>, id: Id, e: Entry, actual: nat)
    requires Tracks(rows, key, m) && id in rows && Active(rows[id].state) && key(e) == key(rows[id])
    requires || (e.state.AwaitingRetry? && actual == 0)
             || (Terminal(e.state) && e.actual == actual && e.reserved == rows[id].reserved)
    ensures var r := Release(m, key(rows[id]), rows[id].reserved, actual);
            && r.Some? && Tracks(rows[id := e], key, r.value)
            && (forall l: nat | Within(rows, key, m, l) :: Within(rows[id := e], key, r.value, l))
  {
    var k0 := key(rows[id]);
    assert Balanced(rows, key, m, k0);
    TotalCoversMember(Held, key, k0, rows, id);
    var m' := Release(m, k0, rows[id].reserved, actual).value;
    forall k | k in m'
      ensures Balanced(rows[id := e], key, m', k)
      ensures m'[k].reserved + m'[k].spent - Total(Excess, key, k, rows[id := e])
              <= m[k].reserved + m[k].spent - Total(Excess, key, k, rows)
    {
      assert Balanced(rows, key, m, k);
      TotalUpdate(Held, key, k, rows, id, e);
      TotalUpdate(Paid, key, k, rows, id, e);
      TotalUpdate(Excess, key, k, rows, id, e);
    }
  }

  /** Preparing or submitting changes no account. */
  lemma AdvanceTracks<K(!new)>(rows: map<Id, Entry>, key: Entry -> K, m: Ledger<K>, id: Id, e: Entry)
    requires Tracks(rows, key, m) && id in rows && Active(rows[id].state) && Active(e.state)
    requires key(e) == key(rows[id]) && e.reserved == rows[id].reserved
    ensures Tracks(rows[id := e], key, m)
    ensures forall l: nat | Within(rows, key, m, l) :: Within(rows[id := e], key, m, l)
  {
    forall k | k in m
      ensures Balanced(rows[id := e], key, m, k) && Total(Excess, key, k, rows[id := e]) == Total(Excess, key, k, rows)
    {
      assert Balanced(rows, key, m, k);
      TotalUpdate(Held, key, k, rows, id, e);
      TotalUpdate(Paid, key, k, rows, id, e);
      TotalUpdate(Excess, key, k, rows, id, e);
    }
  }

  function DayOf(e: Entry): (d: Day) {
    e.day
  }

  function DayAndClientOf(e: Entry): (k: (Day, Client)) {
    (e.day, e.client)
  }

  ghost predicate BooksOk(b: Books) {
    Tracks(b.rows, DayOf, b.daily) && Tracks(b.rows, DayAndClientOf, b.byClient)
  }

  predicate LimitsUpTo(op: Op, limits: Limits) {
    op.Claim? || op.Resume? ==> op.limits.daily <= limits.daily && op.limits.client <= limits.client
  }

  ghost predicate WithinLimits(b: Books, limits: Limits) {
    Within(b.rows, DayOf, b.daily, limits.daily) && Within(b.rows, DayAndClientOf, b.byClient, limits.client)
  }

  lemma PostPreserves(b: Books, op: Op, limits: Limits)
    requires BooksOk(b)
    ensures BooksOk(Post(b, op).0) && !Post(b, op).1.Corrupt?
    ensures WithinLimits(b, limits) && LimitsUpTo(op, limits) ==> WithinLimits(Post(b, op).0, limits)
  {
    var (b', outcome) := Post(b, op);
    if b' != b || outcome.Corrupt? {
      if op.Claim? || op.Resume? {
        ReserveTracks(b.rows, DayOf, b.daily, op.id, b'.rows[op.id], op.limits.daily, b'.daily);
        ReserveTracks(b.rows, DayAndClientOf, b.byClient, op.id, b'.rows[op.id], op.limits.client, b'.byClient);
      } else if op.Advance? {
        AdvanceTracks(b.rows, DayOf, b.daily, op.id, b'.rows[op.id]);
        AdvanceTracks(b.rows, DayAndClientOf, b.byClient, op.id, b'.rows[op.id]);
      } else {
        var was := b.rows[op.id];
        var e := if op.Relinquish? then was.(state := AwaitingRetry, reserved := 0)
            else was.(state := op.state, actual := op.actual);
        var actual := if op.Relinquish? then 0 else op.actual;
        ReleaseTracks(b.rows, DayOf, b.daily, op.id, e, actual);
        ReleaseTracks(b.rows, DayAndClientOf, b.byClient, op.id, e, actual);
      }
    }
  }

  /** What an account holds; one that was never opened holds nothing. */
  function AccountOf<K>(m: Ledger<K>, k: K): (a: Account) {
    if k in m then m[k] else Account(0, 0)
  }

  predicate Fits<K>(m: Ledger<K>, k: K, amount: nat, limit: nat) {
    AccountOf(m, k).reserved + AccountOf(m, k).spent + amount <= limit
  }

  /** The account under `k` changes to `a`, and no other does. */
  ghost predicate Only<K(!new)>(m: Ledger<K>, m': Ledger<K>, k: K, a: Account) {
    AccountOf(m', k) == a && forall j | j != k :: (j in m' <==> j in m) && AccountOf(m', j) == AccountOf(m, j)
  }

  /** The row under `id` changes to `e`, and no other does. */
  predicate OnlyRow(b: Books, b': Books, id: Id, e: Entry) {
    b'.rows == b.rows[id := e]
  }

  predicate MayReserve(b: Books, op: Op)
    requires op.Claim? || op.Resume?
  {
    if op.Claim? then op.id !in b.rows else op.id in b.rows && b.rows[op.id].state.AwaitingRetry?
  }

  function ClientOf(b: Books, op: Op): (c: Client)
    requires (op.Claim? || op.Resume?) && MayReserve(b, op)
  {
    if op.Claim? then op.client else b.rows[op.id].client
  }

  /**
   A claim or resumption goes through exactly when the row admits it and its amount fits both limits; it then reserves
   exactly that amount, in exactly the day's and the client's accounts, and records it in the row. Otherwise nothing
   changes.
   */
  lemma ReservesExactly(b: Books, op: Op)
    requires op.Claim? || op.Resume?
    ensures var (b', outcome) := Post(b, op);
            && (outcome.Done? <==>
                  && MayReserve(b, op)
                  && Fits(b.daily, op.day, op.amount, op.limits.daily)
                  && Fits(b.byClient, (op.day, ClientOf(b, op)), op.amount, op.limits.client))
            && (outcome.Refused? <==> !MayReserve(b, op))
            && (!outcome.Done? ==> b' == b)
            && (outcome.Done? ==>
                  var client := ClientOf(b, op);
                  var all, own := AccountOf(b.daily, op.day), AccountOf(b.byClient, (op.day, client));
                  && Only(b.daily, b'.daily, op.day, Account(all.reserved + op.amount, all.spent))
                  && Only(b.byClient, b'.byClient, (op.day, client), Account(own.reserved + op.amount, own.spent))
                  && op.id in b'.rows && OnlyRow(b, b', op.id, b'.rows[op.id])
                  && b'.rows[op.id].state.Reserved? && b'.rows[op.id].reserved == op.amount
                  && b'.rows[op.id].day == op.day && b'.rows[op.id].client == client)
  {
  }

  predicate MaySettle(b: Books, op: Op)
    requires op.Relinquish? || op.Finish?
  {
    && op.id in b.rows
    && if op.Relinquish? then b.rows[op.id].state.Reserved? else TerminalAllowed(b.rows[op.id].state, op.state)
  }

  /** A release or outcome takes exactly the row's reservation off its accounts, and adds exactly what was paid. */
  lemma SettlesExactly(b: Books, op: Op)
    requires BooksOk(b) && (op.Relinquish? || op.Finish?)
    ensures var (b', outcome) := Post(b, op);
            && (outcome.Done? <==> MaySettle(b, op))
            && (!outcome.Done? ==> outcome.Refused? && b' == b)
            && (outcome.Done? ==>
                  var was, paid := b.rows[op.id], if op.Finish? then op.actual else 0;
                  var all, own := AccountOf(b.daily, was.day), AccountOf(b.byClient, (was.day, was.client));
                  && all.reserved >= was.reserved && own.reserved >= was.reserved
                  && Only(b.daily, b'.daily, was.day, Account(all.reserved - was.reserved, all.spent + paid))
                  && Only(b.byClient, b'.byClient, (was.day, was.client),
                          Account(own.reserved - was.reserved, own.spent + paid))
                  && op.id in b'.rows && OnlyRow(b, b', op.id, b'.rows[op.id])
                  && b'.rows[op.id].client == was.client && b'.rows[op.id].day == was.day
                  && (if op.Finish? then
                        b'.rows[op.id].state == op.state && b'.rows[op.id].actual == paid
                        && b'.rows[op.id].reserved == was.reserved
                      else b'.rows[op.id].state.AwaitingRetry? && b'.rows[op.id].reserved == 0))
  {
    PostPreserves(b, op, Limits(0, 0));
  }

  function PostAll(ops: seq<Op>): (b: Books) {
    if ops == [] then Books(map[], map[], map[]) else Post(PostAll(ops[..|ops| - 1]), ops[|ops| - 1]).0
  }

  lemma {:induction false} EveryRun(ops: seq<Op>, limits: Limits)
    ensures BooksOk(PostAll(ops))
    ensures (forall i | 0 <= i < |ops| :: LimitsUpTo(ops[i], limits)) ==> WithinLimits(PostAll(ops), limits)
  {
    if ops != [] {
      EveryRun(ops[..|ops| - 1], limits);
      PostPreserves(PostAll(ops[..|ops| - 1]), ops[|ops| - 1], limits);
    }
  }

  /** After any run each day's account equals its open reservations plus what its finished settlements cost. */
  lemma LedgersBalance(ops: seq<Op>, day: Day, client: Client)
    requires day in PostAll(ops).daily && (day, client) in PostAll(ops).byClient
    ensures var b := PostAll(ops);
            && b.daily[day] == Account(Total(Held, DayOf, day, b.rows), Total(Paid, DayOf, day, b.rows))
            && b.byClient[(day, client)] ==
                 Account(Total(Held, DayAndClientOf, (day, client), b.rows),
                         Total(Paid, DayAndClientOf, (day, client), b.rows))
  {
    EveryRun(ops, Limits(0, 0));
    var b := PostAll(ops);
    assert Balanced(b.rows, DayOf, b.daily, day) && Balanced(b.rows, DayAndClientOf, b.byClient, (day, client));
  }

  /** No run makes the release of a reservation fail, so no settlement is stuck unfinished by its ledger. */
  lemma ReleaseNeverFails(ops: seq<Op>, op: Op)
    ensures !Post(PostAll(ops), op).1.Corrupt?
  {
    EveryRun(ops, Limits(0, 0));
    PostPreserves(PostAll(ops), op, Limits(0, 0));
  }

  /**
   Under fixed limits a day's promised and paid money passes the limit by no more than what its finished
   settlements cost beyond their reservations; if none did, it never passes the limit.
   */
  lemma BudgetHolds(ops: seq<Op>, limits: Limits, day: Day, client: Client)
    requires forall i | 0 <= i < |ops| :: LimitsUpTo(ops[i], limits)
    requires day in PostAll(ops).daily && (day, client) in PostAll(ops).byClient
    ensures var b := PostAll(ops);
            var all, own := b.daily[day], b.byClient[(day, client)];
            && all.reserved + all.spent <= limits.daily + Total(Excess, DayOf, day, b.rows)
            && own.reserved + own.spent <= limits.client + Total(Excess, DayAndClientOf, (day, client), b.rows)
            && ((forall id | id in b.rows && Terminal(b.rows[id].state) :: b.rows[id].actual <= b.rows[id].reserved) ==>
                  all.reserved + all.spent <= limits.daily && own.reserved + own.spent <= limits.client)
  {
    EveryRun(ops, limits);
    var b := PostAll(ops);
    if forall id | id in b.rows && Terminal(b.rows[id].state) :: b.rows[id].actual <= b.rows[id].reserved {
      TotalZero(Excess, DayOf, day, b.rows);
      TotalZero(Excess, DayAndClientOf, (day, client), b.rows);
    }
  }
}
