/** Journal and ledgers change in one database transaction, so the ledgers' sums are sums over the journal. */
module LedgerJournal {
  import J = Journal
  import S = Sponsorship

  /** The ledger operation that belongs to a journal call. */
  predicate Matches(c: J.Call, op: S.Op) {
    && c.id == op.id
    && match c
       case Claim(_, _, _, _) => op.Claim?
       case Resume(_) => op.Resume?
       case MarkAwaitingRetry(_) => op.Relinquish?
       case MarkPrepared(_, _) => op.Advance? && op.state.Prepared?
       case MarkSubmitted(_) => op.Advance? && op.state.Submitted?
       case MarkTerminal(_, to, _) => op.Finish? && op.state == to
       case MarkRefused(_, _) => op.Finish? && op.state.Failed? && op.actual == 0
  }

  /** Both parts commit together or not at all; a repeated terminal write changes neither. */
  function Transact(chain: J.ChainKind, t: J.Table, b: S.Books, c: J.Call, op: S.Op): (r: (J.Table, S.Books, bool)) {
    var (u, ok) := J.Apply(chain, t, c);
    if !ok || u == t then (t, b, ok)
    else
      var (b', outcome) := S.Post(b, op);
      if outcome.Done? then (u, b', true) else (t, b, false)
  }

  /** The ledgers know every row, in the state the journal has it in. */
  predicate Agree(t: J.Table, b: S.Books) {
    t.Keys == b.rows.Keys && forall k | k in t :: b.rows[k].state == t[k].state
  }

  /** The ledger side never refuses what the journal accepts, except a claim or resumption beyond the budget. */
  lemma OnlyBudgetStops(chain: J.ChainKind, t: J.Table, b: S.Books, c: J.Call, op: S.Op)
    requires Agree(t, b) && S.BooksOk(b) && Matches(c, op)
    requires J.Apply(chain, t, c).1 && J.Apply(chain, t, c).0 != t
    ensures var outcome := S.Post(b, op).1;
            outcome.Done? || (outcome.BudgetExceeded? && (c.Claim? || c.Resume?))
    ensures S.Post(b, op).1.Done? ==> Agree(J.Apply(chain, t, c).0, S.Post(b, op).0)
  {
    S.PostPreserves(b, op, S.Limits(0, 0));
  }

  lemma TransactAgrees(chain: J.ChainKind, t: J.Table, b: S.Books, c: J.Call, op: S.Op)
    requires Agree(t, b) && S.BooksOk(b) && Matches(c, op)
    ensures var (u, b', _) := Transact(chain, t, b, c, op); Agree(u, b') && S.BooksOk(b')
  {
    if J.Apply(chain, t, c).1 && J.Apply(chain, t, c).0 != t {
      OnlyBudgetStops(chain, t, b, c, op);
      S.PostPreserves(b, op, S.Limits(0, 0));
    }
  }

  datatype Transaction = Transaction(call: J.Call, op: S.Op)

  function TransactAll(chain: J.ChainKind, txs: seq<Transaction>): (r: (J.Table, S.Books)) {
    if txs == [] then (map[], S.Books(map[], map[], map[]))
    else
      var (t, b) := TransactAll(chain, txs[..|txs| - 1]);
      var (u, b', _) := Transact(chain, t, b, txs[|txs| - 1].call, txs[|txs| - 1].op);
      (u, b')
  }

  predicate AllMatch(txs: seq<Transaction>) {
    forall i | 0 <= i < |txs| :: Matches(txs[i].call, txs[i].op)
  }

  lemma {:induction false} AlwaysAgree(chain: J.ChainKind, txs: seq<Transaction>)
    requires AllMatch(txs)
    ensures var (t, b) := TransactAll(chain, txs); Agree(t, b) && S.BooksOk(b)
  {
    if txs == [] {
      S.EveryRun([], S.Limits(0, 0));
    } else {
      AlwaysAgree(chain, txs[..|txs| - 1]);
      var (t, b) := TransactAll(chain, txs[..|txs| - 1]);
      TransactAgrees(chain, t, b, txs[|txs| - 1].call, txs[|txs| - 1].op);
    }
  }

  /**
   After any sequence of transactions each day's account, whole and per client, equals the reservations of rows that
   the journal has active and the cost of those that it has finished.
   */
  lemma JournalLedgersBalance(chain: J.ChainKind, txs: seq<Transaction>, day: S.Day, client: S.Client)
    requires AllMatch(txs)
    requires var b := TransactAll(chain, txs).1; day in b.daily && (day, client) in b.byClient
    ensures var (t, b) := TransactAll(chain, txs);
            && Agree(t, b)
            && b.daily[day] == S.Account(S.Total(S.Held, S.DayOf, day, b.rows), S.Total(S.Paid, S.DayOf, day, b.rows))
            && b.byClient[(day, client)] ==
                 S.Account(S.Total(S.Held, S.DayAndClientOf, (day, client), b.rows),
                           S.Total(S.Paid, S.DayAndClientOf, (day, client), b.rows))
  {
    AlwaysAgree(chain, txs);
    var b := TransactAll(chain, txs).1;
    assert S.Balanced(b.rows, S.DayOf, b.daily, day);
    assert S.Balanced(b.rows, S.DayAndClientOf, b.byClient, (day, client));
  }
}
