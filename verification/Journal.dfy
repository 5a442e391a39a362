/**
 The durable settlement journal: one row per settlement, changed only by the
 guarded SQL transactions of the store. Each transaction is a total function on
 the whole table, so that a refused transition is visible as "no change, false".
 */
module Journal {
  import opened Base

  type Id = nat

  datatype RowState = Reserved | AwaitingRetry | Prepared | Submitted | Succeeded | Failed

  predicate Terminal(s: RowState) {
    s.Succeeded? || s.Failed?
  }

  /** Bytes are journaled but the outcome is not: the transaction may be anywhere. */
  predicate InFlight(s: RowState) {
    s.Prepared? || s.Submitted?
  }

  /** The states a recovery scan loads, and the ones that own an EVM signer slot. */
  predicate Active(s: RowState) {
    s.Reserved? || InFlight(s)
  }

  /** The exact signed transaction kept for recovery, with the nonce it burns; `signer` is network, account and key. */
  datatype Submission = Submission(signer: string, nonce: nat, bytes: Bytes, hash: string)

  /** The chain-enforced single-use identity a payment is claimed under. */
  datatype Anchor = Anchor(scope: string, value: Bytes)

  /**
   `slot` is the network and signer a row was claimed for, `submitted` is whether `submitted_at` was ever set, and
   `refused` is whether its worker's refusal, rather than an observation of the chain, wrote the outcome.
   */
  datatype Row = Row(
    state: RowState,
    anchor: Anchor,
    slot: string,
    created: nat,
    submission: Option<Submission>,
    submitted: bool,
    response: Option<string>,
    refused: bool)

  type Table = map<Id, Row>

  datatype ChainKind = Near | Eip155

  datatype Call =
    | Claim(id: Id, anchor: Anchor, slot: string, created: nat)
    | Resume(id: Id)
    | MarkAwaitingRetry(id: Id)
    | MarkPrepared(id: Id, submission: Submission)
    | MarkSubmitted(id: Id)
    | MarkTerminal(id: Id, state: RowState, response: string)
    | MarkRefused(id: Id, response: string)

  /** Unique index over every row that ever journaled a signer nonce, finished rows included. */
  predicate NonceFree(t: Table, id: Id, s: Submission) {
    forall k | k in t && k != id && t[k].submission.Some? ::
      t[k].submission.value.signer != s.signer || t[k].submission.value.nonce != s.nonce
  }

  predicate AnchorFree(t: Table, a: Anchor) {
    forall k | k in t :: t[k].anchor != a
  }

  /** Partial unique index: on EVM one active row owns a network's signer. */
  predicate SlotFree(chain: ChainKind, t: Table, id: Id, slot: string) {
    chain.Eip155? ==> forall k | k in t && k != id && t[k].slot == slot :: !Active(t[k].state)
  }

  predicate TerminalAllowed(from: RowState, to: RowState) {
    || (from.Reserved? && to.Failed?)
    || (InFlight(from) && Terminal(to))
  }

  /** A terminal write, idempotent for the exact same response. */
  function Terminate(t: Table, id: Id, to: RowState, response: string, refused: bool): (r: (Table, bool)) {
    if id !in t then (t, false)
    else if Terminal(t[id].state) then (t, t[id].response == Some(response))
    else if TerminalAllowed(t[id].state, to) then
      (t[id := t[id].(state := to, response := Some(response), refused := refused)], true)
    else (t, false)
  }

  /** One store transaction: the table it leaves and whether it reports success. */
  function Apply(chain: ChainKind, t: Table, c: Call): (r: (Table, bool)) {
    match c
    case Claim(id, anchor, slot, created) =>
      if id !in t && AnchorFree(t, anchor) && SlotFree(chain, t, id, slot) then
        (t[id := Row(Reserved, anchor, slot, created, None, false, None, false)], true)
      else (t, false)
    case Resume(id) =>
      if id in t && t[id].state.AwaitingRetry? && SlotFree(chain, t, id, t[id].slot) then
        (t[id := t[id].(state := Reserved)], true)
      else (t, false)
    case MarkAwaitingRetry(id) =>
      if id in t && t[id].state.Reserved? then
        (t[id := t[id].(state := AwaitingRetry)], true)
      else (t, false)
    case MarkPrepared(id, s) =>
      if id in t && t[id].state.Reserved? && NonceFree(t, id, s) then
        (t[id := t[id].(state := Prepared, submission := Some(s))], true)
      else (t, false)
    case MarkSubmitted(id) =>
      if id in t && t[id].state.Prepared? then
        (t[id := t[id].(state := Submitted, submitted := true)], true)
      else (t, false)
    case MarkTerminal(id, to, response) => if Terminal(to) then Terminate(t, id, to, response, false) else (t, false)
    case MarkRefused(id, response) => Terminate(t, id, Failed, response, true)
  }

  /** The edges of the state diagram. */
  predicate Edge(from: RowState, to: RowState) {
    || (from.Reserved? && (to.AwaitingRetry? || to.Prepared? || to.Failed?))
    || (from.AwaitingRetry? && to.Reserved?)
    || (from.Prepared? && (to.Submitted? || to.Succeeded? || to.Failed?))
    || (from.Submitted? && (to.Succeeded? || to.Failed?))
  }

  /** A transaction changes at most its own row, along an edge; a row appears only as a reservation. */
  lemma ChangesFollowEdges(chain: ChainKind, t: Table, c: Call)
    ensures var u := Apply(chain, t, c).0;
            && (forall k | k in t && k != c.id :: k in u && u[k] == t[k])
            && (forall k | k in u && k !in t :: k == c.id && u[k].state.Reserved?)
            && (c.id in t ==> c.id in u && (u[c.id] == t[c.id] || Edge(t[c.id].state, u[c.id].state)))
  {
  }

  /** The call that takes a row to this state. */
  predicate Takes(c: Call, to: RowState) {
    match c
    case Claim(_, _, _, _) => false
    case Resume(_) => to.Reserved?
    case MarkAwaitingRetry(_) => to.AwaitingRetry?
    case MarkPrepared(_, _) => to.Prepared?
    case MarkSubmitted(_) => to.Submitted?
    case MarkTerminal(_, state, _) => Terminal(state) && to == state
    case MarkRefused(_, _) => to.Failed?
  }

  /** Every edge is taken by its call, unless an index forbids the signer slot or the nonce. */
  lemma EdgesAreTaken(chain: ChainKind, t: Table, c: Call, to: RowState)
    requires c.id in t && Edge(t[c.id].state, to) && Takes(c, to)
    requires c.Resume? ==> SlotFree(chain, t, c.id, t[c.id].slot)
    requires c.MarkPrepared? ==> NonceFree(t, c.id, c.submission)
    ensures var (u, ok) := Apply(chain, t, c);
            && ok && c.id in u && u[c.id].state == to
            && (c.MarkPrepared? ==> u[c.id].submission == Some(c.submission))
            && (c.MarkTerminal? || c.MarkRefused? ==> u[c.id].response == Some(c.response))
            && (u[c.id].refused <==> c.MarkRefused? || (t[c.id].refused && !c.MarkTerminal?))
            && (u[c.id].submitted <==> c.MarkSubmitted? || t[c.id].submitted)
  {
  }

  /** Once finished, a repeated terminal write is acknowledged exactly for the same response, and changes nothing. */
  lemma RepeatedOutcome(chain: ChainKind, t: Table, c: Call)
    requires c.id in t && Terminal(t[c.id].state) && (c.MarkRefused? || (c.MarkTerminal? && Terminal(c.state)))
    ensures Apply(chain, t, c) == (t, t[c.id].response == Some(c.response))
  {
  }

  /** Row shape kept by the table's CHECK constraints. */
  predicate RowOk(r: Row) {
    && (r.state.Reserved? || r.state.AwaitingRetry? ==> r.submission.None?)
    && (InFlight(r.state) || r.state.Succeeded? ==> r.submission.Some?)
    && (Terminal(r.state) <==> r.response.Some?)
    && (r.state.Submitted? ==> r.submitted)
    && (r.refused ==> r.state.Failed?)
    && (r.submitted ==> r.submission.Some? && (r.state.Submitted? || Terminal(r.state)))
  }

  predicate TableOk(chain: ChainKind, t: Table) {
    && (forall k | k in t :: RowOk(t[k]))
    && (forall a, b | a in t && b in t && a != b :: t[a].anchor != t[b].anchor)
    && (forall k | k in t && t[k].submission.Some? :: NonceFree(t, k, t[k].submission.value))
    && (chain.Eip155? ==>
          forall a, b | a in t && b in t && Active(t[a].state) && Active(t[b].state) && t[a].slot == t[b].slot ::
              a == b)
  }

  /** What later transactions may do to a row: bytes are written once, a finished row is frozen. */
  predicate RowEvolves(a: Row, b: Row) {
    && a.anchor == b.anchor
    && a.slot == b.slot
    && a.created == b.created
    && (a.submission.Some? ==> b.submission == a.submission)
    && (a.submitted ==> b.submitted)
    && (Terminal(a.state) ==> b == a)
    && (a.state.Submitted? ==> b.state.Submitted? || Terminal(b.state))
    && (a.state.Prepared? ==> InFlight(b.state) || Terminal(b.state))
  }

  predicate Evolves(t: Table, u: Table) {
    forall k | k in t :: k in u && RowEvolves(t[k], u[k])
  }

  lemma EvolvesTransitive(t: Table, u: Table, v: Table)
    requires Evolves(t, u) && Evolves(u, v)
    ensures Evolves(t, v)
  {
    forall k | k in t ensures k in v && RowEvolves(t[k], v[k]) {
      assert RowEvolves(t[k], u[k]) && RowEvolves(u[k], v[k]);
    }
  }

  /** Writing one row keeps every constraint when the new row respects those it could break. */
  lemma SetRow(chain: ChainKind, t: Table, id: Id, r: Row)
    requires TableOk(chain, t) && RowOk(r)
    requires id in t ==> RowEvolves(t[id], r)
    requires id !in t ==> AnchorFree(t, r.anchor)
    requires r.submission.Some? ==> NonceFree(t, id, r.submission.value)
    requires Active(r.state) && !(id in t && Active(t[id].state)) ==> SlotFree(chain, t, id, r.slot)
    ensures TableOk(chain, t[id := r]) && Evolves(t, t[id := r])
  {
    var u := t[id := r];
    forall k | k in u && u[k].submission.Some?
      ensures NonceFree(u, k, u[k].submission.value)
    {
      if k != id {
        assert NonceFree(t, k, t[k].submission.value);
      }
    }
    forall k | k in t ensures k in u && RowEvolves(t[k], u[k]) {}
  }

  /** Every transaction, wanted or not, keeps the constraints and only moves rows forward. */
  lemma ApplyKeepsTable(chain: ChainKind, t: Table, c: Call)
    requires TableOk(chain, t)
    ensures TableOk(chain, Apply(chain, t, c).0)
    ensures Evolves(t, Apply(chain, t, c).0)
    ensures !Apply(chain, t, c).1 ==> Apply(chain, t, c).0 == t
  {
    var (u, ok) := Apply(chain, t, c);
    if u != t {
      SetRow(chain, t, c.id, u[c.id]);
    }
  }
}
