/** The fixed-window request limiter, one window per API key and operation. */
module RateLimiter {
  import opened Base

  datatype Operation = Verify | Settle

  type Key = (string, Operation)

  /** Sixty seconds, in nanoseconds of the monotonic clock. */
  const WINDOW: int := 60_000_000_000

  datatype Window = Window(started: int, count: nat)

  /** The window a call meets: a new one, a restarted one, or the current one. */
  function Current(w: Option<Window>, now: int): (r: Window) {
    if w.None? || now - w.value.started >= WINDOW then Window(now, 0) else w.value
  }

  predicate Admits(w: Option<Window>, now: int, limit: nat) {
    Current(w, now).count < limit
  }

  function Next(w: Option<Window>, now: int, limit: nat): (r: Window) {
    var current := Current(w, now);
    if Admits(w, now, limit) then current.(count := current.count + 1) else current
  }

  function Lookup(windows: map<Key, Window>, k: Key): (w: Option<Window>) {
    if k in windows then Some(windows[k]) else None
  }

  class Limiter {
    var windows: map<Key, Window>

    constructor ()
      ensures windows == map[]
    {
      windows := map[];
    }

    method Check(k: Key, limit: nat, now: int) returns (admitted: bool)
      modifies this
      ensures admitted == Admits(old(Lookup(windows, k)), now, limit)
      ensures windows == old(windows)[k := Next(old(Lookup(windows, k)), now, limit)]
    {
      if k !in windows {
        windows := windows[k := Window(now, 0)];
      }
      if now - windows[k].started >= WINDOW {
        windows := windows[k := Window(now, 0)];
      }
      if windows[k].count >= limit {
        return false;
      }
      windows := windows[k := windows[k].(count := windows[k].count + 1)];
      return true;
    }
  }

  datatype Call = Call(k: Key, limit: nat, now: int)

  /** The limiter after a sequence of calls. */
  function After(calls: seq<Call>): (windows: map<Key, Window>) {
    if calls == [] then map[]
    else
      var before, c := After(calls[..|calls| - 1]), calls[|calls| - 1];
      before[c.k := Next(Lookup(before, c.k), c.now, c.limit)]
  }

  predicate LastAdmitted(calls: seq<Call>)
    requires calls != []
  {
    var c := calls[|calls| - 1];
    Admits(Lookup(After(calls[..|calls| - 1]), c.k), c.now, c.limit)
  }

  /** Admitted calls of one key in the half-open interval from `a` of one window's length. */
  function AdmittedIn(calls: seq<Call>, k: Key, a: int): (n: nat) {
    if calls == [] then 0
    else
      var c := calls[|calls| - 1];
      AdmittedIn(calls[..|calls| - 1], k, a) +
      if c.k == k && a <= c.now < a + WINDOW && LastAdmitted(calls) then 1 else 0
  }

  predicate InOrder(calls: seq<Call>) {
    forall i, j | 0 <= i < j < |calls| :: calls[i].now <= calls[j].now
  }

  /** Every call of this key uses the same limit. */
  predicate Fixed(calls: seq<Call>, k: Key, limit: nat) {
    forall i | 0 <= i < |calls| && calls[i].k == k :: calls[i].limit == limit
  }

  /** How many calls of the interval a limiter in this state can have admitted. */
  function Bound(w: Option<Window>, a: int, limit: nat): (n: int)
  {
    if w.None? then 0
    else if w.value.started < a then w.value.count - 1
    else if w.value.started < a + WINDOW then limit - 1 + w.value.count
    else 2 * limit - 1
  }

  predicate WindowOk(w: Option<Window>, calls: seq<Call>, limit: nat) {
    w.Some? ==> calls != [] && w.value.started <= calls[|calls| - 1].now && 1 <= w.value.count <= limit
  }

  lemma {:induction false} IntervalInvariant(calls: seq<Call>, k: Key, limit: nat, a: int)
    requires InOrder(calls) && Fixed(calls, k, limit) && limit > 0
    ensures var w := Lookup(After(calls), k);
            && WindowOk(w, calls, limit)
            && AdmittedIn(calls, k, a) <= Bound(w, a, limit)
            && (AdmittedIn(calls, k, a) > 0 ==> calls[|calls| - 1].now >= a)
  {
    if calls != [] {
      var init, c := calls[..|calls| - 1], calls[|calls| - 1];
      IntervalInvariant(init, k, limit, a);
      if init != [] {
        assert init[|init| - 1] == calls[|calls| - 2];
      }
      if c.k != k {
        assert Lookup(After(calls), k) == Lookup(After(init), k);
      } else {
        assert Lookup(After(calls), k) == Some(Next(Lookup(After(init), k), c.now, limit));
      }
    }
  }

  /** Over any sixty seconds a key with limit `limit` has at most `2 * limit - 1` calls admitted, whatever other keys
      do. */
  lemma SlidingWindowBound(calls: seq<Call>, k: Key, limit: nat, a: int)
    requires InOrder(calls) && Fixed(calls, k, limit)
    ensures AdmittedIn(calls, k, a) <= if limit == 0 then 0 else 2 * limit - 1
  {
    if limit == 0 {
      NothingAdmitted(calls, k, a);
    } else {
      IntervalInvariant(calls, k, limit, a);
    }
  }

  lemma {:induction false} NothingAdmitted(calls: seq<Call>, k: Key, a: int)
    requires Fixed(calls, k, 0)
    ensures AdmittedIn(calls, k, a) == 0
  {
    if calls != [] {
      NothingAdmitted(calls[..|calls| - 1], k, a);
    }
  }

  /** The calls of one key. */
  function Only(calls: seq<Call>, k: Key): (r: seq<Call>) {
    if calls == [] then []
    else
      var rest, c := Only(calls[..|calls| - 1], k), calls[|calls| - 1];
      if c.k == k then rest + [c] else rest
  }

  /** A key's window and the calls it has admitted depend on that key's calls alone. */
  lemma {:induction false} KeysAreIndependent(calls: seq<Call>, k: Key, a: int)
    ensures Lookup(After(calls), k) == Lookup(After(Only(calls, k)), k)
    ensures AdmittedIn(calls, k, a) == AdmittedIn(Only(calls, k), k, a)
  {
    if calls != [] {
      var init, c := calls[..|calls| - 1], calls[|calls| - 1];
      KeysAreIndependent(init, k, a);
      if c.k == k {
        assert Only(calls, k)[..|Only(calls, k)| - 1] == Only(init, k);
      }
    }
  }

  /** `n` more calls of one key at one instant. */
  function Burst(calls: seq<Call>, c: Call, n: nat): (r: seq<Call>) {
    if n == 0 then calls else Burst(calls, c, n - 1) + [c]
  }

  /** A history in order, with one limit per key, that may go on at `now`. */
  predicate GoesOn(calls: seq<Call>, k: Key, limit: nat, now: int) {
    InOrder(calls) && Fixed(calls, k, limit) && (calls != [] ==> calls[|calls| - 1].now <= now)
  }

  lemma CallGoesOn(calls: seq<Call>, c: Call)
    requires GoesOn(calls, c.k, c.limit, c.now)
    ensures GoesOn(calls + [c], c.k, c.limit, c.now)
  {
  }

  lemma {:induction false} BurstGoesOn(calls: seq<Call>, c: Call, n: nat)
    requires GoesOn(calls, c.k, c.limit, c.now)
    ensures GoesOn(Burst(calls, c, n), c.k, c.limit, c.now)
  {
    if n > 0 {
      BurstGoesOn(calls, c, n - 1);
      CallGoesOn(Burst(calls, c, n - 1), c);
    }
  }

  /** What one more call does to its key's window and to the admissions of an interval. */
  lemma OneMore(calls: seq<Call>, c: Call, a: int, w: Option<Window>)
    requires Lookup(After(calls), c.k) == w
    ensures Lookup(After(calls + [c]), c.k) == Some(Next(w, c.now, c.limit))
    ensures AdmittedIn(calls + [c], c.k, a) == Counted(w, AdmittedIn(calls, c.k, a), c.now, c.limit, a)
  {
    var all := calls + [c];
    assert all[..|all| - 1] == calls;
  }

  /** Admissions of the interval from `a` after one more call. */
  function Counted(w: Option<Window>, n: nat, now: int, limit: nat, a: int): (r: nat) {
    if a <= now < a + WINDOW && Admits(w, now, limit) then n + 1 else n
  }

  /** `tells(calls, w, n)` follows a key's window and its admissions in the interval from `a` call by call. */
  ghost predicate Follows(tells: (seq<Call>, Option<Window>, nat) -> bool, k: Key, limit: nat, a: int) {
    forall calls, w, n, now ::
      tells(calls, w, n) ==> tells(calls + [Call(k, limit, now)], Some(Next(w, now, limit)),
                                   Counted(w, n, now, limit, a))
  }

  /** Calls that fit in the current window are all admitted. */
  lemma {:induction false} BurstFits(tells: (seq<Call>, Option<Window>, nat) -> bool, calls: seq<Call>, c: Call, n: nat,
                                     a: int, w: Window, m: nat)
    requires Follows(tells, c.k, c.limit, a) && tells(calls, Some(w), m)
    requires c.now - w.started < WINDOW && w.count + n <= c.limit && a <= c.now < a + WINDOW
    ensures tells(Burst(calls, c, n), Some(w.(count := w.count + n)), m + n)
  {
    if n > 0 {
      BurstFits(tells, calls, c, n - 1, a, w, m);
      var before := w.(count := w.count + n - 1);
      assert tells(Burst(calls, c, n - 1) + [Call(c.k, c.limit, c.now)], Some(Next(Some(before), c.now, c.limit)),
                   Counted(Some(before), m + n - 1, c.now, c.limit, a));
    }
  }

  /** One call opens a window, `limit - 1` fill it at its last instant, `limit` more fill the next one. */
  lemma TwoFullWindows(tells: (seq<Call>, Option<Window>, nat) -> bool, k: Key, limit: nat) returns (calls: seq<Call>)
    requires limit > 0 && tells([], None, 0) && Follows(tells, k, limit, WINDOW - 1)
    ensures GoesOn(calls, k, limit, WINDOW) && tells(calls, Some(Window(WINDOW, limit)), 2 * limit - 1)
  {
    var a := WINDOW - 1;
    var first, late, next := Call(k, limit, 0), Call(k, limit, a), Call(k, limit, WINDOW);
    assert tells([] + [first], Some(Next(None, 0, limit)), Counted(None, 0, 0, limit, a));
    assert [] + [first] == [first];
    BurstGoesOn([first], late, limit - 1);
    BurstFits(tells, [first], late, limit - 1, a, Window(0, 1), 0);
    var full := Burst([first], late, limit - 1);
    CallGoesOn(full, next);
    assert tells(full + [next], Some(Next(Some(Window(0, limit)), WINDOW, limit)),
                 Counted(Some(Window(0, limit)), limit - 1, WINDOW, limit, a));
    BurstGoesOn(full + [next], next, limit - 1);
    BurstFits(tells, full + [next], next, limit - 1, a, Window(WINDOW, 1), limit);
    calls := Burst(full + [next], next, limit - 1);
  }

  ghost predicate Tells(k: Key, a: int, calls: seq<Call>, w: Option<Window>, n: nat) {
    Lookup(After(calls), k) == w && AdmittedIn(calls, k, a) == n
  }

  /** The bound is reached for every limit: a full window's end and the next one's start fall within sixty seconds. */
  lemma BoundIsReached(k: Key, limit: nat) returns (calls: seq<Call>)
    requires limit > 0
    ensures InOrder(calls) && Fixed(calls, k, limit) && AdmittedIn(calls, k, WINDOW - 1) == 2 * limit - 1
  {
    var a := WINDOW - 1;
    var tells := (calls: seq<Call>, w: Option<Window>, n: nat) => Tells(k, a, calls, w, n);
    forall calls, w, n: nat, now | tells(calls, w, n)
      ensures tells(calls + [Call(k, limit, now)], Some(Next(w, now, limit)), Counted(w, n, now, limit, a))
    {
      OneMore(calls, Call(k, limit, now), a, w);
    }
    calls := TwoFullWindows(tells, k, limit);
    assert Tells(k, a, calls, Some(Window(WINDOW, limit)), 2 * limit - 1);
  }
}
