/** `WsApplicationPingPong`: pings pending by key, with the oldest time cached. */
module ApplicationPing {
  import opened Prelude
  import opened Ping

  type Key = string
  type Pending = map<Key, Instant>

  /** `r` is the least time in `m`, or None when there is none. */
  ghost predicate IsOldest(m: Pending, r: Option<Instant>) {
    match r
    case None => m == map[]
    case Some(t) => (exists k :: k in m && m[k] == t) && forall k :: k in m ==> t <= m[k]
  }

  lemma OldestIsUnique(m: Pending, r: Option<Instant>, q: Option<Instant>)
    requires IsOldest(m, r) && IsOldest(m, q)
    ensures r == q
  {
  }

  /** `values().min()`. */
  method MinValue(m: Pending) returns (r: Option<Instant>)
    ensures IsOldest(m, r)
  {
    r := None;
    var left := m.Keys;
    while left != {}
      invariant left <= m.Keys
      invariant r.None? ==> left == m.Keys
      invariant r.Some? ==> exists k :: k in m && m[k] == r.value
      invariant r.Some? ==> forall k :: k in m && k !in left ==> r.value <= m[k]
      decreases left
    {
      var k :| k in left;
      if r.None? || m[k] < r.value {
        r := Some(m[k]);
      }
      left := left - {k};
    }
  }

  ghost function OldestOf(m: Pending): (r: Option<Instant>)
    ensures IsOldest(m, r)
  {
    OldestExists(m);
    var r :| IsOldest(m, r);
    r
  }

  lemma {:induction false} OldestExists(m: Pending)
    ensures exists r :: IsOldest(m, r)
    decreases |m|
  {
    if m == map[] {
      assert IsOldest(m, None);
    } else {
      var k :| k in m;
      var rest := m - {k};
      OldestExists(rest);
      var r :| IsOldest(rest, r);
      assert forall j :: j in m ==> j == k || j in rest;
      assert IsOldest(m, if r.None? || m[k] < r.value then Some(m[k]) else r);
    }
  }

  // ---- The strategy as a state machine ----

  datatype Settings = Settings(timeout: nat, maxPending: nat)

  datatype State = State(pending: Pending, oldest: Option<Instant>)

  datatype Call =
    | CreatePing(cleanAt: Instant, key: Key, at: Instant)
    | PongFor(parsed: Option<Key>)     // what `parse_pong` made of an inbound payload
    | Cleared

  function Cleaned(m: Pending, timeout: nat, now: Instant): Pending {
    map k | k in m && now - m[k] <= timeout :: m[k]
  }

  predicate Stale(s: State, timeout: nat, now: Instant) {
    s.oldest.Some? && now - s.oldest.value > timeout
  }

  function Earlier(oldest: Option<Instant>, at: Instant): Instant {
    if oldest.Some? && oldest.value < at then oldest.value else at
  }

  ghost function Applied(g: Settings, s: State, call: Call): State {
    match call
    case CreatePing(cleanAt, key, at) =>
      var m := Cleaned(s.pending, g.timeout, cleanAt);
      if |m| >= g.maxPending then State(m, OldestOf(m))
      else State(m[key := at], Some(Earlier(OldestOf(m), at)))
    case PongFor(parsed) =>
      if parsed.Some? && parsed.value in s.pending then
        var m := s.pending - {parsed.value};
        State(m, if s.oldest == Some(s.pending[parsed.value]) then OldestOf(m) else s.oldest)
      else s
    case Cleared => State(map[], None)
  }

  ghost function AfterAll(g: Settings, calls: seq<Call>): State {
    if calls == [] then State(map[], None)
    else Applied(g, AfterAll(g, calls[..|calls| - 1]), calls[|calls| - 1])
  }

  predicate LowerBound(s: State) {
    forall k :: k in s.pending ==> s.oldest.Some? && s.oldest.value <= s.pending[k]
  }

  ghost predicate Exact(s: State) {
    IsOldest(s.pending, s.oldest)
  }

  /** With any keys: no stale ping is missed, and the number pending is bounded. */
  lemma {:induction false} NothingStaleMissed(g: Settings, calls: seq<Call>, now: Instant)
    ensures LowerBound(AfterAll(g, calls)) && |AfterAll(g, calls).pending| <= g.maxPending
    ensures forall k :: k in AfterAll(g, calls).pending && now - AfterAll(g, calls).pending[k] > g.timeout ==>
                          Stale(AfterAll(g, calls), g.timeout, now)
  {
    if calls != [] {
      var s := AfterAll(g, calls[..|calls| - 1]);
      NothingStaleMissed(g, calls[..|calls| - 1], now);
      StepKeepsBound(g, s, calls[|calls| - 1]);
    }
  }

  lemma StepKeepsBound(g: Settings, s: State, call: Call)
    requires LowerBound(s) && |s.pending| <= g.maxPending
    ensures LowerBound(Applied(g, s, call)) && |Applied(g, s, call).pending| <= g.maxPending
  {
    match call
    case CreatePing(cleanAt, key, at) =>
      var m := Cleaned(s.pending, g.timeout, cleanAt);
      KeysShrink(m.Keys, s.pending.Keys);
      assert m[key := at].Keys == m.Keys + {key};
    case PongFor(parsed) => PongKeepsBound(g, s, parsed);
    case Cleared =>
  }

  lemma PongKeepsBound(g: Settings, s: State, parsed: Option<Key>)
    requires LowerBound(s)
    ensures var r := Applied(g, s, PongFor(parsed)); LowerBound(r) && |r.pending| <= |s.pending|
  {
    if parsed.Some? && parsed.value in s.pending {
      var m := s.pending - {parsed.value};
      KeysShrink(m.Keys, s.pending.Keys);
    }
  }

  lemma {:induction false} KeysShrink(a: set<Key>, b: set<Key>)
    requires a <= b
    ensures |a| <= |b|
  {
    if a != {} {
      var k :| k in a;
      KeysShrink(a - {k}, b - {k});
    }
  }

  /** Putting `key` into `m` at time `at` cannot hide the least time. */
  predicate Harmless(m: Pending, key: Key, at: Instant) {
    key in m && at > m[key] ==> exists k :: k in m && k != key && m[k] <= m[key]
  }

  /** After a ping is created the cached time is right exactly when the key did
      not replace the only oldest ping, whatever happened before. */
  lemma ExactIffHarmless(g: Settings, s: State, cleanAt: Instant, key: Key, at: Instant)
    ensures var m := Cleaned(s.pending, g.timeout, cleanAt);
            Exact(Applied(g, s, CreatePing(cleanAt, key, at))) <==> |m| >= g.maxPending || Harmless(m, key, at)
  {
    var m := Cleaned(s.pending, g.timeout, cleanAt);
    if |m| < g.maxPending {
      var oldest := OldestOf(m);
      var r := Applied(g, s, CreatePing(cleanAt, key, at));
      if Harmless(m, key, at) {
        if oldest.Some? && oldest.value < at {
          var k :| k in m && m[k] == oldest.value;
          if k == key {
            var other :| other in m && other != key && m[other] <= m[key];
            assert other in r.pending && r.pending[other] == oldest.value;
          } else {
            assert k in r.pending && r.pending[k] == oldest.value;
          }
        } else {
          assert key in r.pending && r.pending[key] == at;
        }
      } else {
        assert oldest == Some(m[key]);
        assert forall k :: k in r.pending ==> r.pending[k] != m[key];
      }
    }
  }

  /** No created ping reuses a key that is still pending. */
  ghost predicate FreshKeys(g: Settings, calls: seq<Call>) {
    forall i :: 0 <= i < |calls| && calls[i].CreatePing? ==>
                  calls[i].key !in Cleaned(AfterAll(g, calls[..i]).pending, g.timeout, calls[i].cleanAt)
  }

  /** With fresh keys the cache is always the least pending time, so staleness
      means exactly that some pending ping has outlived the timeout. */
  lemma {:induction false} FreshKeysKeepCacheExact(g: Settings, calls: seq<Call>, now: Instant)
    requires FreshKeys(g, calls)
    ensures Exact(AfterAll(g, calls))
    ensures var s := AfterAll(g, calls);
            Stale(s, g.timeout, now) <==> exists k :: k in s.pending && now - s.pending[k] > g.timeout
  {
    if calls != [] {
      var n := |calls| - 1;
      var s := AfterAll(g, calls[..n]);
      assert forall i :: 0 <= i <= n ==> calls[..n][..i] == calls[..i];
      FreshKeysKeepCacheExact(g, calls[..n], now);
      match calls[n]
      case CreatePing(cleanAt, key, at) => ExactIffHarmless(g, s, cleanAt, key, at);
      case PongFor(parsed) => PongKeepsExact(g, s, parsed);
      case Cleared =>
    }
  }

  lemma PongKeepsExact(g: Settings, s: State, parsed: Option<Key>)
    requires Exact(s)
    ensures Exact(Applied(g, s, PongFor(parsed)))
  {
    if parsed.Some? && parsed.value in s.pending && s.oldest != Some(s.pending[parsed.value]) {
      var k :| k in s.pending && s.pending[k] == s.oldest.value;
      assert k in s.pending - {parsed.value};
    }
  }

  /** At an instant that is not stale, cleaning removes nothing. */
  lemma CleaningKeepsAllWhenNotStale(g: Settings, calls: seq<Call>, now: Instant)
    ensures var s := AfterAll(g, calls);
            !Stale(s, g.timeout, now) ==> Cleaned(s.pending, g.timeout, now) == s.pending
  {
    NothingStaleMissed(g, calls, now);
  }

  /** Creating a ping forgets exactly the pings that have outlived the timeout. */
  lemma OutlivedAreForgotten(g: Settings, calls: seq<Call>, cleanAt: Instant, key: Key, at: Instant, other: Key)
    requires other != key
    ensures var s, r := AfterAll(g, calls), AfterAll(g, calls + [CreatePing(cleanAt, key, at)]);
            && (other in r.pending <==> other in s.pending && cleanAt - s.pending[other] <= g.timeout)
            && (other in r.pending ==> r.pending[other] == s.pending[other])
  {
    assert (calls + [CreatePing(cleanAt, key, at)])[..|calls|] == calls;
  }

  /** A reused key can raise a false alarm: nothing is pending, yet it is stale. */
  lemma ReusedKeyRaisesFalseAlarm()
    ensures var g := Settings(10, 10);
            var s := AfterAll(g, [CreatePing(0, "k", 0), CreatePing(5, "k", 5), PongFor(Some("k"))]);
            s.pending == map[] && Stale(s, 10, 11)
  {
    var g := Settings(10, 10);
    var calls := [CreatePing(0, "k", 0), CreatePing(5, "k", 5), PongFor(Some("k"))];
    var s0 := State(map[], None);
    var s1 := State(map["k" := 0], Some(0));
    var s2 := State(map["k" := 5], Some(0));
    assert calls[..0] == [] && calls[..1][..0] == [] && calls[..2][..1] == calls[..1];
    assert Cleaned(map[], 10, 0) == map[];
    assert Applied(g, s0, calls[0]) == s1;
    assert AfterAll(g, calls[..1]) == s1;
    assert Cleaned(s1.pending, 10, 5) == s1.pending;
    OldestIsUnique(s1.pending, OldestOf(s1.pending), Some(0)) by {
      assert "k" in s1.pending;
    }
    assert s1.pending["k" := 5] == s2.pending;
    assert |s1.pending| == 1;
    assert Applied(g, s1, calls[1]) == s2;
    assert AfterAll(g, calls[..2]) == s2;
    assert s2.pending - {"k"} == map[];
  }

  class WsApplicationPingPong {
    const timeout: nat
    const maxPending: nat
    var pendingPings: Pending
    var oldestPending: Option<Instant>

    ghost function Snapshot(): State
      reads this
    {
      State(pendingPings, oldestPending)
    }

    ghost function Limits(): Settings {
      Settings(timeout, maxPending)
    }

    constructor (timeout: nat, maxPending: nat)
      ensures Limits() == Settings(timeout, maxPending) && Snapshot() == State(map[], None)
    {
      this.timeout, this.maxPending := timeout, maxPending;
      pendingPings, oldestPending := map[], None;
    }

    method CleanupStale(now: Instant)
      modifies this
      ensures pendingPings == Cleaned(old(pendingPings), timeout, now) && oldestPending == OldestOf(pendingPings)
    {
      pendingPings := map k | k in pendingPings && now - pendingPings[k] <= timeout :: pendingPings[k];
      oldestPending := MinValue(pendingPings);
      OldestIsUnique(pendingPings, oldestPending, OldestOf(pendingPings));
    }

    /** `key` is what the user's `create_message` returns, if it is called. */
    method CreatePing(cleanAt: Instant, key: Key, at: Instant) returns (sent: bool)
      modifies this
      ensures Snapshot() == Applied(Limits(), old(Snapshot()), Call.CreatePing(cleanAt, key, at))
      ensures sent <==> |Cleaned(old(pendingPings), timeout, cleanAt)| < maxPending
    {
      CleanupStale(cleanAt);
      if |pendingPings| >= maxPending {
        return false;
      }
      pendingPings := pendingPings[key := at];
      oldestPending := Some(if oldestPending.Some? && oldestPending.value < at then oldestPending.value else at);
      sent := true;
    }

    /** `parsed` is what the user's `parse_pong` makes of the payload. */
    method ProcessApplication(parsed: Option<Key>, now: Instant) returns (result: PongResult)
      modifies this
      ensures Snapshot() == Applied(Limits(), old(Snapshot()), PongFor(parsed))
      ensures result.PongReceived? <==> parsed.Some? && parsed.value in old(pendingPings)
      ensures !result.PongReceived? ==> result == NotPong
    {
      if parsed.Some? && parsed.value in pendingPings {
        var sentAt := pendingPings[parsed.value];
        pendingPings := pendingPings - {parsed.value};
        if oldestPending == Some(sentAt) {
          oldestPending := MinValue(pendingPings);
          OldestIsUnique(pendingPings, oldestPending, OldestOf(pendingPings));
        }
        result := PongReceived(Some(if now < sentAt then 0 else now - sentAt));
      } else {
        result := NotPong;
      }
    }

    method Reset()
      modifies this
      ensures Snapshot() == Applied(Limits(), old(Snapshot()), Cleared)
    {
      pendingPings, oldestPending := map[], None;
    }
  }
}
