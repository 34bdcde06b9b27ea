/** The fixed-window rate limiter: how many calls of a key are allowed in a window and across windows. */
module RateLimit {
  import opened Text

  const WINDOW_SECONDS := 60

  /** One call: when, in Unix seconds, from where, and for what. */
  datatype Call = Call(at: int, ip: string, action: string)

  datatype Policy = Policy(enabled: bool, read: int, export_: int, ingest: int)

  /** limits[strings.TrimSpace(action)]; an unknown action has no limit. */
  function LimitFor(p: Policy, action: string): int {
    var a := Trim(action);
    if a == "read" then p.read else if a == "export" then p.export_ else if a == "ingest" then p.ingest else 0
  }

  predicate Unlimited(p: Policy, c: Call) { !p.enabled || LimitFor(p, c.action) <= 0 }

  function CounterKey(c: Call): string { Trim(c.action) + ['|'] + c.ip }

  /** Unix seconds divided by 60, towards zero, as in Go. */
  function WindowOf(at: int): int {
    if at >= 0 then at / WINDOW_SECONDS else -((-at) / WINDOW_SECONDS)
  }

  class AuthRateLimiter {
    const policy: Policy
    var window: int
    var counters: map<string, nat>

    constructor (policy: Policy, at: int)
      ensures this.policy == policy && window == WindowOf(at) && counters == map[]
    {
      this.policy, window, counters := policy, WindowOf(at), map[];
    }

    method Allow(c: Call) returns (allowed: bool)
      modifies this
      ensures (Limiter(window, counters), allowed) == Decide(policy, old(Limiter(window, counters)), c)
    {
      if !policy.enabled {
        return true;
      }
      var limit := LimitFor(policy, c.action);
      if limit <= 0 {
        return true;
      }
      var nowWindow := WindowOf(c.at);
      var key := CounterKey(c);
      if nowWindow != window {
        window := nowWindow;
        counters := map[];
      }
      counters := counters[key := (if key in counters then counters[key] else 0) + 1];
      return counters[key] <= limit;
    }
  }

  datatype Limiter = Limiter(window: int, counters: map<string, nat>)

  function CountOf(l: Limiter, key: string): nat {
    if key in l.counters then l.counters[key] else 0
  }

  function Decide(p: Policy, l: Limiter, c: Call): (Limiter, bool) {
    if Unlimited(p, c) then (l, true)
    else
      var current := if WindowOf(c.at) != l.window then Limiter(WindowOf(c.at), map[]) else l;
      var n := CountOf(current, CounterKey(c)) + 1;
      (current.(counters := current.counters[CounterKey(c) := n]), n <= LimitFor(p, c.action))
  }

  function After(p: Policy, start: Limiter, calls: seq<Call>): Limiter {
    if calls == [] then start else Decide(p, After(p, start, calls[..|calls| - 1]), calls[|calls| - 1]).0
  }

  function Allowed(p: Policy, start: Limiter, calls: seq<Call>, i: nat): bool
    requires i < |calls|
  {
    Decide(p, After(p, start, calls[..i]), calls[i]).1
  }

  /** Same limited action, same address: the calls that share a counter. */
  predicate Peers(p: Policy, a: Call, b: Call) {
    !Unlimited(p, a) && !Unlimited(p, b) && Trim(a.action) == Trim(b.action) && a.ip == b.ip
  }

  /** The counter key mixes no two peers groups: a limited action has no separator in it. */
  lemma KeyIdentifiesPeers(p: Policy, a: Call, b: Call)
    requires !Unlimited(p, a) && !Unlimited(p, b)
    ensures CounterKey(a) == CounterKey(b) <==> Peers(p, a, b)
  {
    assert '|' !in Trim(a.action) && '|' !in Trim(b.action);
    if CounterKey(a) == CounterKey(b) {
      SplitUnique('|', Trim(a.action), Trim(b.action), a.ip, b.ip);
    }
  }

  ghost predicate ClockMonotone(start: Limiter, calls: seq<Call>) {
    && (forall i :: 0 <= i < |calls| ==> start.window <= WindowOf(calls[i].at))
    && (forall i, j :: 0 <= i < j < |calls| ==> calls[i].at <= calls[j].at)
  }

  /** How many of the first k calls are peers of c in its window. */
  function PeerCalls(p: Policy, calls: seq<Call>, c: Call, k: nat): nat
    requires k <= |calls|
  {
    if k == 0 then 0
    else
      PeerCalls(p, calls, c, k - 1)
      + (if Peers(p, calls[k - 1], c) && WindowOf(calls[k - 1].at) == WindowOf(c.at) then 1 else 0)
  }

  /** While the clock does not run backwards, the counter a call finds is the number of its peers before it
      in its window. */
  lemma {:induction false} CounterIsPeerCalls(p: Policy, start: Limiter, calls: seq<Call>, c: Call, k: nat)
    requires ClockMonotone(start, calls) && start.counters == map[] && !Unlimited(p, c) && k <= |calls|
    requires start.window <= WindowOf(c.at) && forall i :: 0 <= i < k ==> calls[i].at <= c.at
    ensures var l := After(p, start, calls[..k]);
            && l.window <= WindowOf(c.at)
            && (if l.window == WindowOf(c.at) then CountOf(l, CounterKey(c)) else 0) == PeerCalls(p, calls, c, k)
  {
    hide Unlimited, CounterKey, Peers;
    if k > 0 {
      var d := calls[k - 1];
      CounterIsPeerCalls(p, start, calls, c, k - 1);
      assert calls[..k][..k - 1] == calls[..k - 1] && calls[..k][k - 1] == d;
      WindowMonotone(d.at, c.at);
      if Unlimited(p, d) {
        UnlimitedHasNoPeers(p, d, c);
      } else {
        KeyIdentifiesPeers(p, d, c);
        WindowNotBefore(p, start, calls, d, k - 1);
      }
    } else {
      assert calls[..0] == [];
    }
  }

  lemma UnlimitedHasNoPeers(p: Policy, a: Call, b: Call)
    requires Unlimited(p, a)
    ensures !Peers(p, a, b)
  {
  }

  lemma WindowMonotone(a: int, b: int)
    requires a <= b
    ensures WindowOf(a) <= WindowOf(b)
  {
  }

  lemma {:induction false} WindowNotBefore(p: Policy, start: Limiter, calls: seq<Call>, c: Call, k: nat)
    requires k <= |calls| && start.window <= WindowOf(c.at) && forall i :: 0 <= i < k ==> calls[i].at <= c.at
    ensures After(p, start, calls[..k]).window <= WindowOf(c.at)
  {
    hide Unlimited, CounterKey, WindowOf;
    if k > 0 {
      WindowNotBefore(p, start, calls, c, k - 1);
      assert calls[..k][..k - 1] == calls[..k - 1] && calls[..k][k - 1] == calls[k - 1];
      WindowMonotone(calls[k - 1].at, c.at);
    } else {
      assert calls[..0] == [];
    }
  }

  /** A limited call is allowed exactly when fewer than the limit of its peers came before it in its window. */
  lemma AllowedIff(p: Policy, start: Limiter, calls: seq<Call>, i: nat)
    requires ClockMonotone(start, calls) && start.counters == map[] && i < |calls| && !Unlimited(p, calls[i])
    ensures Allowed(p, start, calls, i) <==> PeerCalls(p, calls, calls[i], i) < LimitFor(p, calls[i].action)
  {
    hide CounterKey, Peers;
    CounterIsPeerCalls(p, start, calls, calls[i], i);
  }

  /** How many of the first k calls are peers of c since a limited call last fell into another window. */
  function PeersSince(p: Policy, calls: seq<Call>, c: Call, k: nat): nat
    requires k <= |calls|
  {
    if k == 0 then 0
    else if Unlimited(p, calls[k - 1]) then PeersSince(p, calls, c, k - 1)
    else if WindowOf(calls[k - 1].at) != WindowOf(c.at) then 0
    else PeersSince(p, calls, c, k - 1) + (if Peers(p, calls[k - 1], c) then 1 else 0)
  }

  lemma {:induction false} CounterIsPeersSince(p: Policy, start: Limiter, calls: seq<Call>, c: Call, k: nat)
    requires start.counters == map[] && !Unlimited(p, c) && k <= |calls|
    ensures var l := After(p, start, calls[..k]);
            (if l.window == WindowOf(c.at) then CountOf(l, CounterKey(c)) else 0) == PeersSince(p, calls, c, k)
  {
    hide Unlimited, CounterKey, Peers, WindowOf;
    if k > 0 {
      var d := calls[k - 1];
      CounterIsPeersSince(p, start, calls, c, k - 1);
      assert calls[..k][..k - 1] == calls[..k - 1] && calls[..k][k - 1] == d;
      if !Unlimited(p, d) { KeyIdentifiesPeers(p, d, c); }
    } else {
      assert calls[..0] == [];
    }
  }

  /** However the clock moves, a limited call is allowed exactly when fewer than the limit of its peers have come
      since a call last fell into another window; a clock set back starts the count again. */
  lemma AllowedOnAnyClock(p: Policy, start: Limiter, calls: seq<Call>, i: nat)
    requires start.counters == map[] && i < |calls| && !Unlimited(p, calls[i])
    ensures Allowed(p, start, calls, i) <==> PeersSince(p, calls, calls[i], i) < LimitFor(p, calls[i].action)
  {
    hide CounterKey, Peers;
    CounterIsPeersSince(p, start, calls, calls[i], i);
  }

  /** Windows are the minutes of the epoch, the one around it two minutes long. */
  lemma WindowMeans(at: int)
    ensures at >= 0 ==> 60 * WindowOf(at) <= at < 60 * WindowOf(at) + 60
    ensures at <= 0 ==> 60 * WindowOf(at) - 60 < at <= 60 * WindowOf(at)
  {
  }

  /** With the limiter on, reads, exports and ingests are allowed while their own limit, if it is positive, exceeds
      the number of their peers before them in the minute; anything else always is. */
  lemma AllowedSays(p: Policy, start: Limiter, calls: seq<Call>, i: nat)
    requires ClockMonotone(start, calls) && start.counters == map[] && i < |calls|
    ensures var action, n := Trim(calls[i].action), PeerCalls(p, calls, calls[i], i);
            && (!p.enabled ==> Allowed(p, start, calls, i))
            && (p.enabled && action == "read" ==> (Allowed(p, start, calls, i) <==> p.read <= 0 || n < p.read))
            && (p.enabled && action == "export" ==>
                  (Allowed(p, start, calls, i) <==> p.export_ <= 0 || n < p.export_))
            && (p.enabled && action == "ingest" ==> (Allowed(p, start, calls, i) <==> p.ingest <= 0 || n < p.ingest))
            && (action !in ["read", "export", "ingest"] ==> Allowed(p, start, calls, i))
  {
    hide CounterKey, Peers, WindowOf, Trim, After;
    var c := calls[i];
    var actions := ["read", "export", "ingest"];
    assert actions[0] in actions && actions[1] in actions && actions[2] in actions;
    if !Unlimited(p, c) { AllowedIff(p, start, calls, i); }
  }

  /** How many of the first k calls are allowed peers of c in its window. */
  ghost function AllowedPeers(p: Policy, start: Limiter, calls: seq<Call>, c: Call, k: nat): nat
    requires k <= |calls|
  {
    if k == 0 then 0
    else
      AllowedPeers(p, start, calls, c, k - 1)
      + (if Peers(p, calls[k - 1], c) && WindowOf(calls[k - 1].at) == WindowOf(c.at) && Allowed(p, start, calls, k - 1)
         then 1 else 0)
  }

  lemma {:induction false} PeersCountAlike(p: Policy, calls: seq<Call>, a: Call, b: Call, k: nat)
    requires k <= |calls| && Peers(p, a, b) && WindowOf(a.at) == WindowOf(b.at)
    ensures PeerCalls(p, calls, a, k) == PeerCalls(p, calls, b, k)
  {
    hide Unlimited, WindowOf;
    if k > 0 { PeersCountAlike(p, calls, a, b, k - 1); }
  }

  /** In each window each (action, address) is allowed exactly min(calls, limit) times, whatever others do. */
  lemma {:induction false} AllowedPerWindow(p: Policy, start: Limiter, calls: seq<Call>, c: Call, k: nat)
    requires ClockMonotone(start, calls) && start.counters == map[] && !Unlimited(p, c) && k <= |calls|
    ensures var n, limit := PeerCalls(p, calls, c, k), LimitFor(p, c.action);
            AllowedPeers(p, start, calls, c, k) == if n < limit then n else limit
  {
    hide Unlimited, WindowOf, Allowed, LimitFor, Peers;
    if k > 0 {
      var d := calls[k - 1];
      AllowedPerWindow(p, start, calls, c, k - 1);
      if Peers(p, d, c) && WindowOf(d.at) == WindowOf(c.at) {
        PeersAreLimited(p, d, c);
        AllowedIff(p, start, calls, k - 1);
        PeersCountAlike(p, calls, d, c, k - 1);
        PeersShareLimit(p, d, c);
      }
    } else {
      LimitPositive(p, c);
    }
  }

  lemma PeersAreLimited(p: Policy, a: Call, b: Call)
    requires Peers(p, a, b)
    ensures !Unlimited(p, a) && !Unlimited(p, b)
  {
  }

  lemma PeersShareLimit(p: Policy, a: Call, b: Call)
    requires Peers(p, a, b)
    ensures LimitFor(p, a.action) == LimitFor(p, b.action)
  {
  }

  lemma LimitPositive(p: Policy, c: Call)
    requires !Unlimited(p, c)
    ensures LimitFor(p, c.action) > 0
  {
  }

  /** How many of the first k calls are allowed peers of c within the 60 seconds from `from` on. */
  ghost function AllowedWithin(p: Policy, start: Limiter, calls: seq<Call>, c: Call, from: int, k: nat): nat
    requires k <= |calls|
  {
    if k == 0 then 0
    else
      AllowedWithin(p, start, calls, c, from, k - 1)
      + (if Peers(p, calls[k - 1], c) && from <= calls[k - 1].at < from + 60 &&
         Allowed(p, start, calls, k - 1) then 1 else 0)
  }

  lemma TwoWindows(from: int, at: int)
    requires from <= at < from + 60
    ensures WindowOf(at) == WindowOf(from) || WindowOf(at) == WindowOf(from + 59)
  {
  }

  lemma {:induction false} WithinTwoWindows(p: Policy, start: Limiter, calls: seq<Call>, c: Call, from: int, k: nat)
    requires k <= |calls|
    ensures AllowedWithin(p, start, calls, c, from, k) <=
              AllowedPeers(p, start, calls, c.(at := from), k) +
                AllowedPeers(p, start, calls, c.(at := from + 59), k)
  {
    hide Unlimited, WindowOf, Allowed;
    if k > 0 {
      WithinTwoWindows(p, start, calls, c, from, k - 1);
      var d := calls[k - 1];
      PeersIgnoreTime(p, d, c, from);
      PeersIgnoreTime(p, d, c, from + 59);
      if from <= d.at < from + 60 { TwoWindows(from, d.at); }
    }
  }

  lemma PeersIgnoreTime(p: Policy, a: Call, b: Call, at: int)
    ensures Peers(p, a, b) <==> Peers(p, a, b.(at := at))
    ensures Unlimited(p, b) <==> Unlimited(p, b.(at := at))
  {
  }

  /** In any 60 consecutive seconds each (action, address) is allowed at most twice its limit. */
  lemma AllowedPerMinute(p: Policy, start: Limiter, calls: seq<Call>, c: Call, from: int)
    requires ClockMonotone(start, calls) && start.counters == map[] && !Unlimited(p, c)
    ensures AllowedWithin(p, start, calls, c, from, |calls|) <= 2 * LimitFor(p, c.action)
  {
    hide Unlimited, WindowOf, Allowed, LimitFor;
    var later := from + 59;
    PeersIgnoreTime(p, c, c, from);
    PeersIgnoreTime(p, c, c, later);
    AllowedPerWindow(p, start, calls, c.(at := from), |calls|);
    AllowedPerWindow(p, start, calls, c.(at := later), |calls|);
    WithinTwoWindows(p, start, calls, c, from, |calls|);
  }
}
