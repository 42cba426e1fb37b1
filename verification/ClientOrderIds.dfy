// The duplicate-id registry of the order guard
// (services/mt5_gateway/order_guard.py, ClientOrderIdRegistry).
module ClientOrderIds {

  // One entry of the ordered map: an id and the clock value it was claimed at.
  datatype Claim = Claim(id: string, at: real)

  predicate Tracked(seen: seq<Claim>, id: string) {
    exists i | 0 <= i < |seen| :: seen[i].id == id
  }

  // The entries left once the oldest are dropped until the head is fresh and
  // there is room for one more.
  function Evict(seen: seq<Claim>, ttl: real, max: int, now: real): seq<Claim> {
    if |seen| > 0 && !(now - seen[0].at <= ttl && |seen| < max) then Evict(seen[1..], ttl, max, now) else seen
  }

  predicate Grants(seen: seq<Claim>, ttl: real, max: int, c: Claim) {
    !Tracked(Evict(seen, ttl, max, c.at), c.id)
  }

  function AfterClaim(seen: seq<Claim>, ttl: real, max: int, c: Claim): seq<Claim> {
    var kept := Evict(seen, ttl, max, c.at);
    if Tracked(kept, c.id) then kept else kept + [c]
  }

  class ClientOrderIdRegistry {
    const ttl: real
    const max: int
    var seen: seq<Claim>

    constructor (ttl: real, max: int)
      ensures this.ttl == ttl && this.max == max && seen == []
    {
      this.ttl := ttl;
      this.max := max;
      seen := [];
    }

    method ClaimId(id: string, now: real) returns (granted: bool)
      modifies this
      ensures granted == Grants(old(seen), ttl, max, Claim(id, now))
      ensures seen == AfterClaim(old(seen), ttl, max, Claim(id, now))
    {
      while |seen| > 0
        invariant Evict(seen, ttl, max, now) == Evict(old(seen), ttl, max, now)
        decreases |seen|
      {
        var oldest := seen[0];
        if now - oldest.at <= ttl && |seen| < max {
          break;
        }
        seen := seen[1..];
      }
      if exists i | 0 <= i < |seen| :: seen[i].id == id {
        return false;
      }
      seen := seen + [Claim(id, now)];
      return true;
    }
  }

  // ---------------------------------------------------------------------
  // Runs: the registry against the full history of what it accepted

  // What is tracked after a sequence of claims, and every claim granted so far.
  datatype Log = Log(seen: seq<Claim>, accepted: seq<Claim>)

  function Run(calls: seq<Claim>, ttl: real, max: int): Log {
    if calls == [] then Log([], [])
    else
      var before := Run(calls[..|calls| - 1], ttl, max);
      var c := calls[|calls| - 1];
      Log(AfterClaim(before.seen, ttl, max, c),
          if Grants(before.seen, ttl, max, c) then before.accepted + [c] else before.accepted)
  }

  // The clock never runs backwards along the claims.
  predicate Monotone(calls: seq<Claim>) {
    forall i, j :: 0 <= i < j < |calls| ==> calls[i].at <= calls[j].at
  }

  predicate Expired(calls: seq<Claim>, at: real, ttl: real) {
    exists i | 0 <= i < |calls| :: calls[i].at - at > ttl
  }

  // Acceptance i may have been forgotten: some claim came after its time to
  // live, or max - 1 later ids were accepted.
  predicate Forgettable(calls: seq<Claim>, accepted: seq<Claim>, i: int, ttl: real, max: int)
    requires 0 <= i < |accepted|
  {
    Expired(calls, accepted[i].at, ttl) || |accepted| - 1 - i >= max - 1
  }

  predicate Distinct(seen: seq<Claim>) {
    forall i, j :: 0 <= i < j < |seen| ==> seen[i].id != seen[j].id
  }

  // The registry holds the most recent part of the history, and only
  // forgettable acceptances are missing from it.
  predicate Window(calls: seq<Claim>, seen: seq<Claim>, accepted: seq<Claim>, ttl: real, max: int) {
    && |seen| <= |accepted|
    && seen == accepted[|accepted| - |seen|..]
    && Distinct(seen)
    && forall i :: 0 <= i < |accepted| - |seen| ==> Forgettable(calls, accepted, i, ttl, max)
  }

  lemma {:induction false} EvictKeepsWindow(calls: seq<Claim>, seen: seq<Claim>, accepted: seq<Claim>, ttl: real, max: int, c: Claim)
    requires Window(calls + [c], seen, accepted, ttl, max)
    ensures Window(calls + [c], Evict(seen, ttl, max, c.at), accepted, ttl, max)
    decreases |seen|
  {
    if |seen| > 0 && !(c.at - seen[0].at <= ttl && |seen| < max) {
      var k := |accepted| - |seen|;
      assert accepted[k] == seen[0];
      if c.at - seen[0].at > ttl {
        assert (calls + [c])[|calls|].at - accepted[k].at > ttl;
      }
      assert Forgettable(calls + [c], accepted, k, ttl, max);
      EvictKeepsWindow(calls, seen[1..], accepted, ttl, max, c);
    }
  }

  lemma WindowGrows(calls: seq<Claim>, seen: seq<Claim>, accepted: seq<Claim>, ttl: real, max: int, c: Claim)
    requires Window(calls, seen, accepted, ttl, max)
    ensures Window(calls + [c], seen, accepted, ttl, max)
  {
    forall i | 0 <= i < |accepted| - |seen|
      ensures Forgettable(calls + [c], accepted, i, ttl, max)
    {
      assert Forgettable(calls, accepted, i, ttl, max);
      if Expired(calls, accepted[i].at, ttl) {
        var j :| 0 <= j < |calls| && calls[j].at - accepted[i].at > ttl;
        assert (calls + [c])[j].at - accepted[i].at > ttl;
      }
    }
  }

  lemma AcceptKeepsWindow(calls: seq<Claim>, kept: seq<Claim>, accepted: seq<Claim>, ttl: real, max: int, c: Claim)
    requires Window(calls, kept, accepted, ttl, max) && !Tracked(kept, c.id)
    ensures Window(calls, kept + [c], accepted + [c], ttl, max)
  {
    forall i | 0 <= i < |accepted| - |kept|
      ensures Forgettable(calls, accepted + [c], i, ttl, max)
    {
      assert Forgettable(calls, accepted, i, ttl, max);
    }
  }

  // Every run keeps the window, whatever the clock does.
  lemma {:induction false} RunKeepsWindow(calls: seq<Claim>, ttl: real, max: int)
    ensures var log := Run(calls, ttl, max); Window(calls, log.seen, log.accepted, ttl, max)
  {
    if calls != [] {
      var earlier, c := calls[..|calls| - 1], calls[|calls| - 1];
      var before := Run(earlier, ttl, max);
      assert earlier + [c] == calls;
      RunKeepsWindow(earlier, ttl, max);
      WindowGrows(earlier, before.seen, before.accepted, ttl, max, c);
      EvictKeepsWindow(earlier, before.seen, before.accepted, ttl, max, c);
      var kept := Evict(before.seen, ttl, max, c.at);
      if !Tracked(kept, c.id) {
        AcceptKeepsWindow(calls, kept, before.accepted, ttl, max, c);
      }
    }
  }

  // x's latest acceptance is number i of the history.
  predicate Latest(accepted: seq<Claim>, id: string, i: int) {
    0 <= i < |accepted| && accepted[i].id == id && forall j :: i < j < |accepted| ==> accepted[j].id != id
  }

  // At most once, for every clock, even one read out of order: an id whose last
  // acceptance no claim has outlived, and which fewer than max - 1 later
  // acceptances followed, is refused.
  lemma LiveIdIsRefused(calls: seq<Claim>, ttl: real, max: int, c: Claim, i: int)
    requires var log := Run(calls, ttl, max);
             && 0 <= i < |log.accepted| && log.accepted[i].id == c.id
             && !Forgettable(calls + [c], log.accepted, i, ttl, max)
    ensures !Grants(Run(calls, ttl, max).seen, ttl, max, c)
  {
    var log := Run(calls, ttl, max);
    RunKeepsWindow(calls, ttl, max);
    WindowGrows(calls, log.seen, log.accepted, ttl, max, c);
    EvictKeepsWindow(calls, log.seen, log.accepted, ttl, max, c);
    var kept := Evict(log.seen, ttl, max, c.at);
    assert kept[i - (|log.accepted| - |kept|)].id == c.id;
  }

  lemma KeptIsLatest(accepted: seq<Claim>, kept: seq<Claim>, j: int)
    requires |kept| <= |accepted| && kept == accepted[|accepted| - |kept|..] && Distinct(kept) && 0 <= j < |kept|
    ensures Latest(accepted, kept[j].id, |accepted| - |kept| + j)
  {
    var k := |accepted| - |kept|;
    forall m | k + j < m < |accepted| ensures accepted[m].id != kept[j].id {
      assert accepted[m] == kept[m - k];
    }
  }

  // An acceptance still inside its time to live and its capacity window.
  predicate Recent(accepted: seq<Claim>, i: int, ttl: real, max: int, now: real) {
    0 <= i < |accepted| && now - accepted[i].at <= ttl && |accepted| - 1 - i < max - 1
  }

  lemma RefusedIsRecent(calls: seq<Claim>, ttl: real, max: int, c: Claim) returns (i: int)
    requires Monotone(calls + [c]) && !Grants(Run(calls, ttl, max).seen, ttl, max, c)
    ensures var accepted := Run(calls, ttl, max).accepted; Latest(accepted, c.id, i) && Recent(accepted, i, ttl, max, c.at)
  {
    var log := Run(calls, ttl, max);
    var kept := Evict(log.seen, ttl, max, c.at);
    RunKeepsWindow(calls, ttl, max);
    WindowGrows(calls, log.seen, log.accepted, ttl, max, c);
    EvictKeepsWindow(calls, log.seen, log.accepted, ttl, max, c);
    var j :| 0 <= j < |kept| && kept[j].id == c.id;
    var k := |log.accepted| - |kept|;
    KeptIsLatest(log.accepted, kept, j);
    EvictHeadFits(log.seen, ttl, max, c.at);
    AcceptedInClockOrder(calls, ttl, max, c);
    assert kept[0] == log.accepted[k];
    assert (log.accepted + [c])[k].at <= (log.accepted + [c])[k + j].at;
    i := k + j;
  }

  // The registry refines its history: with a clock that does not run backwards a
  // claim is refused exactly when the id's latest acceptance is at most the time
  // to live old and fewer than max - 1 ids were accepted after it.
  lemma RefusedIffRecent(calls: seq<Claim>, ttl: real, max: int, c: Claim)
    requires Monotone(calls + [c])
    ensures var log := Run(calls, ttl, max);
            !Grants(log.seen, ttl, max, c) <==>
            exists i :: Latest(log.accepted, c.id, i) && Recent(log.accepted, i, ttl, max, c.at)
  {
    var accepted := Run(calls, ttl, max).accepted;
    if !Grants(Run(calls, ttl, max).seen, ttl, max, c) {
      var i := RefusedIsRecent(calls, ttl, max, c);
    } else if i :| Latest(accepted, c.id, i) && Recent(accepted, i, ttl, max, c.at) {
      forall j | 0 <= j < |calls + [c]|
        ensures (calls + [c])[j].at <= c.at
      {
        assert (calls + [c])[|calls|] == c;
      }
      LiveIdIsRefused(calls, ttl, max, c, i);
    }
  }

  lemma {:induction false} EvictHeadFits(seen: seq<Claim>, ttl: real, max: int, now: real)
    ensures var kept := Evict(seen, ttl, max, now);
            |kept| > 0 ==> now - kept[0].at <= ttl && |kept| < max
    decreases |seen|
  {
    if |seen| > 0 && !(now - seen[0].at <= ttl && |seen| < max) {
      EvictHeadFits(seen[1..], ttl, max, now);
    }
  }

  // Accepted claims carry clock values in claim order.
  lemma {:induction false} AcceptedInClockOrder(calls: seq<Claim>, ttl: real, max: int, next: Claim)
    requires Monotone(calls + [next])
    ensures Monotone(Run(calls, ttl, max).accepted + [next])
  {
    if calls != [] {
      var earlier, c := calls[..|calls| - 1], calls[|calls| - 1];
      assert earlier + [c] == calls;
      assert Monotone(earlier + [c]) by {
        forall i, j | 0 <= i < j < |earlier + [c]| ensures (earlier + [c])[i].at <= (earlier + [c])[j].at {
          assert (calls + [next])[i].at <= (calls + [next])[j].at;
        }
      }
      assert c.at <= next.at by {
        assert (calls + [next])[|calls| - 1].at <= (calls + [next])[|calls|].at;
      }
      AcceptedInClockOrder(earlier, ttl, max, c);
      var accepted := Run(earlier, ttl, max).accepted;
      forall i, j | 0 <= i < j < |Run(calls, ttl, max).accepted + [next]|
        ensures (Run(calls, ttl, max).accepted + [next])[i].at <= (Run(calls, ttl, max).accepted + [next])[j].at
      {
        if i < |accepted| {
          assert (accepted + [c])[i].at <= (accepted + [c])[|accepted|].at;
          if j < |accepted| {
            assert (accepted + [c])[i].at <= (accepted + [c])[j].at;
          }
        }
      }
    }
  }

  // Claim number n is acceptance j, and by then acceptance i had expired or been
  // followed by max - 1 others.
  predicate LateAt(calls: seq<Claim>, n: nat, ttl: real, max: int, i: int, j: int) {
    && 0 < n <= |calls|
    && var accepted := Run(calls[..n], ttl, max).accepted;
    && 0 <= i < j == |accepted| - 1 && accepted[j] == calls[n - 1]
    && accepted <= Run(calls, ttl, max).accepted
    && (Expired(calls[..n], accepted[i].at, ttl) || j - 1 - i >= max - 1)
  }

  // Two acceptances of one id: when the second was made, the first was already
  // forgettable. Claims made later have no say.
  lemma {:induction false} SecondAcceptanceIsLate(calls: seq<Claim>, ttl: real, max: int, i: int, j: int) returns (n: nat)
    requires var log := Run(calls, ttl, max); 0 <= i < j < |log.accepted| && log.accepted[i].id == log.accepted[j].id
    ensures LateAt(calls, n, ttl, max, i, j)
  {
    var earlier, c := calls[..|calls| - 1], calls[|calls| - 1];
    var before := Run(earlier, ttl, max);
    assert earlier + [c] == calls;
    if j == |before.accepted| {
      n := |calls|;
      assert calls[..n] == calls;
      if !Forgettable(calls, before.accepted, i, ttl, max) {
        LiveIdIsRefused(earlier, ttl, max, c, i);
      }
    } else {
      n := SecondAcceptanceIsLate(earlier, ttl, max, i, j);
      assert calls[..n] == earlier[..n];
    }
  }

  lemma WindowInClockOrder(accepted: seq<Claim>, seen: seq<Claim>, next: Claim)
    requires |seen| <= |accepted| && seen == accepted[|accepted| - |seen|..] && Monotone(accepted + [next])
    ensures Monotone(seen)
  {
    var k := |accepted| - |seen|;
    forall i, j | 0 <= i < j < |seen| ensures seen[i].at <= seen[j].at {
      assert (accepted + [next])[k + i].at <= (accepted + [next])[k + j].at;
    }
  }

  // The registry never outgrows its capacity.
  lemma {:induction false} RegistryStaysSmall(calls: seq<Claim>, ttl: real, max: int)
    ensures |Run(calls, ttl, max).seen| <= if max < 1 then 1 else max
  {
    if calls != [] {
      EvictHeadFits(Run(calls[..|calls| - 1], ttl, max).seen, ttl, max, calls[|calls| - 1].at);
    }
  }

  // Under a clock that does not run backwards it stays in clock order.
  lemma RegistryStaysSorted(calls: seq<Claim>, ttl: real, max: int, next: Claim)
    requires Monotone(calls + [next])
    ensures Monotone(Run(calls, ttl, max).seen)
  {
    AcceptedInClockOrder(calls, ttl, max, next);
    RunKeepsWindow(calls, ttl, max);
    WindowInClockOrder(Run(calls, ttl, max).accepted, Run(calls, ttl, max).seen, next);
  }

  // The clock is read before the lock is taken, so two threads can enter with
  // their readings swapped. Then an expired id can still be refused: the exact
  // law needs clock order, the at-most-once half does not.
  lemma SwappedReadingsKeepAnExpiredId()
    ensures var calls := [Claim("a", 5.0), Claim("b", 0.0)];
            var late := Claim("b", 11.0);
            && late.at - calls[1].at > 10.0
            && Latest(Run(calls, 10.0, 10).accepted, "b", 1)
            && !Grants(Run(calls, 10.0, 10).seen, 10.0, 10, late)
  {
    var a, b := Claim("a", 5.0), Claim("b", 0.0);
    assert [a, b][..1] == [a] && [a][..0] == [];
    assert Run([a], 10.0, 10) == Log([a], [a]);
    assert Run([a, b], 10.0, 10) == Log([a, b], [a, b]);
    assert Evict([a, b], 10.0, 10, 11.0)[1].id == "b";
  }
}
