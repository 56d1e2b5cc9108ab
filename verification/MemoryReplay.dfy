/** The process-local replay guard of routeauth.go. It reads its clock before it takes its lock, so
    the calls are listed here in the order in which they hold the lock, each with the time it read. */
module MemoryReplay {
  import opened Replay

  datatype Call = Call(jti: Jti, expiry: int, now: int)

  /** Expiries are instants here, not milliseconds. */
  function Unpassed(used: UsedMap, now: int): UsedMap
  {
    map jti | jti in used && used[jti] > now :: used[jti]
  }

  function Consume(used: UsedMap, c: Call): (UsedMap, bool)
  {
    var kept := Unpassed(used, c.now);
    if c.jti in kept then (kept, false) else (kept[c.jti := c.expiry], true)
  }

  /** The table after the first `n` calls. */
  function After(calls: seq<Call>, n: nat): UsedMap
    requires n <= |calls|
  {
    if n == 0 then map[] else Consume(After(calls, n - 1), calls[n - 1]).0
  }

  predicate Succeeds(calls: seq<Call>, k: nat)
    requires k < |calls|
  {
    Consume(After(calls, k), calls[k]).1
  }

  /** `i` is the last success of its JTI before `j`. */
  predicate LastSuccess(calls: seq<Call>, i: nat, j: nat)
    requires i < j < |calls|
  {
    && Succeeds(calls, i) && calls[i].jti == calls[j].jti
    && forall k :: i < k < j && calls[k].jti == calls[i].jti ==> !Succeeds(calls, k)
  }

  /** Some caller between the two, or the second one itself, read a time at or past the expiry. */
  predicate Outlived(calls: seq<Call>, i: nat, n: nat)
    requires i < n <= |calls|
  {
    exists k :: i < k < n && calls[k].now >= calls[i].expiry
  }

  lemma {:induction false} Remembered(calls: seq<Call>, i: nat, j: nat, n: nat)
    requires i < j < |calls| && LastSuccess(calls, i, j) && i < n <= j
    ensures Outlived(calls, i, n) ==> calls[i].jti !in After(calls, n)
    ensures !Outlived(calls, i, n) ==>
      calls[i].jti in After(calls, n) && After(calls, n)[calls[i].jti] == calls[i].expiry
    decreases n
  {
    if n > i + 1 {
      Remembered(calls, i, j, n - 1);
      assert Outlived(calls, i, n) <==> Outlived(calls, i, n - 1) || calls[n - 1].now >= calls[i].expiry;
      if calls[n - 1].jti == calls[i].jti {
        assert !Succeeds(calls, n - 1);
      }
    }
  }

  /** Exactly when a consumed JTI is granted again: some call that held the lock in between, or this
      one, had read a time at or past the first expiry. */
  lemma GrantedAgainExactlyWhenOutlived(calls: seq<Call>, i: nat, j: nat)
    requires i < j < |calls| && LastSuccess(calls, i, j)
    ensures Succeeds(calls, j) <==> Outlived(calls, i, j + 1)
  {
    Remembered(calls, i, j, j);
    assert Outlived(calls, i, j + 1) <==> Outlived(calls, i, j) || calls[j].now >= calls[i].expiry;
  }

  /** If the lock is taken in clock order, a JTI is granted once until it expires. */
  lemma SingleUseInClockOrder(calls: seq<Call>, i: nat, j: nat)
    requires i < j < |calls| && LastSuccess(calls, i, j)
    requires forall a, b :: 0 <= a < b < |calls| ==> calls[a].now <= calls[b].now
    ensures Succeeds(calls, j) <==> calls[j].now >= calls[i].expiry
  {
    GrantedAgainExactlyWhenOutlived(calls, i, j);
  }

  /** Without that, one JTI is granted twice before its expiry: the third caller read the clock early
      and another caller with a later time removed the record before it got the lock. */
  lemma GrantedTwiceBeforeExpiry()
    ensures var calls := [Call("a", 10, 0), Call("b", 20, 11), Call("a", 10, 5)];
      Succeeds(calls, 0) && Succeeds(calls, 2) && calls[2].now < calls[0].expiry
  {
    var calls := [Call("a", 10, 0), Call("b", 20, 11), Call("a", 10, 5)];
    assert After(calls, 1) == map["a" := 10];
    assert Unpassed(After(calls, 1), 11) == map[];
    assert After(calls, 2) == map["b" := 20];
    assert "a" !in After(calls, 2);
  }

  class MemoryGuard {
    var used: UsedMap

    constructor ()
      ensures used == map[]
    {
      used := map[];
    }

    method ConsumeRouteAuthorization(c: Call) returns (ok: bool)
      modifies this
      ensures (used, ok) == Consume(old(used), c)
    {
      var todo := used.Keys;
      ghost var before := used;
      while todo != {}
        invariant todo <= used.Keys
        invariant used == map k | k in before && (k in todo || before[k] > c.now) :: before[k]
        decreases |todo|
      {
        var k :| k in todo;
        todo := todo - {k};
        if used[k] <= c.now {
          used := used - {k};
        }
      }
      assert used == Unpassed(before, c.now);
      if c.jti in used {
        return false;
      }
      used := used[c.jti := c.expiry];
      return true;
    }
  }
}
