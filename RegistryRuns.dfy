/**
 * Runs of reap passes over one registry: the pending list after a pass at
 * each player-turn count in a sequence, which entries fire and when, and
 * why an entry with a positive lifetime is never stranded while ADD_TURN
 * reaps on every turn.
 */
module RegistryRuns {
  import opened TurnSystem

  /** The pending list after reap passes at the player-turn counts `ps`, in order. */
  function PendingAfter(s: seq<DestroyAfterRounds>, ps: seq<int>): seq<DestroyAfterRounds>
    decreases |ps|
  {
    if ps == [] then s else Kept(PendingAfter(s, ps[..|ps| - 1]), ps[|ps| - 1])
  }

  /** An entry is still pending after a run of reap passes exactly when none of them was at its expiry round. */
  lemma {:induction false} PendingAfterMembers(s: seq<DestroyAfterRounds>, ps: seq<int>, e: DestroyAfterRounds)
    ensures e in PendingAfter(s, ps) <==> e in s && forall i | 0 <= i < |ps| :: ps[i] != e.destroyOnRound
  {
    if ps != [] {
      var init, p := ps[..|ps| - 1], ps[|ps| - 1];
      PendingAfterMembers(s, init, e);
      KeptMembers(PendingAfter(s, init), p);
      assert forall i | 0 <= i < |init| :: init[i] == ps[i];
    }
  }

  /** A reap pass fires an entry at the first pass held at its expiry round, provided it was registered before the run. */
  lemma FiresWhenDue(s: seq<DestroyAfterRounds>, ps: seq<int>, e: DestroyAfterRounds, k: nat)
    requires e in s && k < |ps| && ps[k] == e.destroyOnRound
    requires forall i | 0 <= i < k :: ps[i] != e.destroyOnRound
    ensures e in Fired(PendingAfter(s, ps[..k]), ps[k])
  {
    PendingAfterMembers(s, ps[..k], e);
    FiredMembers(PendingAfter(s, ps[..k]), ps[k]);
  }

  /** Once fired, an entry never fires again in a later pass. */
  lemma FiresAtMostOnce(s: seq<DestroyAfterRounds>, ps: seq<int>, e: DestroyAfterRounds, k: nat, j: nat)
    requires k < j < |ps|
    requires e in Fired(PendingAfter(s, ps[..k]), ps[k])
    ensures e !in Fired(PendingAfter(s, ps[..j]), ps[j])
  {
    FiredMembers(PendingAfter(s, ps[..k]), ps[k]);
    FiredMembers(PendingAfter(s, ps[..j]), ps[j]);
    PendingAfterMembers(s, ps[..j], e);
    assert ps[..j][k] == ps[k];
  }

  /** The player-turn count seen by the pass before pass `i` (the starting count `p0` for the first). */
  function PreviousCount(p0: int, ps: seq<int>, i: nat): int
    requires i < |ps|
  {
    if i == 0 then p0 else ps[i - 1]
  }

  /** Passes run on every turn: the player-turn count moves up by zero or one between consecutive passes. */
  ghost predicate EveryTurnReaped(p0: int, ps: seq<int>) {
    forall i | 0 <= i < |ps| :: PreviousCount(p0, ps, i) <= ps[i] <= PreviousCount(p0, ps, i) + 1
  }

  /** Counts that move by at most one per pass take every value between the start and the last count. */
  lemma {:induction false} NoCountSkipped(p0: int, ps: seq<int>, r: int)
    requires EveryTurnReaped(p0, ps)
    requires ps != [] && p0 < r <= ps[|ps| - 1]
    ensures exists i :: 0 <= i < |ps| && ps[i] == r
  {
    var n := |ps|;
    if n == 1 {
      assert PreviousCount(p0, ps, 0) == p0;
      assert ps[0] == r;
    } else if r <= ps[n - 2] {
      var init := ps[..n - 1];
      assert EveryTurnReaped(p0, init) by {
        forall i | 0 <= i < |init| ensures PreviousCount(p0, init, i) <= init[i] <= PreviousCount(p0, init, i) + 1 {
          assert PreviousCount(p0, init, i) == PreviousCount(p0, ps, i);
        }
      }
      NoCountSkipped(p0, init, r);
      var i :| 0 <= i < |init| && init[i] == r;
      assert ps[i] == r;
    } else {
      assert PreviousCount(p0, ps, n - 1) == ps[n - 2];
      assert ps[n - 1] == r;
    }
  }

  /**
   * When a reap pass runs on every turn, an entry registered ahead of the
   * count is gone once the count reaches its expiry round: nothing is stranded.
   */
  lemma NothingStranded(s: seq<DestroyAfterRounds>, p0: int, ps: seq<int>, e: DestroyAfterRounds)
    requires AllAhead(s, p0) && e in s
    requires EveryTurnReaped(p0, ps)
    requires ps != [] && ps[|ps| - 1] >= e.destroyOnRound
    ensures e !in PendingAfter(s, ps)
  {
    NoCountSkipped(p0, ps, e.destroyOnRound);
    PendingAfterMembers(s, ps, e);
  }

  /** An entry whose round the count has already passed is never fired and stays pending for good. */
  lemma StrandedStaysPending(s: seq<DestroyAfterRounds>, ps: seq<int>, e: DestroyAfterRounds)
    requires e in s
    requires forall i | 0 <= i < |ps| :: ps[i] > e.destroyOnRound
    ensures e in PendingAfter(s, ps)
  {
    PendingAfterMembers(s, ps, e);
  }
}
