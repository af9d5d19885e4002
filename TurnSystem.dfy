/**
 * The turn-based system object: the turn counters it keeps in fields, the
 * pending lists of skills that expire after a number of player turns, the
 * reaping that ADD_TURN runs over them, and the round-limit check. The maze
 * generator and the game manager are external collaborators reduced to the
 * one piece of state each call touches.
 */
module TurnSystem {
  import opened TurnClock
  import opened ListOps

  /** The maze's wall-direction enumeration, by its underlying value. */
  type WallType = int

  /** An entry of the maze's internal wall table: cell x, cell y, wall direction. */
  type WallKey = (int, int, WallType)

  /** A scene object: its identity and the coordinates of the maze cell it is parented to. */
  datatype GameObject = GameObject(id: nat, cellX: int, cellY: int)

  /** The maze generator, reduced to its internal wall table. */
  class MazeGenerator {
    var wallState: map<WallKey, bool>

    constructor (wallState: map<WallKey, bool>)
      ensures this.wallState == wallState
    {
      this.wallState := wallState;
    }

    /** Records whether the wall at (x, y, wallType) is present; nothing else in the table changes. */
    method SetWallInternalState(x: int, y: int, wallType: WallType, present: bool)
      modifies this`wallState
      ensures wallState == old(wallState)[(x, y, wallType) := present]
    {
      wallState := wallState[(x, y, wallType) := present];
    }
  }

  /** The game manager, reduced to the reasons it has been asked to end the game for. */
  class GameManager {
    var loseReasons: seq<string>

    constructor ()
      ensures loseReasons == []
    {
      loseReasons := [];
    }

    method Lose(reason: string)
      modifies this`loseReasons
      ensures loseReasons == old(loseReasons) + [reason]
    {
      loseReasons := loseReasons + [reason];
    }
  }

  /** The entries of `s` whose expiry round is `p`, in list order: those a reap pass fires. */
  function Fired(s: seq<DestroyAfterRounds>, p: int): seq<DestroyAfterRounds> {
    if s == [] then []
    else (if s[0].destroyOnRound == p then [s[0]] else []) + Fired(s[1..], p)
  }

  /** The entries of `s` whose expiry round is not `p`, in list order: those a reap pass leaves pending. */
  function Kept(s: seq<DestroyAfterRounds>, p: int): seq<DestroyAfterRounds> {
    if s == [] then []
    else (if s[0].destroyOnRound != p then [s[0]] else []) + Kept(s[1..], p)
  }

  /** The wall-table entries the barrier entries `f` stand for. */
  ghost function WallsOf(f: seq<DestroyAfterRounds>): set<WallKey> {
    set e | e in f :: e.Wall()
  }

  /** The scene objects of the entries `f`. */
  ghost function Targets(f: seq<DestroyAfterRounds>): set<GameObject> {
    set e | e in f :: e.obToDestroy
  }

  /** The wall table after the walls of the fired barrier entries `f` were cleared one by one. */
  function ClearWalls(w: map<WallKey, bool>, f: seq<DestroyAfterRounds>): map<WallKey, bool>
    decreases |f|
  {
    if f == [] then w else ClearWalls(w, f[..|f| - 1])[f[|f| - 1].Wall() := false]
  }

  /** A reap pass fires exactly the entries of `s` whose expiry round is `p`. */
  lemma {:induction false} FiredMembers(s: seq<DestroyAfterRounds>, p: int)
    ensures forall e :: e in Fired(s, p) <==> e in s && e.destroyOnRound == p
  {
    if s != [] {
      FiredMembers(s[1..], p);
      assert s == [s[0]] + s[1..];
    }
  }

  /** A reap pass keeps exactly the entries of `s` whose expiry round is not `p`; one whose round has passed stays for good. */
  lemma {:induction false} KeptMembers(s: seq<DestroyAfterRounds>, p: int)
    ensures forall e :: e in Kept(s, p) <==> e in s && e.destroyOnRound != p
  {
    if s != [] {
      KeptMembers(s[1..], p);
      assert s == [s[0]] + s[1..];
    }
  }

  /**
   * Clearing the walls of the barrier entries `f` sets each of their entries
   * of the wall table to false (adding it if absent) and leaves every other
   * entry as it was.
   */
  lemma {:induction false} ClearWallsEffect(w: map<WallKey, bool>, f: seq<DestroyAfterRounds>)
    ensures ClearWalls(w, f).Keys == w.Keys + WallsOf(f)
    ensures forall e :: e in f ==> ClearWalls(w, f)[e.Wall()] == false
    ensures forall k :: k in w && k !in WallsOf(f) ==> ClearWalls(w, f)[k] == w[k]
    decreases |f|
  {
    if f != [] {
      var init, e := f[..|f| - 1], f[|f| - 1];
      ClearWallsEffect(w, init);
      assert f == init + [e];
      assert WallsOf(f) == WallsOf(init) + {e.Wall()};
    }
  }

  lemma TargetsSnoc(f: seq<DestroyAfterRounds>, e: DestroyAfterRounds)
    ensures Targets(f + [e]) == Targets(f) + {e.obToDestroy}
  {
  }

  lemma ClearWallsSnoc(w: map<WallKey, bool>, f: seq<DestroyAfterRounds>, e: DestroyAfterRounds)
    ensures ClearWalls(w, f + [e]) == ClearWalls(w, f)[e.Wall() := false]
  {
    assert (f + [e])[..|f|] == f;
  }

  /** One step of the barrier scan: entry `i` of `s` extends the fired list, clears its wall and adds its object exactly when it expires now. */
  lemma BarrierStep(w: map<WallKey, bool>, s: seq<DestroyAfterRounds>, i: nat, p: int)
    requires i < |s|
    ensures s[i].destroyOnRound == p ==>
              Fired(s[..i + 1], p) == Fired(s[..i], p) + [s[i]] &&
              ClearWalls(w, Fired(s[..i + 1], p)) == ClearWalls(w, Fired(s[..i], p))[s[i].Wall() := false] &&
              Targets(Fired(s[..i + 1], p)) == Targets(Fired(s[..i], p)) + {s[i].obToDestroy}
    ensures s[i].destroyOnRound != p ==> Fired(s[..i + 1], p) == Fired(s[..i], p)
  {
    assert s[..i + 1] == s[..i] + [s[i]];
    FiredSnoc(s[..i], s[i], p);
    if s[i].destroyOnRound == p {
      TargetsSnoc(Fired(s[..i], p), s[i]);
      ClearWallsSnoc(w, Fired(s[..i], p), s[i]);
    }
  }

  /** One step of the AOE scan: entry `i` of `s` extends the fired list and adds its object exactly when it expires now. */
  lemma AoeStep(s: seq<DestroyAfterRounds>, i: nat, p: int)
    requires i < |s|
    ensures s[i].destroyOnRound == p ==>
              Fired(s[..i + 1], p) == Fired(s[..i], p) + [s[i]] &&
              Targets(Fired(s[..i + 1], p)) == Targets(Fired(s[..i], p)) + {s[i].obToDestroy}
    ensures s[i].destroyOnRound != p ==> Fired(s[..i + 1], p) == Fired(s[..i], p)
  {
    assert s[..i + 1] == s[..i] + [s[i]];
    FiredSnoc(s[..i], s[i], p);
    if s[i].destroyOnRound == p {
      TargetsSnoc(Fired(s[..i], p), s[i]);
    }
  }

  /** Every pending entry expires on a later player turn than `p`: none has been skipped over. */
  ghost predicate AllAhead(s: seq<DestroyAfterRounds>, p: int) {
    forall e :: e in s ==> e.destroyOnRound > p
  }

  /** A pending list holds each entry once, and none that is already in the ready list. */
  ghost predicate Registered(pending: seq<DestroyAfterRounds>, ready: seq<DestroyAfterRounds>) {
    NoDup(pending) && forall e :: e in pending ==> e !in ready
  }

  /** A reap pass splits the pending list: every entry is fired or kept, and none is both or lost. */
  lemma {:induction false} ReapPartition(s: seq<DestroyAfterRounds>, p: int)
    ensures multiset(Fired(s, p)) + multiset(Kept(s, p)) == multiset(s)
  {
    if s != [] {
      ReapPartition(s[1..], p);
      assert s == [s[0]] + s[1..];
    }
  }

  /** Scanning one more entry extends the fired list by that entry exactly when it expires now. */
  lemma {:induction false} FiredSnoc(s: seq<DestroyAfterRounds>, x: DestroyAfterRounds, p: int)
    ensures Fired(s + [x], p) == Fired(s, p) + (if x.destroyOnRound == p then [x] else [])
  {
    var tail := if x.destroyOnRound == p then [x] else [];
    if s == [] {
      assert [x][0] == x && [x][1..] == [];
      assert Fired([x], p) == tail + Fired([], p);
    } else {
      var t := s[1..];
      var head := if s[0].destroyOnRound == p then [s[0]] else [];
      FiredSnoc(t, x, p);
      assert (s + [x])[0] == s[0] && (s + [x])[1..] == t + [x];
      assert Fired(s + [x], p) == head + Fired(t + [x], p);
      assert Fired(s, p) == head + Fired(t, p);
    }
  }

  /** Filtering out a set that contains exactly the expiring entries of `s` leaves the kept entries. */
  lemma {:induction false} WithoutIsKept(s: seq<DestroyAfterRounds>, x: set<DestroyAfterRounds>, p: int)
    requires forall e :: e in s ==> (e in x <==> e.destroyOnRound == p)
    ensures Without(s, x) == Kept(s, p)
  {
    if s != [] {
      WithoutIsKept(s[1..], x, p);
    }
  }

  /**
   * The second phase of a reap: removing every ready entry (the earlier ones,
   * no longer pending, and those just fired) from a list without duplicates
   * leaves exactly the entries that do not expire now, in their order.
   */
  lemma Reaped(s: seq<DestroyAfterRounds>, ready: seq<DestroyAfterRounds>, p: int)
    requires Registered(s, ready)
    ensures RemoveEach(s, ready + Fired(s, p)) == Kept(s, p)
  {
    RemoveEachIsWithout(s, ready + Fired(s, p));
    FiredMembers(s, p);
    forall e | e in s ensures e in Elements(ready + Fired(s, p)) <==> e.destroyOnRound == p {
      assert e in ready + Fired(s, p) <==> e in ready || e in Fired(s, p);
    }
    WithoutIsKept(s, Elements(ready + Fired(s, p)), p);
  }

  /** After a reap the pending list is still free of duplicates and disjoint from the grown ready list. */
  lemma ReapKeepsRegistered(s: seq<DestroyAfterRounds>, ready: seq<DestroyAfterRounds>, p: int)
    requires Registered(s, ready)
    ensures Registered(Kept(s, p), ready + Fired(s, p))
  {
    Reaped(s, ready, p);
    RemoveEachIsWithout(s, ready + Fired(s, p));
    WithoutKeepsNoDup(s, Elements(ready + Fired(s, p)));
    KeptMembers(s, p);
    FiredMembers(s, p);
  }

  /**
   * A reap after at most one further player turn keeps the pending list clear
   * of skipped entries; when the player count did not move, nothing fires.
   */
  lemma ReapKeepsAllAhead(s: seq<DestroyAfterRounds>, p: int, q: int)
    requires AllAhead(s, p) && p <= q <= p + 1
    ensures AllAhead(Kept(s, q), q)
    ensures q == p ==> Fired(s, q) == []
  {
    KeptMembers(s, q);
    FiredMembers(s, q);
    assert Fired(s, q) == [] || Fired(s, q)[0] in Fired(s, q);
  }

  /** The turn system: the counters, the display value and the two registries of expiring skills. */
  class TurnBasedSystem {
    var currentTurn: TurnType
    var roundsUntilDefeat: int
    var totalTurnCount: int
    var playerTurnCount: int
    var aiTurnCount: int
    var eventTurnCount: int
    /** The AOE-fear status that Player turns reset and AI turns trigger. */
    var aoeFear: bool
    /** The number shown on the "Turns Left" label. */
    var turnsLeft: int

    var destroyableBarriers: seq<DestroyAfterRounds>
    var rdyToDestroyBarriers: seq<DestroyAfterRounds>
    var destroyableAOEs: seq<DestroyAfterRounds>
    var rdyToDestroyAOEs: seq<DestroyAfterRounds>

    /** Scene objects set inactive by an expired barrier, and destroyed by an expired AOE. */
    ghost var deactivated: set<GameObject>
    ghost var destroyed: set<GameObject>

    const maze: MazeGenerator
    const gameManager: GameManager

    ghost predicate Valid()
      reads this`totalTurnCount, this`playerTurnCount, this`aiTurnCount, this`eventTurnCount, this`currentTurn,
            this`destroyableBarriers, this`rdyToDestroyBarriers, this`destroyableAOEs, this`rdyToDestroyAOEs
    {
      CountersValid() && RegistriesValid()
    }

    /** No counter is negative, the total is at least their sum, and some real turn is current. */
    ghost predicate CountersValid()
      reads this`totalTurnCount, this`playerTurnCount, this`aiTurnCount, this`eventTurnCount, this`currentTurn
    {
      0 <= playerTurnCount && 0 <= aiTurnCount && 0 <= eventTurnCount &&
      playerTurnCount + aiTurnCount + eventTurnCount <= totalTurnCount &&
      currentTurn != NeverSet
    }

    ghost predicate RegistriesValid()
      reads this`destroyableBarriers, this`rdyToDestroyBarriers, this`destroyableAOEs, this`rdyToDestroyAOEs
    {
      Registered(destroyableBarriers, rdyToDestroyBarriers) &&
      Registered(destroyableAOEs, rdyToDestroyAOEs)
    }

    /** The turn-clock part of the state. */
    function Snapshot(): Clock
      reads this`currentTurn, this`totalTurnCount, this`playerTurnCount, this`aiTurnCount, this`eventTurnCount,
            this`aoeFear
    {
      Clock(currentTurn, totalTurnCount, playerTurnCount, aiTurnCount, eventTurnCount, aoeFear)
    }

    /** The field initialisers; `currentTurn` starts as Player, the default of its enumeration. */
    constructor (maze: MazeGenerator, gameManager: GameManager, roundsUntilDefeat: int := 10)
      ensures Valid()
      ensures Snapshot() == Initial
      ensures this.roundsUntilDefeat == roundsUntilDefeat
      ensures this.maze == maze && this.gameManager == gameManager
      ensures destroyableBarriers == [] && rdyToDestroyBarriers == []
      ensures destroyableAOEs == [] && rdyToDestroyAOEs == []
      ensures deactivated == {} && destroyed == {}
    {
      this.maze := maze;
      this.gameManager := gameManager;
      this.roundsUntilDefeat := roundsUntilDefeat;
      currentTurn := Player;
      totalTurnCount, playerTurnCount, aiTurnCount, eventTurnCount := 0, 0, 0, 0;
      aoeFear := false;
      destroyableBarriers, rdyToDestroyBarriers := [], [];
      destroyableAOEs, rdyToDestroyAOEs := [], [];
      deactivated, destroyed := {}, {};
    }

    /** Start: shows the turns left and makes it the player's turn. */
    method Start()
      requires Valid()
      modifies this`currentTurn, this`turnsLeft
      ensures Valid()
      ensures currentTurn == Player
      ensures turnsLeft == TurnsLeft(roundsUntilDefeat, aiTurnCount)
    {
      turnsLeft := TurnsLeft(roundsUntilDefeat, aiTurnCount);
      currentTurn := Player;
    }

    /** IS_AI_TURN. */
    function IsAiTurn(): (r: bool)
      reads this`currentTurn
      ensures r <==> currentTurn == AI
    {
      currentTurn == AI
    }

    /** IS_PLAYER_TURN. */
    function IsPlayerTurn(): (r: bool)
      reads this`currentTurn
      ensures r <==> currentTurn == Player
    {
      currentTurn == Player
    }

    /** GET_TURN_COUNT: with no argument, the total. */
    function GetTurnCount(tt: TurnType := NeverSet): (r: int)
      reads this`totalTurnCount, this`playerTurnCount, this`aiTurnCount, this`eventTurnCount
      ensures tt == Player ==> r == playerTurnCount
      ensures tt == AI ==> r == aiTurnCount
      ensures tt == Event ==> r == eventTurnCount
      ensures tt == NeverSet ==> r == totalTurnCount
    {
      match tt
      case Player => playerTurnCount
      case AI => aiTurnCount
      case Event => eventTurnCount
      case NeverSet => totalTurnCount
    }

    /** ADD_TURN: counts the turn, updates the display and reaps both registries. */
    method AddTurn(tt: TurnType)
      requires Valid()
      modifies this, maze`wallState
      ensures Valid()
      ensures Snapshot() == Advance(old(Snapshot()), tt)
      ensures roundsUntilDefeat == old(roundsUntilDefeat)
      ensures turnsLeft == TurnsLeft(roundsUntilDefeat, aiTurnCount)
      ensures destroyableBarriers == Kept(old(destroyableBarriers), playerTurnCount)
      ensures rdyToDestroyBarriers == old(rdyToDestroyBarriers) + Fired(old(destroyableBarriers), playerTurnCount)
      ensures maze.wallState == ClearWalls(old(maze.wallState), Fired(old(destroyableBarriers), playerTurnCount))
      ensures deactivated == old(deactivated) + Targets(Fired(old(destroyableBarriers), playerTurnCount))
      ensures destroyableAOEs == Kept(old(destroyableAOEs), playerTurnCount)
      ensures rdyToDestroyAOEs == old(rdyToDestroyAOEs) + Fired(old(destroyableAOEs), playerTurnCount)
      ensures destroyed == old(destroyed) + Targets(Fired(old(destroyableAOEs), playerTurnCount))
      ensures AllAhead(old(destroyableBarriers), old(playerTurnCount)) ==> AllAhead(destroyableBarriers, playerTurnCount)
      ensures AllAhead(old(destroyableAOEs), old(playerTurnCount)) ==> AllAhead(destroyableAOEs, playerTurnCount)
    {
      ghost var p0, b0, a0 := playerTurnCount, destroyableBarriers, destroyableAOEs;
      CountTurn(tt);
      Reap();
      if AllAhead(b0, p0) {
        ReapKeepsAllAhead(b0, p0, playerTurnCount);
      }
      if AllAhead(a0, p0) {
        ReapKeepsAllAhead(a0, p0, playerTurnCount);
      }
    }

    /** The four reap loops of ADD_TURN, barriers first, against the current player-turn count. */
    method Reap()
      requires RegistriesValid()
      modifies this`destroyableBarriers, this`rdyToDestroyBarriers, this`deactivated, maze`wallState,
               this`destroyableAOEs, this`rdyToDestroyAOEs, this`destroyed
      ensures RegistriesValid()
      ensures destroyableBarriers == Kept(old(destroyableBarriers), playerTurnCount)
      ensures rdyToDestroyBarriers == old(rdyToDestroyBarriers) + Fired(old(destroyableBarriers), playerTurnCount)
      ensures maze.wallState == ClearWalls(old(maze.wallState), Fired(old(destroyableBarriers), playerTurnCount))
      ensures deactivated == old(deactivated) + Targets(Fired(old(destroyableBarriers), playerTurnCount))
      ensures destroyableAOEs == Kept(old(destroyableAOEs), playerTurnCount)
      ensures rdyToDestroyAOEs == old(rdyToDestroyAOEs) + Fired(old(destroyableAOEs), playerTurnCount)
      ensures destroyed == old(destroyed) + Targets(Fired(old(destroyableAOEs), playerTurnCount))
    {
      ReapBarriers();
      ReapAOEs();
    }

    /** The counter part of ADD_TURN: the total always, then the dispatch on the turn type, then the display. */
    method CountTurn(tt: TurnType)
      requires CountersValid()
      modifies this`totalTurnCount, this`playerTurnCount, this`aiTurnCount, this`eventTurnCount,
               this`currentTurn, this`aoeFear, this`turnsLeft
      ensures CountersValid()
      ensures Snapshot() == Advance(old(Snapshot()), tt)
      ensures turnsLeft == TurnsLeft(roundsUntilDefeat, aiTurnCount)
      ensures totalTurnCount == old(totalTurnCount) + 1
      ensures playerTurnCount <= old(playerTurnCount) + 1 && playerTurnCount >= old(playerTurnCount)
      ensures tt == Player ==>
                !aoeFear && currentTurn == Player && playerTurnCount == old(playerTurnCount) + 1 &&
                aiTurnCount == old(aiTurnCount) && eventTurnCount == old(eventTurnCount)
      ensures tt == AI ==>
                aoeFear && currentTurn == AI && aiTurnCount == old(aiTurnCount) + 1 &&
                playerTurnCount == old(playerTurnCount) && eventTurnCount == old(eventTurnCount)
      ensures tt == Event ==>
                aoeFear == old(aoeFear) && currentTurn == old(currentTurn) && eventTurnCount == old(eventTurnCount) + 1 &&
                playerTurnCount == old(playerTurnCount) && aiTurnCount == old(aiTurnCount)
      ensures tt == NeverSet ==>
                aoeFear == old(aoeFear) && currentTurn == old(currentTurn) && eventTurnCount == old(eventTurnCount) &&
                playerTurnCount == old(playerTurnCount) && aiTurnCount == old(aiTurnCount)
    {
      totalTurnCount := totalTurnCount + 1;
      match tt {
        case Player =>
          aoeFear := false;
          currentTurn := Player;
          playerTurnCount := playerTurnCount + 1;
        case AI =>
          aoeFear := true;
          currentTurn := AI;
          aiTurnCount := aiTurnCount + 1;
        case Event =>
          eventTurnCount := eventTurnCount + 1;
        case NeverSet =>
      }
      turnsLeft := TurnsLeft(roundsUntilDefeat, aiTurnCount);
    }

    /** The two barrier loops of ADD_TURN: fire every expiring entry, then remove the ready ones. */
    method ReapBarriers()
      requires RegistriesValid()
      modifies this`destroyableBarriers, this`rdyToDestroyBarriers, this`deactivated, maze`wallState
      ensures RegistriesValid()
      ensures destroyableBarriers == Kept(old(destroyableBarriers), playerTurnCount)
      ensures rdyToDestroyBarriers == old(rdyToDestroyBarriers) + Fired(old(destroyableBarriers), playerTurnCount)
      ensures maze.wallState == ClearWalls(old(maze.wallState), Fired(old(destroyableBarriers), playerTurnCount))
      ensures deactivated == old(deactivated) + Targets(Fired(old(destroyableBarriers), playerTurnCount))
    {
      ghost var pending, ready0 := destroyableBarriers, rdyToDestroyBarriers;
      FireBarriers();
      destroyableBarriers := RemoveEachInOrder(destroyableBarriers, rdyToDestroyBarriers);
      Reaped(pending, ready0, playerTurnCount);
      ReapKeepsRegistered(pending, ready0, playerTurnCount);
    }

    /** The first barrier loop: every pending barrier checks itself against the player-turn count. */
    method FireBarriers()
      modifies this`rdyToDestroyBarriers, this`deactivated, maze`wallState
      ensures rdyToDestroyBarriers == old(rdyToDestroyBarriers) + Fired(destroyableBarriers, playerTurnCount)
      ensures maze.wallState == ClearWalls(old(maze.wallState), Fired(destroyableBarriers, playerTurnCount))
      ensures deactivated == old(deactivated) + Targets(Fired(destroyableBarriers, playerTurnCount))
    {
      var pending, p := destroyableBarriers, playerTurnCount;
      ghost var ready0, walls0, deactivated0 := rdyToDestroyBarriers, maze.wallState, deactivated;
      var i := 0;
      while i < |pending|
        invariant 0 <= i <= |pending|
        invariant rdyToDestroyBarriers == ready0 + Fired(pending[..i], p)
        invariant maze.wallState == ClearWalls(walls0, Fired(pending[..i], p))
        invariant deactivated == deactivated0 + Targets(Fired(pending[..i], p))
      {
        var e := pending[i];
        ghost var done := Fired(pending[..i], p);
        e.CheckBarrierDestroy(this);
        BarrierStep(walls0, pending, i, p);
        if e.destroyOnRound == p {
          assert ready0 + done + [e] == ready0 + (done + [e]);
        }
        i := i + 1;
      }
      assert pending[..i] == pending;
    }

    /** The two AOE loops of ADD_TURN: fire every expiring entry, then remove the ready ones. */
    method ReapAOEs()
      requires RegistriesValid()
      modifies this`destroyableAOEs, this`rdyToDestroyAOEs, this`destroyed
      ensures RegistriesValid()
      ensures destroyableAOEs == Kept(old(destroyableAOEs), playerTurnCount)
      ensures rdyToDestroyAOEs == old(rdyToDestroyAOEs) + Fired(old(destroyableAOEs), playerTurnCount)
      ensures destroyed == old(destroyed) + Targets(Fired(old(destroyableAOEs), playerTurnCount))
    {
      ghost var pending, ready0 := destroyableAOEs, rdyToDestroyAOEs;
      FireAOEs();
      destroyableAOEs := RemoveEachInOrder(destroyableAOEs, rdyToDestroyAOEs);
      Reaped(pending, ready0, playerTurnCount);
      ReapKeepsRegistered(pending, ready0, playerTurnCount);
    }

    /** The first AOE loop: every pending AOE checks itself against the player-turn count. */
    method FireAOEs()
      modifies this`rdyToDestroyAOEs, this`destroyed
      ensures rdyToDestroyAOEs == old(rdyToDestroyAOEs) + Fired(destroyableAOEs, playerTurnCount)
      ensures destroyed == old(destroyed) + Targets(Fired(destroyableAOEs, playerTurnCount))
    {
      var pending, p := destroyableAOEs, playerTurnCount;
      ghost var ready0, destroyed0 := rdyToDestroyAOEs, destroyed;
      var i := 0;
      while i < |pending|
        invariant 0 <= i <= |pending|
        invariant rdyToDestroyAOEs == ready0 + Fired(pending[..i], p)
        invariant destroyed == destroyed0 + Targets(Fired(pending[..i], p))
      {
        var e := pending[i];
        ghost var done := Fired(pending[..i], p);
        e.CheckAOEDestroy(this);
        AoeStep(pending, i, p);
        if e.destroyOnRound == p {
          assert ready0 + done + [e] == ready0 + (done + [e]);
        }
        i := i + 1;
      }
      assert pending[..i] == pending;
    }

    /** ROUND_CHECK: asks the game manager to end the game when the limit is reached on a player turn. */
    method RoundCheck()
      modifies gameManager`loseReasons
      ensures gameManager.loseReasons ==
                if RoundLimitReached(Snapshot(), roundsUntilDefeat) then old(gameManager.loseReasons) + [LoseReason]
                else old(gameManager.loseReasons)
    {
      if totalTurnCount == roundsUntilDefeat && IsPlayerTurn() {
        gameManager.Lose(LoseReason);
      }
    }
  }

  /** A skill object to be deactivated (barrier) or destroyed (AOE) on a given player turn. */
  class DestroyAfterRounds {
    /** The player-turn count on which this entry fires. */
    const destroyOnRound: int
    const obToDestroy: GameObject
    const wallType: WallType

    /** The entry of the maze's wall table this barrier stands for: the cell its object sits in, and its wall type. */
    function Wall(): (k: WallKey)
      ensures k.0 == obToDestroy.cellX && k.1 == obToDestroy.cellY && k.2 == wallType
    {
      (obToDestroy.cellX, obToDestroy.cellY, wallType)
    }

    /** Schedules a barrier to expire `rounds` player turns from now, at the end of the barrier list. */
    constructor Barrier(rounds: int, obj: GameObject, wT: WallType, sys: TurnBasedSystem)
      requires sys.Valid()
      modifies sys`destroyableBarriers
      ensures sys.Valid()
      ensures destroyOnRound == rounds + sys.playerTurnCount
      ensures obToDestroy == obj && wallType == wT
      ensures sys.destroyableBarriers == old(sys.destroyableBarriers) + [this]
      ensures rounds >= 1 && AllAhead(old(sys.destroyableBarriers), sys.playerTurnCount) ==>
                AllAhead(sys.destroyableBarriers, sys.playerTurnCount)
    {
      destroyOnRound := rounds + sys.playerTurnCount;
      obToDestroy := obj;
      wallType := wT;
      new;
      sys.destroyableBarriers := sys.destroyableBarriers + [this];
    }

    /** Schedules an AOE to be destroyed `rounds` player turns from now, at the end of the AOE list. */
    constructor Aoe(rounds: int, obj: GameObject, sys: TurnBasedSystem)
      requires sys.Valid()
      modifies sys`destroyableAOEs
      ensures sys.Valid()
      ensures destroyOnRound == rounds + sys.playerTurnCount
      ensures obToDestroy == obj
      ensures sys.destroyableAOEs == old(sys.destroyableAOEs) + [this]
      ensures rounds >= 1 && AllAhead(old(sys.destroyableAOEs), sys.playerTurnCount) ==>
                AllAhead(sys.destroyableAOEs, sys.playerTurnCount)
    {
      destroyOnRound := rounds + sys.playerTurnCount;
      obToDestroy := obj;
      wallType := 0;
      new;
      sys.destroyableAOEs := sys.destroyableAOEs + [this];
    }

    /** On its round, clears the barrier's wall in the maze table, deactivates it and marks it ready. */
    method CheckBarrierDestroy(sys: TurnBasedSystem)
      modifies sys`rdyToDestroyBarriers, sys`deactivated, sys.maze`wallState
      ensures destroyOnRound == sys.playerTurnCount ==>
                sys.maze.wallState == old(sys.maze.wallState)[Wall() := false] &&
                sys.deactivated == old(sys.deactivated) + {obToDestroy} &&
                sys.rdyToDestroyBarriers == old(sys.rdyToDestroyBarriers) + [this]
      ensures destroyOnRound != sys.playerTurnCount ==>
                sys.maze.wallState == old(sys.maze.wallState) &&
                sys.deactivated == old(sys.deactivated) &&
                sys.rdyToDestroyBarriers == old(sys.rdyToDestroyBarriers)
    {
      if destroyOnRound == sys.playerTurnCount {
        sys.maze.SetWallInternalState(obToDestroy.cellX, obToDestroy.cellY, wallType, false);
        sys.deactivated := sys.deactivated + {obToDestroy};
        sys.rdyToDestroyBarriers := sys.rdyToDestroyBarriers + [this];
      }
    }

    /** On its round, marks the AOE ready and destroys its object. */
    method CheckAOEDestroy(sys: TurnBasedSystem)
      modifies sys`rdyToDestroyAOEs, sys`destroyed
      ensures destroyOnRound == sys.playerTurnCount ==>
                sys.rdyToDestroyAOEs == old(sys.rdyToDestroyAOEs) + [this] &&
                sys.destroyed == old(sys.destroyed) + {obToDestroy}
      ensures destroyOnRound != sys.playerTurnCount ==>
                sys.rdyToDestroyAOEs == old(sys.rdyToDestroyAOEs) && sys.destroyed == old(sys.destroyed)
    {
      if destroyOnRound == sys.playerTurnCount {
        sys.rdyToDestroyAOEs := sys.rdyToDestroyAOEs + [this];
        sys.destroyed := sys.destroyed + {obToDestroy};
      }
    }
  }
}
