/**
 * The turn clock of the turn-based system as a value: whose turn it is, the
 * four turn counters and the AOE-fear flag, and how one added turn changes
 * them. The class TurnSystem.TurnBasedSystem keeps these in its fields and
 * its AddTurn method is proved to perform `Advance`; the lemmas here say what
 * any sequence of added turns does.
 */
module TurnClock {

  /** Turn categories; NeverSet is the default argument of the count query, never a turn that is taken. */
  datatype TurnType = Player | AI | Event | NeverSet

  /** The turn types that change whose turn it is. */
  predicate Active(tt: TurnType) {
    tt == Player || tt == AI
  }

  datatype Clock = Clock(
    currentTurn: TurnType,
    totalTurnCount: int,
    playerTurnCount: int,
    aiTurnCount: int,
    eventTurnCount: int,
    aoeFear: bool)

  /** The clock once the field initialisers and Start have run. */
  const Initial: Clock := Clock(Player, 0, 0, 0, 0, false)

  /**
   * The counter and turn updates of one ADD_TURN call (before the display and
   * the reaping): the total and the counter of the turn's own type rise by one,
   * the other counters stay, and only a Player or AI turn changes whose turn it
   * is and the AOE-fear flag.
   */
  function Advance(c: Clock, tt: TurnType): (r: Clock)
    ensures TurnCount(r) == TurnCount(c) + 1
    ensures TurnCount(r, tt) == TurnCount(c, tt) + 1
    ensures forall q | q != tt && q != NeverSet :: TurnCount(r, q) == TurnCount(c, q)
    ensures Active(tt) ==> r.currentTurn == tt && r.aoeFear == (tt == AI)
    ensures !Active(tt) ==> r.currentTurn == c.currentTurn && r.aoeFear == c.aoeFear
  {
    var c' := c.(totalTurnCount := c.totalTurnCount + 1);
    match tt
    case Player => c'.(aoeFear := false, currentTurn := Player, playerTurnCount := c.playerTurnCount + 1)
    case AI => c'.(aoeFear := true, currentTurn := AI, aiTurnCount := c.aiTurnCount + 1)
    case Event => c'.(eventTurnCount := c.eventTurnCount + 1)
    case NeverSet => c'
  }

  /**
   * GET_TURN_COUNT: the counter of one turn type, the total for NeverSet (the
   * default). On a clock whose counters are sane, no count exceeds the total.
   */
  function TurnCount(c: Clock, tt: TurnType := NeverSet): (r: int)
    ensures tt == NeverSet ==> r == c.totalTurnCount
    ensures Sane(c) ==> 0 <= r <= c.totalTurnCount
  {
    match tt
    case Player => c.playerTurnCount
    case AI => c.aiTurnCount
    case Event => c.eventTurnCount
    case NeverSet => c.totalTurnCount
  }

  predicate IsAiTurn(c: Clock) {
    c.currentTurn == AI
  }

  predicate IsPlayerTurn(c: Clock) {
    c.currentTurn == Player
  }

  /** The clock after the turns `tts` were added, in order. */
  function Run(c: Clock, tts: seq<TurnType>): Clock
    decreases |tts|
  {
    if tts == [] then c else Advance(Run(c, tts[..|tts| - 1]), tts[|tts| - 1])
  }

  /** No counter is negative and the total is at least their sum. */
  predicate Sane(c: Clock) {
    0 <= c.playerTurnCount && 0 <= c.aiTurnCount && 0 <= c.eventTurnCount &&
    c.playerTurnCount + c.aiTurnCount + c.eventTurnCount <= c.totalTurnCount
  }

  /** The total equals the sum of the three turn counters. */
  predicate Balanced(c: Clock) {
    c.totalTurnCount == c.playerTurnCount + c.aiTurnCount + c.eventTurnCount
  }

  /** C#'s `n / 2` on `int`: the quotient is truncated toward zero. */
  function HalfTowardZero(n: int): (h: int)
    ensures n >= 0 ==> 0 <= n - 2 * h <= 1
    ensures n < 0 ==> -1 <= n - 2 * h <= 0
  {
    if n >= 0 then n / 2 else -((-n) / 2)
  }

  /**
   * The "Turns Left" value shown after every turn; it is not clamped at zero.
   * For a non-negative limit, the value plus the AI turns taken is half the
   * limit rounded down, so it is negative exactly when the AI has taken more
   * than half the limit's turns.
   */
  function TurnsLeft(roundsUntilDefeat: int, aiTurnCount: int): (r: int)
    ensures roundsUntilDefeat >= 0 ==> (r < 0 <==> 2 * aiTurnCount > roundsUntilDefeat)
    ensures roundsUntilDefeat >= 0 ==> 0 <= roundsUntilDefeat - 2 * (r + aiTurnCount) <= 1
  {
    HalfTowardZero(roundsUntilDefeat) - aiTurnCount
  }

  /** The reason ROUND_CHECK hands to the game manager's Lose. */
  const LoseReason: string := "Summon opening missed"

  /** ROUND_CHECK's condition for losing the game: the limit is reached, and never on the AI's turn. */
  function RoundLimitReached(c: Clock, roundsUntilDefeat: int): (r: bool)
    ensures r ==> TurnCount(c) == roundsUntilDefeat && !IsAiTurn(c)
    ensures TurnCount(c) != roundsUntilDefeat ==> !r
  {
    c.totalTurnCount == roundsUntilDefeat && IsPlayerTurn(c)
  }

  lemma {:induction false} Multiplicities(tts: seq<TurnType>)
    ensures multiset(tts)[Player] + multiset(tts)[AI] + multiset(tts)[Event] + multiset(tts)[NeverSet] == |tts|
  {
    if tts != [] {
      var init, x := tts[..|tts| - 1], tts[|tts| - 1];
      Multiplicities(init);
      assert tts == init + [x];
      assert multiset(tts) == multiset(init) + multiset{x};
      match x
      case Player => assert multiset(tts)[Player] == multiset(init)[Player] + 1;
      case AI => assert multiset(tts)[AI] == multiset(init)[AI] + 1;
      case Event => assert multiset(tts)[Event] == multiset(init)[Event] + 1;
      case NeverSet => assert multiset(tts)[NeverSet] == multiset(init)[NeverSet] + 1;
    }
  }

  /** Every added turn raises the total by one and the counter of its own type by one. */
  lemma {:induction false} RunCounts(c: Clock, tts: seq<TurnType>)
    ensures Run(c, tts).totalTurnCount == c.totalTurnCount + |tts|
    ensures Run(c, tts).playerTurnCount == c.playerTurnCount + multiset(tts)[Player]
    ensures Run(c, tts).aiTurnCount == c.aiTurnCount + multiset(tts)[AI]
    ensures Run(c, tts).eventTurnCount == c.eventTurnCount + multiset(tts)[Event]
  {
    if tts != [] {
      var init := tts[..|tts| - 1];
      RunCounts(c, init);
      assert tts == init + [tts[|tts| - 1]];
    }
  }

  /** No counter ever decreases, and the total grows by exactly the number of turns added. */
  lemma {:induction false} RunNeverDecreases(c: Clock, tts: seq<TurnType>)
    ensures Run(c, tts).totalTurnCount == c.totalTurnCount + |tts|
    ensures Run(c, tts).playerTurnCount >= c.playerTurnCount
    ensures Run(c, tts).aiTurnCount >= c.aiTurnCount
    ensures Run(c, tts).eventTurnCount >= c.eventTurnCount
  {
    RunCounts(c, tts);
  }

  /** The count query after a run: the number of turns of that type, or of all turns for NeverSet. */
  lemma RunTurnCount(c: Clock, tts: seq<TurnType>, tt: TurnType)
    ensures TurnCount(Run(c, tts), tt) == TurnCount(c, tt) + (if tt == NeverSet then |tts| else multiset(tts)[tt])
  {
    RunCounts(c, tts);
  }

  /** The total stays the sum of the three counters exactly when no NeverSet turn is added; it never falls below it. */
  lemma {:induction false} RunBalanced(c: Clock, tts: seq<TurnType>)
    requires Balanced(c)
    ensures Balanced(Run(c, tts)) <==> NeverSet !in tts
    ensures Run(c, tts).totalTurnCount >= Run(c, tts).playerTurnCount + Run(c, tts).aiTurnCount + Run(c, tts).eventTurnCount
  {
    RunCounts(c, tts);
    Multiplicities(tts);
  }

  /** Event and NeverSet turns change neither whose turn it is nor the AOE-fear flag. */
  lemma {:induction false} RunInactive(c: Clock, tts: seq<TurnType>)
    requires forall i | 0 <= i < |tts| :: !Active(tts[i])
    ensures Run(c, tts).currentTurn == c.currentTurn && Run(c, tts).aoeFear == c.aoeFear
  {
    if tts != [] {
      var init := tts[..|tts| - 1];
      assert forall i | 0 <= i < |init| :: init[i] == tts[i];
      RunInactive(c, init);
      assert !Active(tts[|tts| - 1]);
    }
  }

  /**
   * Whose turn it is, and the AOE-fear flag, are decided by the last Player or
   * AI turn added (at index `i`): the flag is raised exactly when that was an AI turn.
   */
  lemma {:induction false} RunWhoseTurn(c: Clock, tts: seq<TurnType>, i: nat)
    requires i < |tts| && Active(tts[i])
    requires forall j | i < j < |tts| :: !Active(tts[j])
    ensures Run(c, tts).currentTurn == tts[i]
    ensures Run(c, tts).aoeFear == (tts[i] == AI)
    ensures IsAiTurn(Run(c, tts)) <==> tts[i] == AI
    ensures IsPlayerTurn(Run(c, tts)) <==> tts[i] == Player
  {
    var prefix, rest := tts[..i + 1], tts[i + 1..];
    assert Run(c, prefix) == Advance(Run(c, tts[..i]), tts[i]) by {
      assert prefix[..i] == tts[..i];
    }
    assert forall j | 0 <= j < |rest| :: !Active(rest[j]) by {
      forall j | 0 <= j < |rest| ensures !Active(rest[j]) {
        assert rest[j] == tts[i + 1 + j];
      }
    }
    RunInactive(Run(c, prefix), rest);
    RunAppend(c, prefix, rest);
    assert tts == prefix + rest;
  }

  /** Adding `a` and then `b` is adding `a + b`. */
  lemma {:induction false} RunAppend(c: Clock, a: seq<TurnType>, b: seq<TurnType>)
    ensures Run(c, a + b) == Run(Run(c, a), b)
  {
    if b == [] {
      assert a + b == a;
    } else {
      var init := b[..|b| - 1];
      RunAppend(c, a, init);
      assert (a + b)[..|a + b| - 1] == a + init;
    }
  }

  /** The displayed value falls by one per AI turn and by nothing else, so it goes negative once the AI turns exceed half the limit. */
  lemma TurnsLeftAfterRun(roundsUntilDefeat: int, c: Clock, tts: seq<TurnType>)
    ensures TurnsLeft(roundsUntilDefeat, Run(c, tts).aiTurnCount)
            == TurnsLeft(roundsUntilDefeat, c.aiTurnCount) - multiset(tts)[AI]
    ensures c == Initial && multiset(tts)[AI] > HalfTowardZero(roundsUntilDefeat) ==>
              TurnsLeft(roundsUntilDefeat, Run(c, tts).aiTurnCount) < 0
  {
    RunCounts(c, tts);
  }

  /** Checked after every turn of a run from the start, the round limit is met after at most one of them: the one that makes the total equal the limit. */
  lemma RoundLimitAtMostOnce(tts: seq<TurnType>, roundsUntilDefeat: int, k: nat)
    requires k <= |tts|
    requires RoundLimitReached(Run(Initial, tts[..k]), roundsUntilDefeat)
    ensures k == roundsUntilDefeat
  {
    RunCounts(Initial, tts[..k]);
  }

  /** With a limit of 10, alternating AI and Player turns lose on the tenth turn, a Player turn, and on no earlier one; Player-first alternation never loses within ten turns. */
  lemma SummonOpeningScenario()
    ensures var tts := [AI, Player, AI, Player, AI, Player, AI, Player, AI, Player];
            RoundLimitReached(Run(Initial, tts), 10) &&
            forall k | 0 <= k < 10 :: !RoundLimitReached(Run(Initial, tts[..k]), 10)
    ensures var tts := [Player, AI, Player, AI, Player, AI, Player, AI, Player, AI];
            forall k | 0 <= k <= 10 :: !RoundLimitReached(Run(Initial, tts[..k]), 10)
  {
    var tts := [AI, Player, AI, Player, AI, Player, AI, Player, AI, Player];
    RunCounts(Initial, tts);
    RunWhoseTurn(Initial, tts, 9);
    forall k | 0 <= k < 10 ensures !RoundLimitReached(Run(Initial, tts[..k]), 10) {
      RunCounts(Initial, tts[..k]);
    }
    var uus := [Player, AI, Player, AI, Player, AI, Player, AI, Player, AI];
    forall k | 0 <= k <= 10 ensures !RoundLimitReached(Run(Initial, uus[..k]), 10) {
      RunCounts(Initial, uus[..k]);
      if k == 10 {
        assert uus[..k] == uus;
        RunWhoseTurn(Initial, uus, 9);
      }
    }
  }
}
