/**
 * The grate: a floor that the player passes through in liquid or gas form and
 * stands on in solid form. Each trigger event re-reads the player's material
 * state and sets two things: whether collisions between the player's collider
 * and the grate's collider are ignored, and the layer of the grate's parent
 * object (the pass-through layer 2 or the detectable layer 0).
 */
module Grate {

  /** The player's material state. */
  datatype States = Solid | Liquid | Gas

  /** The layer the player controller's raycast ignores. */
  const IgnoreRayCastLayer: int := 2

  /** The layer the player controller's raycast detects. */
  const DetectRayCastLayer: int := 0

  /** What the grate controls: the ignore-collision flag of the player/grate pair and the parent's layer. */
  datatype Passability = Passability(ignoreCollision: bool, layer: int)

  /** What a trigger event sees of the player: no state holder, a holder whose object has no collider, or a state. */
  datatype PlayerView = NoHolder | NoCollider | Present(state: States)

  /** The passability for a player in state `s`: pass-through unless solid. */
  function PassabilityFor(s: States): (r: Passability)
    ensures r.ignoreCollision <==> s != Solid
    ensures r.layer == (if s == Solid then DetectRayCastLayer else IgnoreRayCastLayer)
  {
    if s != Solid then Passability(true, IgnoreRayCastLayer) else Passability(false, DetectRayCastLayer)
  }

  /** The effect of UpdateCollider on the grate `g` when the event sees `v`. */
  function Apply(g: Passability, v: PlayerView): (r: Passability)
    ensures !v.Present? ==> r == g
    ensures v.Present? ==> (r.ignoreCollision <==> v.state != Solid)
    ensures v.Present? ==> r.layer == (if r.ignoreCollision then IgnoreRayCastLayer else DetectRayCastLayer)
  {
    match v
    case Present(s) => PassabilityFor(s)
    case _ => g
  }

  /** The grate after trigger events that saw `vs`, in order. */
  function ApplyAll(g: Passability, vs: seq<PlayerView>): Passability
    decreases |vs|
  {
    if vs == [] then g else Apply(ApplyAll(g, vs[..|vs| - 1]), vs[|vs| - 1])
  }

  /** Running the update twice on the same view gives what running it once gives. */
  lemma ApplyIdempotent(g: Passability, v: PlayerView)
    ensures Apply(Apply(g, v), v) == Apply(g, v)
  {
  }

  /** Any number of enter, stay or exit events that all see the same view leave the grate as one of them does. */
  lemma {:induction false} RepeatedEventsSettle(g: Passability, v: PlayerView, n: nat)
    requires n >= 1
    ensures ApplyAll(g, seq(n, _ => v)) == Apply(g, v)
  {
    var vs := seq(n, _ => v);
    if n == 1 {
      assert vs[..0] == [];
    } else {
      RepeatedEventsSettle(g, v, n - 1);
      assert vs[..n - 1] == seq(n - 1, _ => v);
      ApplyIdempotent(g, v);
    }
  }

  /** With a player state present, the outcome depends on that state only, not on the grate's earlier setting. */
  lemma ApplyForgetsHistory(g: Passability, h: Passability, s: States)
    ensures Apply(g, Present(s)) == Apply(h, Present(s))
  {
  }

  /** Events that see no holder or no collider leave the grate as it was. */
  lemma {:induction false} ApplyAllAbsent(g: Passability, vs: seq<PlayerView>)
    requires forall i | 0 <= i < |vs| :: !vs[i].Present?
    ensures ApplyAll(g, vs) == g
  {
    if vs != [] {
      var init := vs[..|vs| - 1];
      assert forall i | 0 <= i < |init| :: init[i] == vs[i];
      ApplyAllAbsent(g, init);
      assert !vs[|vs| - 1].Present?;
    }
  }

  /** Adding the views `a` and then `b` is adding `a + b`. */
  lemma {:induction false} ApplyAllAppend(g: Passability, a: seq<PlayerView>, b: seq<PlayerView>)
    ensures ApplyAll(g, a + b) == ApplyAll(ApplyAll(g, a), b)
  {
    if b == [] {
      assert a + b == a;
    } else {
      ApplyAllAppend(g, a, b[..|b| - 1]);
      assert (a + b)[..|a + b| - 1] == a + b[..|b| - 1];
    }
  }

  /** After any run of events, the grate is set by the last event that saw a player state (at index `i`). */
  lemma {:induction false} LastPresentDecides(g: Passability, vs: seq<PlayerView>, i: nat)
    requires i < |vs| && vs[i].Present?
    requires forall j | i < j < |vs| :: !vs[j].Present?
    ensures ApplyAll(g, vs) == PassabilityFor(vs[i].state)
  {
    var prefix, rest := vs[..i + 1], vs[i + 1..];
    assert ApplyAll(g, prefix) == Apply(ApplyAll(g, vs[..i]), vs[i]) by {
      assert prefix[..i] == vs[..i];
    }
    assert forall j | 0 <= j < |rest| :: !rest[j].Present? by {
      forall j | 0 <= j < |rest| ensures !rest[j].Present? {
        assert rest[j] == vs[i + 1 + j];
      }
    }
    ApplyAllAbsent(ApplyAll(g, prefix), rest);
    ApplyAllAppend(g, prefix, rest);
    assert vs == prefix + rest;
  }

  /** A player-state holder, reduced to the state and whether its object carries a collider. */
  class PlayerStateHandler {
    var currentState: States
    var hasCollider: bool

    constructor (currentState: States, hasCollider: bool)
      ensures this.currentState == currentState && this.hasCollider == hasCollider
    {
      this.currentState := currentState;
      this.hasCollider := hasCollider;
    }

    method SetState(s: States)
      modifies this`currentState
      ensures currentState == s
    {
      currentState := s;
    }
  }

  /** A grate: the player-state holder it consults (possibly absent) and the two settings it controls. */
  class Grate {
    var playerState: PlayerStateHandler?
    var ignoresPlayer: bool
    var parentLayer: int

    constructor (playerState: PlayerStateHandler?, ignoresPlayer: bool, parentLayer: int)
      ensures this.playerState == playerState
      ensures Current() == Passability(ignoresPlayer, parentLayer)
    {
      this.playerState := playerState;
      this.ignoresPlayer := ignoresPlayer;
      this.parentLayer := parentLayer;
    }

    /** What UpdateCollider sees of the player. */
    function Observe(): (v: PlayerView)
      reads this, playerState
      ensures v == NoHolder <==> playerState == null
      ensures v.Present? <==> playerState != null && playerState.hasCollider
      ensures v.Present? ==> v.state == playerState.currentState
    {
      if playerState == null then NoHolder
      else if !playerState.hasCollider then NoCollider
      else Present(playerState.currentState)
    }

    function Current(): Passability
      reads this
    {
      Passability(ignoresPlayer, parentLayer)
    }

    /** Sets the ignore-collision flag and the parent's layer from the player's state; returns early without a holder or a collider. */
    method UpdateCollider()
      modifies this`ignoresPlayer, this`parentLayer
      ensures Current() == Apply(old(Current()), Observe())
      ensures playerState == null || !playerState.hasCollider ==> Current() == old(Current())
      ensures playerState != null && playerState.hasCollider ==>
                (ignoresPlayer <==> playerState.currentState != Solid) &&
                parentLayer == (if ignoresPlayer then IgnoreRayCastLayer else DetectRayCastLayer)
    {
      if playerState == null {
        return;
      }
      if !playerState.hasCollider {
        return;
      }
      ignoresPlayer := playerState.currentState != Solid;
      if playerState.currentState != Solid {
        parentLayer := IgnoreRayCastLayer;
      } else {
        parentLayer := DetectRayCastLayer;
      }
    }

    method OnTriggerEnter2D()
      modifies this`ignoresPlayer, this`parentLayer
      ensures Current() == Apply(old(Current()), Observe())
    {
      UpdateCollider();
    }

    /** Runs on every tick the player stays inside, so a state change while inside takes effect. */
    method OnTriggerStay2D()
      modifies this`ignoresPlayer, this`parentLayer
      ensures Current() == Apply(old(Current()), Observe())
    {
      UpdateCollider();
    }

    /** Applies the player's last known state when the player leaves. */
    method OnTriggerExit2D()
      modifies this`ignoresPlayer, this`parentLayer
      ensures Current() == Apply(old(Current()), Observe())
    {
      UpdateCollider();
    }
  }

  /**
   * A liquid player enters the grate and turns solid while inside: the next
   * stay event enables collision and restores the detectable layer, with no
   * new enter or exit event.
   */
  method LiquidToSolidWhileInside() returns (entered: Passability, stayed: Passability)
    ensures entered == Passability(true, IgnoreRayCastLayer)
    ensures stayed == Passability(false, DetectRayCastLayer)
  {
    var player := new PlayerStateHandler(Liquid, true);
    var grate := new Grate(player, false, DetectRayCastLayer);
    grate.OnTriggerEnter2D();
    entered := grate.Current();
    player.SetState(Solid);
    grate.OnTriggerStay2D();
    stayed := grate.Current();
  }
}
