/**
 * Client-side prediction (`MovementSystem.js`): each frame the local player
 * is moved at once from the current input, with the same collision rule as
 * the server, and the input is sent to the server only when it changed.
 *
 * The input system is read through one `InputFrame` per frame (`gatherInput`);
 * `delta` is the ticker's frame delta. The collision map is the `MapPhysics`
 * facade; position is finite, so the terrain lookup never sees NaN.
 */
module MovementSystem {
  import opened Common
  import MP = MapPhysics
  import opened ClientPlayer

  const SPEED: real := 180.0
  const SPRINT_MULT: real := 1.5
  const DASH_SPEED: real := 800.0
  const DIAGONAL: real := 0.7071
  const HITBOX: real := 32.0
  const DASH_COOLDOWN: real := 2.1
  const DASH_DURATION: real := 0.2

  /** What `gatherInput` reads from the input system in one frame. */
  datatype InputFrame = InputFrame(x: real, y: real, facingX: real, facingY: real,
                                   isSprinting: bool, dashRequested: bool)

  /** The input tuple `broadcast` compares and sends. The initial `lastSentInput` has no
      `isDashing` property (`None`), so it differs from every tuple that is sent. */
  datatype SentInput = SentInput(x: real, y: real, facingX: real, facingY: real,
                                 isSprinting: bool, isDashing: Option<bool>)

  /** Outbound effects: `socketClient.sendInput(kind, payload)` and the `PLAYER_DASH` event. */
  datatype Effect = SendInput(kind: string, payload: SentInput) | PlayerDash(cooldownMs: real)

  datatype DashTimers = DashTimers(dashCooldown: real, dashDuration: real)

  /** The displacement of one frame, `{ x: vx, y: vy }`. */
  datatype Velocity = Velocity(vx: real, vy: real)

  const INITIAL_SENT: SentInput := SentInput(0.0, 0.0, 0.0, 1.0, false, None)

  // ---------------------------------------------------------------------------
  // The dash timer machine
  // ---------------------------------------------------------------------------

  function TickTimer(t: real, delta: real): real
  {
    if t > 0.0 then t - delta else t
  }

  /** `updateTimers(delta)`. */
  function TickTimers(t: DashTimers, delta: real): DashTimers
  {
    DashTimers(TickTimer(t.dashCooldown, delta), TickTimer(t.dashDuration, delta))
  }

  /** `handleDashLogic` starts a new dash: none is running, one is requested, the cooldown is over. */
  predicate StartsDash(t: DashTimers, requested: bool)
  {
    !(t.dashDuration > 0.0) && requested && !(t.dashCooldown > 0.0)
  }

  /** `handleDashLogic` returns whether a dash is active this frame. */
  predicate DashActive(t: DashTimers, requested: bool)
  {
    t.dashDuration > 0.0 || StartsDash(t, requested)
  }

  /** The timers after `handleDashLogic`. */
  function AfterDashLogic(t: DashTimers, requested: bool): DashTimers
  {
    if StartsDash(t, requested) then DashTimers(DASH_COOLDOWN, DASH_DURATION) else t
  }

  /** The player's prediction flag after `handleDashLogic`: untouched during a running dash,
      otherwise whether a dash just started. */
  function PredictionAfter(t: DashTimers, requested: bool, flag: bool): bool
  {
    if t.dashDuration > 0.0 then flag else StartsDash(t, requested)
  }

  /** The invariant the client timers keep: while a dash runs, the cooldown is exactly
      DASH_COOLDOWN - DASH_DURATION ahead of the remaining duration. */
  predicate TimersInv(t: DashTimers)
  {
    t.dashDuration > 0.0 ==> t.dashCooldown == t.dashDuration + (DASH_COOLDOWN - DASH_DURATION)
  }

  lemma TimersInvInitially()
    ensures TimersInv(DashTimers(0.0, 0.0))
  {
  }

  /** One frame (tick, then dash logic) keeps the timer invariant, for any delta. */
  lemma FramePreservesTimersInv(t: DashTimers, delta: real, requested: bool)
    requires TimersInv(t)
    ensures TimersInv(AfterDashLogic(TickTimers(t, delta), requested))
  {
    var t1 := TickTimers(t, delta);
    if t1.dashDuration > 0.0 && !StartsDash(t1, requested) {
      assert t.dashDuration > 0.0;
      assert t.dashCooldown > 0.0;
    }
  }

  /** Only positive timers run down, and they run down by exactly delta. */
  lemma TickOnlyPositive(t: DashTimers, delta: real)
    ensures var t' := TickTimers(t, delta);
      && (t.dashCooldown > 0.0 ==> t'.dashCooldown == t.dashCooldown - delta)
      && (t.dashCooldown <= 0.0 ==> t'.dashCooldown == t.dashCooldown)
      && (t.dashDuration > 0.0 ==> t'.dashDuration == t.dashDuration - delta)
      && (t.dashDuration <= 0.0 ==> t'.dashDuration == t.dashDuration)
  {
  }

  /** A running dash stays active and leaves both timers alone; a new dash starts exactly when
      requested with no dash running and the cooldown over, and then sets 2.1 and 0.2. */
  lemma DashLogicCases(t: DashTimers, requested: bool, flag: bool)
    ensures t.dashDuration > 0.0 ==>
      DashActive(t, requested) && AfterDashLogic(t, requested) == t && PredictionAfter(t, requested, flag) == flag
    ensures t.dashDuration <= 0.0 ==>
      && (DashActive(t, requested) <==> requested && t.dashCooldown <= 0.0)
      && (DashActive(t, requested) ==> AfterDashLogic(t, requested) == DashTimers(2.1, 0.2))
      && (!DashActive(t, requested) ==> AfterDashLogic(t, requested) == t)
      && PredictionAfter(t, requested, flag) == DashActive(t, requested)
  {
  }

  // ---------------------------------------------------------------------------
  // Speed and velocity
  // ---------------------------------------------------------------------------

  /** The terrain factor for a player at (px, py): 1 without a map. */
  function TerrainFactor(gameMap: Option<MP.MapPhysics>, px: real, py: real): (m: real)
    ensures m == 0.5 || m == 1.0
  {
    if gameMap.None? then 1.0
    else gameMap.value.GetTerrainMultiplier(MP.Num(px), MP.Num(py)).value
  }

  /** The speed a frame moves at: 800 when dashing, else 180, or 180 * 1.5 when sprinting; then
      times the terrain factor. */
  function FrameSpeed(input: InputFrame, isDashing: bool, terrain: real): (s: real)
    ensures isDashing ==> s == DASH_SPEED * terrain
    ensures !isDashing && input.isSprinting ==> s == SPEED * SPRINT_MULT * terrain
    ensures !isDashing && !input.isSprinting ==> s == SPEED * terrain
  {
    var speed := if isDashing then DASH_SPEED else if input.isSprinting then SPEED * SPRINT_MULT else SPEED;
    speed * terrain
  }

  /** `calculateVelocity(delta, input, isDashing, player, map)` with the terrain factor looked up. */
  function CalculateVelocity(delta: real, input: InputFrame, isDashing: bool, terrain: real): Velocity
  {
    if input.x == 0.0 && input.y == 0.0 && !isDashing then Velocity(0.0, 0.0)
    else
      var speed := FrameSpeed(input, isDashing, terrain);
      var alongFacing := isDashing && input.x == 0.0 && input.y == 0.0;
      var vx := (if alongFacing then input.facingX else input.x) * speed * delta;
      var vy := (if alongFacing then input.facingY else input.y) * speed * delta;
      if !isDashing && input.x != 0.0 && input.y != 0.0 then Velocity(vx * DIAGONAL, vy * DIAGONAL) else Velocity(vx, vy)
  }

  /** No input and no dash: no movement. */
  lemma IdleDoesNotMove(delta: real, input: InputFrame, terrain: real)
    requires input.x == 0.0 && input.y == 0.0
    ensures CalculateVelocity(delta, input, false, terrain) == Velocity(0.0, 0.0)
  {
  }

  /** A dash moves along the input at 800 * terrain whatever the sprint key, and along the facing
      direction when there is no input. The diagonal factor never applies to a dash. */
  lemma DashVelocity(delta: real, input: InputFrame, terrain: real)
    ensures var v, s := CalculateVelocity(delta, input, true, terrain), DASH_SPEED * terrain;
      && (input.x == 0.0 && input.y == 0.0 ==> v == Velocity(input.facingX * s * delta, input.facingY * s * delta))
      && (!(input.x == 0.0 && input.y == 0.0) ==> v == Velocity(input.x * s * delta, input.y * s * delta))
      && v == CalculateVelocity(delta, input.(isSprinting := !input.isSprinting), true, terrain)
  {
  }

  /** Walking: input times the frame speed, scaled by 0.7071 exactly when both axes are non-zero. */
  lemma WalkVelocity(delta: real, input: InputFrame, terrain: real)
    requires input.x != 0.0 || input.y != 0.0
    ensures var v, s := CalculateVelocity(delta, input, false, terrain), FrameSpeed(input, false, terrain);
      && (input.x != 0.0 && input.y != 0.0 ==>
            v == Velocity(input.x * s * delta * DIAGONAL, input.y * s * delta * DIAGONAL))
      && (input.x == 0.0 || input.y == 0.0 ==> v == Velocity(input.x * s * delta, input.y * s * delta))
  {
  }

  /** Water halves the velocity: the terrain factor scales it linearly. */
  lemma {:induction false} WaterHalvesVelocity(delta: real, input: InputFrame, isDashing: bool)
    ensures var slow, fast := CalculateVelocity(delta, input, isDashing, 0.5), CalculateVelocity(delta, input, isDashing, 1.0);
      slow == Velocity(fast.vx * 0.5, fast.vy * 0.5)
  {
    var s := FrameSpeed(input, isDashing, 1.0);
    assert FrameSpeed(input, isDashing, 0.5) == s * 0.5;
    var dir := if isDashing && input.x == 0.0 && input.y == 0.0 then (input.facingX, input.facingY) else (input.x, input.y);
    var a, b := dir.0, dir.1;
    assert a * (s * 0.5) * delta == (a * s * delta) * 0.5;
    assert b * (s * 0.5) * delta == (b * s * delta) * 0.5;
    assert a * (s * 0.5) * delta * DIAGONAL == (a * s * delta * DIAGONAL) * 0.5;
    assert b * (s * 0.5) * delta * DIAGONAL == (b * s * delta * DIAGONAL) * 0.5;
  }

  // ---------------------------------------------------------------------------
  // Axis-separated collision resolution
  // ---------------------------------------------------------------------------

  /** The hitbox centred on (cx, cy) collides on the map; without a map nothing collides. */
  predicate Blocked(gameMap: Option<MP.MapPhysics>, cx: real, cy: real)
  {
    gameMap.Some? && gameMap.value.CheckCollision(MP.Num(cx - HITBOX / 2.0), MP.Num(cy - HITBOX / 2.0), HITBOX, HITBOX)
  }

  /** The position `applyPhysics` ends at: X moves unless the box at (x + vx, y) collides; then Y
      moves unless the box at (resolved X, y + vy) collides. */
  function ResolveMove(gameMap: Option<MP.MapPhysics>, x: real, y: real, vx: real, vy: real): (p: (real, real))
    ensures p.0 == x || p.0 == x + vx
    ensures p.1 == y || p.1 == y + vy
    ensures p.0 == x + vx <==> vx == 0.0 || !Blocked(gameMap, x + vx, y)
    ensures p.1 == y + vy <==> vy == 0.0 || !Blocked(gameMap, p.0, y + vy)
  {
    var nextX := if Blocked(gameMap, x + vx, y) then x else x + vx;
    var nextY := if Blocked(gameMap, nextX, y + vy) then y else y + vy;
    (nextX, nextY)
  }

  /** A player who starts clear of walls stays clear: each axis step is taken only into a
      free box, and a refused step leaves a box already known to be free. */
  lemma {:induction false} ResolveKeepsClear(gameMap: Option<MP.MapPhysics>, x: real, y: real, vx: real, vy: real)
    requires !Blocked(gameMap, x, y)
    ensures var p := ResolveMove(gameMap, x, y, vx, vy); !Blocked(gameMap, p.0, p.1)
  {
    var p := ResolveMove(gameMap, x, y, vx, vy);
    assert !Blocked(gameMap, p.0, y);
    if p.1 != y + vy {
      assert p.1 == y;
    }
  }

  /** Blocked on one axis, a player still slides along the other. */
  lemma SlidesAlongWall(gameMap: Option<MP.MapPhysics>, x: real, y: real, vx: real, vy: real)
    requires Blocked(gameMap, x + vx, y) && !Blocked(gameMap, x, y + vy)
    ensures ResolveMove(gameMap, x, y, vx, vy) == (x, y + vy)
  {
  }

  lemma {:induction false} ChangedIsInequality(cur: SentInput, last: SentInput)
    ensures HasChanged(cur, last) <==> cur != last
  {
    if cur != last {
      assert cur.x != last.x || cur.y != last.y || cur.facingX != last.facingX || cur.facingY != last.facingY
          || cur.isSprinting != last.isSprinting || cur.isDashing != last.isDashing;
    }
  }

  /** `hasChanged` in `broadcast`: one of the six fields differs. */
  predicate HasChanged(cur: SentInput, last: SentInput)
  {
    || cur.x != last.x || cur.y != last.y || cur.facingX != last.facingX || cur.facingY != last.facingY
    || cur.isSprinting != last.isSprinting || cur.isDashing != last.isDashing
  }

  function CurrentInput(input: InputFrame, isDashing: bool): SentInput
  {
    SentInput(input.x, input.y, input.facingX, input.facingY, input.isSprinting, Some(isDashing))
  }

  /** The first broadcast always sends, even idle: the initial tuple has no dash flag. */
  lemma FirstBroadcastSends(input: InputFrame, isDashing: bool)
    ensures HasChanged(CurrentInput(input, isDashing), INITIAL_SENT)
  {
  }

  class MovementSystem {
    var lastSentInput: SentInput
    var timers: DashTimers
    /** `this.player`, set by `update`. */
    var player: Player?
    /** Everything sent so far, oldest first. */
    var effects: seq<Effect>

    ghost predicate Valid()
      reads this
    {
      TimersInv(timers)
    }

    constructor ()
      ensures Valid()
      ensures lastSentInput == INITIAL_SENT && timers == DashTimers(0.0, 0.0) && player == null && effects == []
    {
      lastSentInput := INITIAL_SENT;
      timers := DashTimers(0.0, 0.0);
      player := null;
      effects := [];
    }

    /** `updateTimers(delta)`. */
    method UpdateTimers(delta: real)
      modifies this
      ensures timers == TickTimers(old(timers), delta)
      ensures lastSentInput == old(lastSentInput) && player == old(player) && effects == old(effects)
    {
      if timers.dashCooldown > 0.0 {
        timers := timers.(dashCooldown := timers.dashCooldown - delta);
      }
      if timers.dashDuration > 0.0 {
        timers := timers.(dashDuration := timers.dashDuration - delta);
      }
    }

    /** `handleDashLogic(dashRequested)`: keeps a running dash, or starts one, emitting `PLAYER_DASH`
        with the cooldown in milliseconds and raising the player's prediction flag. */
    method HandleDashLogic(dashRequested: bool) returns (active: bool)
      modifies this, player
      ensures active == DashActive(old(timers), dashRequested)
      ensures timers == AfterDashLogic(old(timers), dashRequested)
      ensures effects == old(effects) + (if StartsDash(old(timers), dashRequested) then [PlayerDash(2100.0)] else [])
      ensures player == old(player) && lastSentInput == old(lastSentInput)
      ensures player != null ==>
        player.isDashingPrediction == PredictionAfter(old(timers), dashRequested, old(player.isDashingPrediction))
        && player.x == old(player.x) && player.y == old(player.y)
    {
      if timers.dashDuration > 0.0 {
        return true;
      }
      if player != null && player.isDashingPrediction {
        player.isDashingPrediction := false;
      }
      if !dashRequested {
        return false;
      }
      if timers.dashCooldown > 0.0 {
        return false;
      }
      timers := DashTimers(DASH_COOLDOWN, DASH_DURATION);
      effects := effects + [PlayerDash(DASH_COOLDOWN * 1000.0)];
      if player != null {
        player.isDashingPrediction := true;
      }
      return true;
    }

    /** `applyPhysics(player, gameMap, vx, vy)`: move to the resolved position. */
    method ApplyPhysics(p: Player, gameMap: Option<MP.MapPhysics>, vx: real, vy: real)
      modifies p
      ensures (p.x, p.y) == ResolveMove(gameMap, old(p.x), old(p.y), vx, vy)
      ensures p.isDashingPrediction == old(p.isDashingPrediction)
    {
      var nextX := p.x + vx;
      if Blocked(gameMap, nextX, p.y) {
        nextX := p.x;
      }
      p.x := nextX;
      var nextY := p.y + vy;
      if Blocked(gameMap, nextX, nextY) {
        nextY := p.y;
      }
      p.y := nextY;
    }

    /** `broadcast(input, isDashingActive)`: send the tuple iff it differs from the last one sent. */
    method Broadcast(input: InputFrame, isDashingActive: bool)
      modifies this
      ensures var cur := CurrentInput(input, isDashingActive);
        && (HasChanged(cur, old(lastSentInput)) ==>
              lastSentInput == cur && effects == old(effects) + [SendInput("MOVE", cur)])
        && (!HasChanged(cur, old(lastSentInput)) ==>
              lastSentInput == old(lastSentInput) && effects == old(effects))
      ensures timers == old(timers) && player == old(player)
    {
      var currentInput := CurrentInput(input, isDashingActive);
      var hasChanged := HasChanged(currentInput, lastSentInput);
      if hasChanged {
        effects := effects + [SendInput("MOVE", currentInput)];
        lastSentInput := currentInput;
      }
    }

    /** `update(delta, player, inputSystem, map)`: one predicted frame. Nothing happens without a
        player or an input system. */
    method Update(delta: real, p: Player?, input: Option<InputFrame>, gameMap: Option<MP.MapPhysics>)
      requires Valid()
      modifies this, p
      ensures Valid()
      ensures p == null || input.None? ==>
        && timers == old(timers) && lastSentInput == old(lastSentInput) && effects == old(effects)
        && player == old(player)
      ensures p != null && input.Some? ==>
        var t := TickTimers(old(timers), delta);
        var active := DashActive(t, input.value.dashRequested);
        var v := CalculateVelocity(delta, input.value, active, TerrainFactor(gameMap, old(p.x), old(p.y)));
        && player == p
        && timers == AfterDashLogic(t, input.value.dashRequested)
        && p.isDashingPrediction == PredictionAfter(t, input.value.dashRequested, old(p.isDashingPrediction))
        && (p.x, p.y) == (if v.vx != 0.0 || v.vy != 0.0 then ResolveMove(gameMap, old(p.x), old(p.y), v.vx, v.vy)
                          else (old(p.x), old(p.y)))
      ensures p != null && input.Some? ==>
        var t := TickTimers(old(timers), delta);
        var cur := CurrentInput(input.value, DashActive(t, input.value.dashRequested));
        var dash := if StartsDash(t, input.value.dashRequested) then [PlayerDash(2100.0)] else [];
        && lastSentInput == (if HasChanged(cur, old(lastSentInput)) then cur else old(lastSentInput))
        && effects == old(effects) + dash + (if HasChanged(cur, old(lastSentInput)) then [SendInput("MOVE", cur)] else [])
    {
      if p == null || input.None? {
        return;
      }
      player := p;
      FramePreservesTimersInv(timers, delta, input.value.dashRequested);
      UpdateTimers(delta);
      var isDashingActive := HandleDashLogic(input.value.dashRequested);
      var velocity := CalculateVelocity(delta, input.value, isDashingActive, TerrainFactor(gameMap, p.x, p.y));
      if velocity.vx != 0.0 || velocity.vy != 0.0 {
        ApplyPhysics(p, gameMap, velocity.vx, velocity.vy);
      }
      Broadcast(input.value, isDashingActive);
    }
  }
}
