/**
 * The server's player controller (`PlayerControlSystem`): each tick, for
 * every entity with input, movement stats and a dash state, it runs the dash
 * timers, consumes a pending DASH trigger, possibly starts a dash, and
 * writes the resulting velocity component for the physics system.
 *
 * Unlike the client, the server starts the dash cooldown when the dash ends.
 */
module PlayerControlSystem {
  import opened Common
  import opened Components
  import opened WorldStates
  import IC = InputComponents

  const DIAGONAL_FACTOR: real := 0.7071

  /** The classes an entity needs to be controlled. */
  const CONTROLLED: seq<ComponentClass> := [INPUT, MOVEMENT_STATS, ComponentClass.DASH]

  /** `updateDashTimers`: the cooldown counts down while positive; a running dash counts down
      and, once its time is up, stops and starts the cooldown. */
  function UpdateDashTimers(d: Dash, stats: MovementStats, delta: real): Dash
  {
    var cooled := if d.cooldownTimer > 0.0 then d.(cooldownTimer := d.cooldownTimer - delta) else d;
    if cooled.isDashing then
      var ticked := cooled.(durationTimer := cooled.durationTimer - delta);
      if ticked.durationTimer <= 0.0 then ticked.(isDashing := false, cooldownTimer := stats.dashCooldown)
      else ticked
    else cooled
  }

  /** `startDash`: dash for `dashDuration`, towards the input (scaled on diagonals), or towards
      the facing direction when there is no input. */
  function StartDash(d: Dash, input: IC.InputState, stats: MovementStats): Dash
  {
    var idle := input.x == 0.0 && input.y == 0.0;
    var diagonal := input.x != 0.0 && input.y != 0.0;
    d.(isDashing := true, durationTimer := stats.dashDuration,
       dashDirX := if idle then input.facingX else if diagonal then input.x * DIAGONAL_FACTOR else input.x,
       dashDirY := if idle then input.facingY else if diagonal then input.y * DIAGONAL_FACTOR else input.y)
  }

  datatype DashInput = DashInput(dash: Dash, input: IC.InputState)

  /** `handleDashInput`: the DASH trigger is consumed whether or not it can be used; a dash
      starts only if it was pending, none is running and the cooldown is over. */
  function HandleDashInput(d: Dash, input: IC.InputState, stats: MovementStats): DashInput
  {
    var c := IC.TryConsume(input, IC.DASH);
    if c.wasPending && !d.isDashing && d.cooldownTimer <= 0.0 then DashInput(StartDash(d, c.state, stats), c.state)
    else DashInput(d, c.state)
  }

  /** `calculateVelocity`: a dash overrides the input; otherwise no input means standing still,
      and the input is scaled by the (sprint) speed and the diagonal factor. */
  function CalculateVelocity(input: IC.InputState, stats: MovementStats, d: Dash): Velocity
  {
    if d.isDashing then Velocity(d.dashDirX * stats.dashSpeed, d.dashDirY * stats.dashSpeed)
    else if input.x == 0.0 && input.y == 0.0 then Velocity(0.0, 0.0)
    else
      var speed := if input.isSprinting then stats.baseSpeed * stats.sprintMultiplier else stats.baseSpeed;
      var diagonal := input.x != 0.0 && input.y != 0.0;
      var vx := if diagonal then input.x * DIAGONAL_FACTOR else input.x;
      var vy := if diagonal then input.y * DIAGONAL_FACTOR else input.y;
      Velocity(vx * speed, vy * speed)
  }

  datatype Control = Control(dash: Dash, input: IC.InputState, velocity: Velocity)

  /** One entity's tick, in the order `update` runs it. */
  function ControlTick(d: Dash, input: IC.InputState, stats: MovementStats, delta: real): Control
  {
    var timed := UpdateDashTimers(d, stats, delta);
    var handled := HandleDashInput(timed, input, stats);
    Control(handled.dash, handled.input, CalculateVelocity(handled.input, stats, handled.dash))
  }

  /** The entity's components after its tick: new dash state, consumed input, new velocity. */
  function ControlEntity(cs: EntityComponents, delta: real): EntityComponents
    requires EntityWellKeyed(cs) && HasAll(cs, CONTROLLED)
  {
    assert INPUT in CONTROLLED && MOVEMENT_STATS in CONTROLLED && ComponentClass.DASH in CONTROLLED;
    var o := ControlTick(cs[ComponentClass.DASH].dash, cs[INPUT].input, cs[MOVEMENT_STATS].stats, delta);
    cs[ComponentClass.DASH := DashC(o.dash)][INPUT := InputC(o.input)][VELOCITY := VelocityC(o.velocity)]
  }

  // ---------------------------------------------------------------------------
  // Properties
  // ---------------------------------------------------------------------------

  /** The cooldown only counts down while positive, and a dash that is not running stays so. */
  lemma {:induction false} CooldownCountsDownWhilePositive(d: Dash, stats: MovementStats, delta: real)
    requires !d.isDashing
    ensures var d' := UpdateDashTimers(d, stats, delta);
      && !d'.isDashing && d'.durationTimer == d.durationTimer
      && d'.cooldownTimer == (if d.cooldownTimer > 0.0 then d.cooldownTimer - delta else d.cooldownTimer)
  {
  }

  /** A running dash loses `delta` of its time; when that leaves nothing, it stops and the full
      `dashCooldown` starts, whatever the cooldown was. */
  lemma {:induction false} DashEndStartsCooldown(d: Dash, stats: MovementStats, delta: real)
    requires d.isDashing
    ensures var d' := UpdateDashTimers(d, stats, delta);
      && d'.durationTimer == d.durationTimer - delta
      && (d'.isDashing <==> d.durationTimer - delta > 0.0)
      && (!d'.isDashing ==> d'.cooldownTimer == stats.dashCooldown)
      && d'.dashDirX == d.dashDirX && d'.dashDirY == d.dashDirY
  {
  }

  /** The DASH trigger never survives a tick, and the other triggers are untouched. */
  lemma {:induction false} DashTriggerAlwaysConsumed(d: Dash, input: IC.InputState, stats: MovementStats)
    ensures var r := HandleDashInput(d, input, stats).input;
      r.triggers == input.triggers - {IC.DASH} && r.(triggers := input.triggers) == input
  {
    IC.ConsumeFiresOnce(input, IC.DASH);
  }

  /** A dash starts exactly when it was requested, none was running and the cooldown was over;
      otherwise the dash state is unchanged. */
  lemma {:induction false} DashStartsOnlyWhenReady(d: Dash, input: IC.InputState, stats: MovementStats)
    ensures var r := HandleDashInput(d, input, stats).dash;
      && (r != d ==> IC.DASH in input.triggers && !d.isDashing && d.cooldownTimer <= 0.0)
      && (IC.DASH in input.triggers && !d.isDashing && d.cooldownTimer <= 0.0 ==>
            r.isDashing && r.durationTimer == stats.dashDuration && r.cooldownTimer == d.cooldownTimer)
  {
  }

  /** The dash direction: the facing when there is no input, else the input, times 0.7071 on
      both axes exactly when both are non-zero. */
  lemma {:induction false} DashDirection(d: Dash, input: IC.InputState, stats: MovementStats)
    ensures var r := StartDash(d, input, stats);
      && (input.x == 0.0 && input.y == 0.0 ==> r.dashDirX == input.facingX && r.dashDirY == input.facingY)
      && (input.x != 0.0 && input.y != 0.0 ==>
            r.dashDirX == input.x * DIAGONAL_FACTOR && r.dashDirY == input.y * DIAGONAL_FACTOR)
      && (input.x == 0.0 && input.y != 0.0 ==> r.dashDirX == 0.0 && r.dashDirY == input.y)
      && (input.x != 0.0 && input.y == 0.0 ==> r.dashDirX == input.x && r.dashDirY == 0.0)
  {
  }

  /** While dashing, the input has no say in the velocity. */
  lemma {:induction false} DashOverridesInput(input: IC.InputState, other: IC.InputState, stats: MovementStats, d: Dash)
    requires d.isDashing
    ensures CalculateVelocity(input, stats, d) == CalculateVelocity(other, stats, d)
    ensures CalculateVelocity(input, stats, d) == Velocity(d.dashDirX * stats.dashSpeed, d.dashDirY * stats.dashSpeed)
  {
  }

  /** Not dashing: standing still without input; otherwise base speed (times the sprint
      multiplier when sprinting) along the input, times 0.7071 on diagonals. */
  lemma {:induction false} WalkingVelocity(input: IC.InputState, stats: MovementStats, d: Dash)
    requires !d.isDashing
    ensures var v, speed := CalculateVelocity(input, stats, d),
                            if input.isSprinting then stats.baseSpeed * stats.sprintMultiplier else stats.baseSpeed;
      && (input.x == 0.0 && input.y == 0.0 ==> v == Velocity(0.0, 0.0))
      && (input.x != 0.0 && input.y != 0.0 ==>
            v == Velocity(input.x * DIAGONAL_FACTOR * speed, input.y * DIAGONAL_FACTOR * speed))
      && (input.x == 0.0 || input.y == 0.0 ==> v == Velocity(input.x * speed, input.y * speed))
  {
  }

  /** A dash that has just started moves at dash speed along its direction in the same tick. */
  lemma {:induction false} StartedDashMovesAtOnce(d: Dash, input: IC.InputState, stats: MovementStats, delta: real)
    requires !d.isDashing && d.cooldownTimer <= 0.0 && IC.DASH in input.triggers
    ensures var o := ControlTick(d, input, stats, delta);
      && o.dash.isDashing
      && o.velocity == Velocity(o.dash.dashDirX * stats.dashSpeed, o.dash.dashDirY * stats.dashSpeed)
  {
    assert UpdateDashTimers(d, stats, delta).cooldownTimer == d.cooldownTimer;
  }

  // ---------------------------------------------------------------------------
  // The system
  // ---------------------------------------------------------------------------

  /** The body of `update`'s loop for one entity. */
  method ControlOne(state: WorldState, id: Uuid, delta: real)
    requires state.Valid() && id in state.components && HasAll(state.components[id], CONTROLLED)
    modifies state
    ensures state.Valid()
    ensures state.components == old(state.components)[id := ControlEntity(old(state.components)[id], delta)]
  {
    assert INPUT in CONTROLLED && MOVEMENT_STATS in CONTROLLED && ComponentClass.DASH in CONTROLLED;
    var input := state.GetComponent(id, INPUT).value.input;
    var stats := state.GetComponent(id, MOVEMENT_STATS).value.stats;
    var dashState := state.GetComponent(id, ComponentClass.DASH).value.dash;

    dashState := UpdateDashTimers(dashState, stats, delta);
    var handled := HandleDashInput(dashState, input, stats);
    dashState, input := handled.dash, handled.input;
    var velocity := CalculateVelocity(input, stats, dashState);

    // The dash and input objects are updated in place in the source; here they are stored back.
    state.AddComponent(id, DashC(dashState));
    state.AddComponent(id, InputC(input));
    state.AddComponent(id, VelocityC(velocity));
  }

  /** `update(state, delta)`: every controlled entity takes its tick; nothing else changes. */
  method Update(state: WorldState, delta: real)
    requires state.Valid()
    modifies state
    ensures state.Valid()
    ensures state.components.Keys == old(state.components).Keys
    ensures forall id :: id in old(state.components) ==>
      state.components[id] == if HasAll(old(state.components)[id], CONTROLLED)
                              then ControlEntity(old(state.components)[id], delta)
                              else old(state.components)[id]
  {
    var entities := state.GetEntitiesWith(CONTROLLED);
    ControlAll(state, entities, delta);
  }

  /** `update`'s loop over the entities found: each of them takes its tick once. */
  method ControlAll(state: WorldState, entities: seq<Uuid>, delta: real)
    requires state.Valid() && Distinct(entities)
    requires forall id :: id in entities ==> id in state.components && HasAll(state.components[id], CONTROLLED)
    modifies state
    ensures state.Valid()
    ensures state.components.Keys == old(state.components).Keys
    ensures forall id :: id in old(state.components) ==>
      state.components[id] == if id in entities then ControlEntity(old(state.components)[id], delta)
                              else old(state.components)[id]
  {
    ghost var s0 := state.components;
    for n := 0 to |entities|
      invariant state.Valid()
      invariant state.components.Keys == s0.Keys
      invariant forall id :: id in s0 ==>
        state.components[id] == if id in entities[..n] then ControlEntity(s0[id], delta) else s0[id]
    {
      var id := entities[n];
      assert id !in entities[..n];
      ControlOne(state, id, delta);
      assert entities[..n + 1] == entities[..n] + [id];
    }
    assert entities[..|entities|] == entities;
  }
}
