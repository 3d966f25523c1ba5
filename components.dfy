/**
 * The server's component records, which carry data and no behaviour, and the
 * closed union the world store holds them in. A `ComponentClass` stands for
 * the Java class object that keys an entity's component map.
 *
 * `MovementStats` has the six fields the player factory passes (base speed,
 * sprint multiplier, minimum speed, dash speed, dash duration, dash cooldown)
 * and that the control system reads; `Velocity` has the `x`/`y` pair the
 * record declares, read by the physics system as its `dx`/`dy`.
 */
module Components {
  import InputComponents
  import InventoryComponents

  /** A UUID, compared only for equality. */
  type Uuid = nat

  datatype Position = Position(x: real, y: real, rotation: real)
  datatype Velocity = Velocity(x: real, y: real)
  datatype Collision = Collision(width: real, height: real)
  datatype Dash = Dash(isDashing: bool, durationTimer: real, cooldownTimer: real, dashDirX: real, dashDirY: real)
  datatype MovementStats = MovementStats(baseSpeed: real, sprintMultiplier: real, minSpeed: real,
                                         dashSpeed: real, dashDuration: real, dashCooldown: real)
  datatype Survival = Survival(hunger: real, maxHunger: real, thirst: real, maxThirst: real,
                               temperature: real, maxTemperature: real, coldResistance: real)
  datatype Vitality = Vitality(health: real, maxHealth: real, stamina: real, maxStamina: real)
  datatype PlayerTag = PlayerTag(userId: Uuid, username: string, isGuest: bool)

  datatype ComponentClass =
    | POSITION | VELOCITY | COLLISION | DASH | MOVEMENT_STATS | SURVIVAL | VITALITY
    | PLAYER_TAG | INPUT | INVENTORY

  /** A component as stored: the mutable input and inventory objects of the server are held
      here by value (input) and by reference (inventory). */
  datatype Component =
    | PositionC(position: Position)
    | VelocityC(velocity: Velocity)
    | CollisionC(collision: Collision)
    | DashC(dash: Dash)
    | MovementStatsC(stats: MovementStats)
    | SurvivalC(survival: Survival)
    | VitalityC(vitality: Vitality)
    | PlayerTagC(tag: PlayerTag)
    | InputC(input: InputComponents.InputState)
    | InventoryC(inventory: InventoryComponents.InventoryComponent)

  /** `component.getClass()`. */
  function ClassOf(c: Component): ComponentClass
  {
    match c
    case PositionC(_) => POSITION
    case VelocityC(_) => VELOCITY
    case CollisionC(_) => COLLISION
    case DashC(_) => DASH
    case MovementStatsC(_) => MOVEMENT_STATS
    case SurvivalC(_) => SURVIVAL
    case VitalityC(_) => VITALITY
    case PlayerTagC(_) => PLAYER_TAG
    case InputC(_) => INPUT
    case InventoryC(_) => INVENTORY
  }
}
