/**
 * The server's survival rules (`SurvivalSystem`): each tick, for every
 * entity with survival stats and vitality, hunger and thirst decay while they
 * last and hurt once they are gone, the body cools towards freezing at a rate
 * its cold resistance lowers, and freezing hurts too. Health never drops
 * below zero.
 */
module SurvivalSystem {
  import opened Components
  import opened WorldStates

  const HUNGER_DECAY_PER_SEC: real := 0.5
  const THIRST_DECAY_PER_SEC: real := 0.8
  const BASE_ENV_COOLING_RATE: real := 5.0
  const STARVATION_DAMAGE: real := 1.0
  const DEHYDRATION_DAMAGE: real := 1.5
  const FREEZING_DAMAGE: real := 2.0

  /** The classes an entity needs to take part. */
  const LIVING: seq<ComponentClass> := [SURVIVAL, VITALITY]

  /** `Math.max(0, v)`. */
  function AtLeastZero(v: real): (r: real)
    ensures r >= 0.0 && r >= v && (r == 0.0 || r == v)
  {
    if v > 0.0 then v else 0.0
  }

  /** The two records a tick works on. */
  datatype Body = Body(survival: Survival, vitality: Vitality)

  /** `applyDamage(vitality, amount)`: only a living body is hurt, and health stops at zero. */
  function ApplyDamage(v: Vitality, amount: real): (r: Vitality)
    ensures r.(health := v.health) == v
    ensures v.health <= 0.0 ==> r == v
    ensures v.health > 0.0 ==> r.health >= 0.0
    ensures v.health > 0.0 ==> (r.health == 0.0 <==> v.health <= amount)
    ensures v.health > 0.0 && v.health > amount ==> r.health == v.health - amount
  {
    if v.health > 0.0 then v.(health := AtLeastZero(v.health - amount)) else v
  }

  /** `updateHunger`: decay while fed, starvation damage once empty. */
  function UpdateHunger(b: Body, delta: real): Body
  {
    var hunger := b.survival.hunger;
    if hunger > 0.0 then b.(survival := b.survival.(hunger := AtLeastZero(hunger - HUNGER_DECAY_PER_SEC * delta)))
    else b.(vitality := ApplyDamage(b.vitality, STARVATION_DAMAGE * delta))
  }

  /** `updateThirst`: decay while watered, dehydration damage once empty. */
  function UpdateThirst(b: Body, delta: real): Body
  {
    var thirst := b.survival.thirst;
    if thirst > 0.0 then b.(survival := b.survival.(thirst := AtLeastZero(thirst - THIRST_DECAY_PER_SEC * delta)))
    else b.(vitality := ApplyDamage(b.vitality, DEHYDRATION_DAMAGE * delta))
  }

  /** The temperature after `delta`: cooling by (5 - resistance) per second, clamped to
      [0, MaxTemperature] (and to 0 when MaxTemperature is negative). */
  function CooledTemperature(s: Survival, delta: real): real
  {
    var heatLossRate := BASE_ENV_COOLING_RATE - s.coldResistance;
    var newTemp := s.temperature - heatLossRate * delta;
    AtLeastZero(if newTemp < s.maxTemperature then newTemp else s.maxTemperature)
  }

  /** `updateTemperature`: store the cooled temperature; at zero, freezing damage. */
  function UpdateTemperature(b: Body, delta: real): Body
  {
    var newTemp := CooledTemperature(b.survival, delta);
    var b' := b.(survival := b.survival.(temperature := newTemp));
    if newTemp <= 0.0 then b'.(vitality := ApplyDamage(b'.vitality, FREEZING_DAMAGE * delta)) else b'
  }

  /** One entity's tick, in the order `update` runs it. */
  function SurviveTick(b: Body, delta: real): Body
  {
    UpdateTemperature(UpdateThirst(UpdateHunger(b, delta), delta), delta)
  }

  /** The entity's components after its tick: new survival and vitality records. */
  function SurviveEntity(cs: EntityComponents, delta: real): (r: EntityComponents)
    requires EntityWellKeyed(cs) && HasAll(cs, LIVING)
    ensures EntityWellKeyed(r) && r.Keys == cs.Keys
    ensures forall k :: k in cs && k != SURVIVAL && k != VITALITY ==> r[k] == cs[k]
  {
    assert SURVIVAL in LIVING && VITALITY in LIVING;
    var b := SurviveTick(Body(cs[SURVIVAL].survival, cs[VITALITY].vitality), delta);
    cs[SURVIVAL := SurvivalC(b.survival)][VITALITY := VitalityC(b.vitality)]
  }

  // ---------------------------------------------------------------------------
  // Properties
  // ---------------------------------------------------------------------------

  /** Fed: hunger falls by 0.5 per second down to zero and nothing is hurt. Empty: the body takes
      1.0 starvation damage per second and hunger stays. No other statistic changes. */
  lemma {:induction false} HungerRule(b: Body, delta: real)
    ensures var r := UpdateHunger(b, delta);
      && r.survival.(hunger := b.survival.hunger) == b.survival
      && (b.survival.hunger > 0.0 ==>
            r.vitality == b.vitality
            && r.survival.hunger == AtLeastZero(b.survival.hunger - 0.5 * delta))
      && (b.survival.hunger <= 0.0 ==>
            r.survival == b.survival && r.vitality == ApplyDamage(b.vitality, 1.0 * delta))
  {
  }

  /** Thirst follows the same rule, with decay 0.8 and dehydration damage 1.5 per second. */
  lemma {:induction false} ThirstRule(b: Body, delta: real)
    ensures var r := UpdateThirst(b, delta);
      && r.survival.(thirst := b.survival.thirst) == b.survival
      && (b.survival.thirst > 0.0 ==>
            r.vitality == b.vitality
            && r.survival.thirst == AtLeastZero(b.survival.thirst - 0.8 * delta))
      && (b.survival.thirst <= 0.0 ==>
            r.survival == b.survival && r.vitality == ApplyDamage(b.vitality, 1.5 * delta))
  {
  }

  /** The temperature never goes below zero nor, when the maximum is not negative, above it;
      the body is hurt (2.0 per second, if alive) exactly when it reaches zero. */
  lemma {:induction false} TemperatureRule(b: Body, delta: real)
    ensures var r := UpdateTemperature(b, delta);
      && r.survival == b.survival.(temperature := CooledTemperature(b.survival, delta))
      && 0.0 <= r.survival.temperature
      && (b.survival.maxTemperature >= 0.0 ==> r.survival.temperature <= b.survival.maxTemperature)
      && (r.survival.temperature == 0.0 ==> r.vitality == ApplyDamage(b.vitality, 2.0 * delta))
      && (r.survival.temperature > 0.0 ==> r.vitality == b.vitality)
  {
  }

  /** Inside the comfort range the temperature just falls by (5 - resistance) x delta. */
  lemma {:induction false} CoolingInsideRange(s: Survival, delta: real)
    requires 0.0 < s.temperature - (5.0 - s.coldResistance) * delta <= s.maxTemperature
    ensures CooledTemperature(s, delta) == s.temperature - (5.0 - s.coldResistance) * delta
  {
  }

  /** A tick never leaves health negative when it started non-negative, never raises it for a
      non-negative delta, and never touches the maxima, stamina or resistance. */
  lemma {:induction false} TickKeepsHealthInRange(b: Body, delta: real)
    requires b.vitality.health >= 0.0 && delta >= 0.0
    ensures var r := SurviveTick(b, delta);
      && 0.0 <= r.vitality.health <= b.vitality.health
      && r.vitality.(health := b.vitality.health) == b.vitality
      && r.survival.maxHunger == b.survival.maxHunger && r.survival.maxThirst == b.survival.maxThirst
      && r.survival.maxTemperature == b.survival.maxTemperature
      && r.survival.coldResistance == b.survival.coldResistance
  {
    var h := UpdateHunger(b, delta);
    var t := UpdateThirst(h, delta);
    assert 0.0 <= h.vitality.health <= b.vitality.health;
    assert 0.0 <= t.vitality.health <= h.vitality.health;
  }

  /** Health is lost only to one of the three causes: no food, no water, or freezing. */
  lemma {:induction false} DamageHasACause(b: Body, delta: real)
    requires SurviveTick(b, delta).vitality.health != b.vitality.health
    ensures b.survival.hunger <= 0.0 || b.survival.thirst <= 0.0
         || CooledTemperature(b.survival, delta) == 0.0
  {
    var h := UpdateHunger(b, delta);
    var t := UpdateThirst(h, delta);
    assert t.survival.temperature == b.survival.temperature;
    assert t.survival.maxTemperature == b.survival.maxTemperature;
    assert t.survival.coldResistance == b.survival.coldResistance;
  }

  /** A dead body stays as it is: damage never revives or further changes it. */
  lemma {:induction false} DeadStaysDead(b: Body, delta: real)
    requires b.vitality.health <= 0.0
    ensures SurviveTick(b, delta).vitality == b.vitality
  {
  }

  // ---------------------------------------------------------------------------
  // The system
  // ---------------------------------------------------------------------------

  /** The body of `update`'s loop for one entity. */
  method SurviveOne(state: WorldState, id: Uuid, delta: real)
    requires state.Valid() && id in state.components && HasAll(state.components[id], LIVING)
    modifies state
    ensures state.Valid()
    ensures state.components == old(state.components)[id := SurviveEntity(old(state.components)[id], delta)]
  {
    assert SURVIVAL in LIVING && VITALITY in LIVING;
    var survival := state.GetComponent(id, SURVIVAL).value.survival;
    var vitality := state.GetComponent(id, VITALITY).value.vitality;

    var body := Body(survival, vitality);
    body := UpdateHunger(body, delta);
    body := UpdateThirst(body, delta);
    body := UpdateTemperature(body, delta);

    // The two records are updated in place in the source; here they are stored back.
    state.AddComponent(id, SurvivalC(body.survival));
    state.AddComponent(id, VitalityC(body.vitality));
  }

  /** `update(state, delta)`: every living entity takes its tick; nothing else changes. */
  method Update(state: WorldState, delta: real)
    requires state.Valid()
    modifies state
    ensures state.Valid()
    ensures state.components.Keys == old(state.components).Keys
    ensures forall id :: id in old(state.components) ==>
      state.components[id] == if HasAll(old(state.components)[id], LIVING)
                              then SurviveEntity(old(state.components)[id], delta)
                              else old(state.components)[id]
  {
    var entities := state.GetEntitiesWith(LIVING);
    SurviveAll(state, entities, delta);
  }

  /** `update`'s loop over the entities found: each of them takes its tick once. */
  method SurviveAll(state: WorldState, entities: seq<Uuid>, delta: real)
    requires state.Valid() && Distinct(entities)
    requires forall id :: id in entities ==> id in state.components && HasAll(state.components[id], LIVING)
    modifies state
    ensures state.Valid()
    ensures state.components.Keys == old(state.components).Keys
    ensures forall id :: id in old(state.components) ==>
      state.components[id] == if id in entities then SurviveEntity(old(state.components)[id], delta)
                              else old(state.components)[id]
  {
    ghost var s0 := state.components;
    for n := 0 to |entities|
      invariant state.Valid()
      invariant state.components.Keys == s0.Keys
      invariant forall id :: id in s0 ==>
        state.components[id] == if id in entities[..n] then SurviveEntity(s0[id], delta) else s0[id]
    {
      var id := entities[n];
      assert id !in entities[..n];
      SurviveOne(state, id, delta);
      assert entities[..n + 1] == entities[..n] + [id];
    }
    assert entities[..|entities|] == entities;
  }
}
