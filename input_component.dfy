/**
 * The server's per-player input record (`InputComponent`): the latest
 * movement axes, facing and sprint flag, the aim point, and a set of pending
 * one-shot triggers that a system consumes at most once each.
 *
 * `InputState` is the record's value; the pure functions on it say what each
 * method does, and the game systems, which keep components as values in the
 * world store, use the same functions.
 */
module InputComponents {
  import opened Common

  /** The one-shot actions a client can request (`InputType`). */
  datatype InputType = DASH | ATTACK

  datatype InputState = InputState(
    x: real, y: real, facingX: real, facingY: real, isSprinting: bool,
    triggers: set<InputType>, aimX: real, aimY: real)

  /** The constructor: a missing initial action set gives no pending triggers. */
  function NewInput(x: real, y: real, facingX: real, facingY: real, isSprinting: bool,
                    initialActions: Option<set<InputType>>, aimX: real, aimY: real): (s: InputState)
    ensures initialActions.None? ==> s.triggers == {}
    ensures initialActions.Some? ==> s.triggers == initialActions.value
    ensures s.x == x && s.y == y && s.facingX == facingX && s.facingY == facingY
    ensures s.isSprinting == isSprinting && s.aimX == aimX && s.aimY == aimY
  {
    InputState(x, y, facingX, facingY, isSprinting,
               if initialActions.Some? then initialActions.value else {}, aimX, aimY)
  }

  datatype Consumed = Consumed(state: InputState, wasPending: bool)

  /** `tryConsumeAction(t)`: `Set.remove`, which reports whether `t` was there. */
  function TryConsume(s: InputState, t: InputType): Consumed
  {
    Consumed(s.(triggers := s.triggers - {t}), t in s.triggers)
  }

  /** `addTrigger(t)`. */
  function WithTrigger(s: InputState, t: InputType): InputState
  {
    s.(triggers := s.triggers + {t})
  }

  /** `updateMovementState(...)`: new axes, facing and sprint flag. */
  function UpdateMovement(s: InputState, x: real, y: real, facingX: real, facingY: real, isSprinting: bool): InputState
  {
    s.(x := x, y := y, facingX := facingX, facingY := facingY, isSprinting := isSprinting)
  }

  /** A trigger fires once: consuming reports it pending iff it was, and a second consume
      right after reports nothing; the other triggers and all movement fields stay. */
  lemma {:induction false} ConsumeFiresOnce(s: InputState, t: InputType)
    ensures TryConsume(s, t).wasPending <==> t in s.triggers
    ensures !TryConsume(TryConsume(s, t).state, t).wasPending
    ensures TryConsume(s, t).state.triggers + (if t in s.triggers then {t} else {}) == s.triggers
    ensures forall u :: u != t ==> (u in TryConsume(s, t).state.triggers <==> u in s.triggers)
    ensures TryConsume(s, t).state.(triggers := s.triggers) == s
  {
    var r := TryConsume(s, t).state;
    assert r.(triggers := s.triggers) == s;
  }

  /** Adding a trigger makes the next consume of it succeed, whatever was pending before. */
  lemma {:induction false} AddedTriggerIsConsumed(s: InputState, t: InputType)
    ensures TryConsume(WithTrigger(s, t), t).wasPending
    ensures TryConsume(WithTrigger(s, t), t).state.triggers == s.triggers - {t}
  {
    assert WithTrigger(s, t).triggers - {t} == s.triggers - {t};
  }

  /** Movement updates leave the pending triggers and the aim point alone. */
  lemma {:induction false} MovementKeepsTriggers(s: InputState, x: real, y: real, fx: real, fy: real, sprint: bool)
    ensures var r := UpdateMovement(s, x, y, fx, fy, sprint);
      && r.triggers == s.triggers && r.aimX == s.aimX && r.aimY == s.aimY
      && r == NewInput(x, y, fx, fy, sprint, Some(s.triggers), s.aimX, s.aimY)
  {
  }

  class InputComponent {
    var x: real
    var y: real
    var facingX: real
    var facingY: real
    var isSprinting: bool
    var triggers: set<InputType>
    var aimX: real
    var aimY: real

    /** The record's current value. */
    function State(): InputState
      reads this
    {
      InputState(x, y, facingX, facingY, isSprinting, triggers, aimX, aimY)
    }

    constructor (x: real, y: real, facingX: real, facingY: real, isSprinting: bool,
                 initialActions: Option<set<InputType>>, aimX: real, aimY: real)
      ensures State() == NewInput(x, y, facingX, facingY, isSprinting, initialActions, aimX, aimY)
    {
      this.x := x;
      this.y := y;
      this.facingX := facingX;
      this.facingY := facingY;
      this.isSprinting := isSprinting;
      triggers := {};
      new;
      if initialActions.Some? {
        triggers := triggers + initialActions.value;
      }
      this.aimX := aimX;
      this.aimY := aimY;
    }

    method TryConsumeAction(t: InputType) returns (wasPending: bool)
      modifies this
      ensures Consumed(State(), wasPending) == TryConsume(old(State()), t)
    {
      wasPending := t in triggers;
      triggers := triggers - {t};
    }

    /** `hasPendingAction(t)`: membership, without consuming. */
    function HasPendingAction(t: InputType): (pending: bool)
      reads this
      ensures pending <==> TryConsume(State(), t).wasPending
    {
      t in triggers
    }

    method UpdateMovementState(x: real, y: real, facingX: real, facingY: real, isSprinting: bool)
      modifies this
      ensures State() == UpdateMovement(old(State()), x, y, facingX, facingY, isSprinting)
    {
      this.x := x;
      this.y := y;
      this.facingX := facingX;
      this.facingY := facingY;
      this.isSprinting := isSprinting;
    }

    method AddTrigger(t: InputType)
      modifies this
      ensures State() == WithTrigger(old(State()), t)
    {
      triggers := triggers + {t};
    }
  }
}
