/**
 * Keyboard state on the client (`InputSystem.js`): key events flip flags in
 * an action table, and the movement direction is derived from the flags.
 * The window listeners are modelled as a flag plus the two handlers, which
 * the browser calls with `event.key`.
 */
module InputSystem {
  import opened Common

  datatype Action = Up | Down | Left | Right | Sprint

  /** `KEY_MAP`: lower-case key names to actions; WASD and the arrow keys steer, Shift sprints. */
  function KeyMap(key: string): (a: Option<Action>)
    ensures key == "w" || key == "arrowup" <==> a == Some(Up)
    ensures key == "s" || key == "arrowdown" <==> a == Some(Down)
    ensures key == "a" || key == "arrowleft" <==> a == Some(Left)
    ensures key == "d" || key == "arrowright" <==> a == Some(Right)
    ensures key == "shift" <==> a == Some(Sprint)
  {
    if key == "w" || key == "arrowup" then Some(Up)
    else if key == "s" || key == "arrowdown" then Some(Down)
    else if key == "a" || key == "arrowleft" then Some(Left)
    else if key == "d" || key == "arrowright" then Some(Right)
    else if key == "shift" then Some(Sprint)
    else None
  }

  const ALL_RELEASED: map<Action, bool> :=
    map[Up := false, Down := false, Left := false, Right := false, Sprint := false]

  /** The action table holds a flag for each of the five actions. */
  ghost predicate Complete(actions: map<Action, bool>)
  {
    forall a: Action :: a in actions
  }

  /** The table after a key event: a mapped key sets its action to `down`; other keys do nothing. */
  function AfterKey(actions: map<Action, bool>, key: string, down: bool): map<Action, bool>
  {
    var action := KeyMap(Lower(key));
    if action.Some? then actions[action.value := down] else actions
  }

  /** A key event touches at most the action its key names, whatever the key's case. */
  lemma KeyEventIsLocal(actions: map<Action, bool>, key: string, down: bool)
    requires Complete(actions)
    ensures Complete(AfterKey(actions, key, down))
    ensures KeyMap(Lower(key)).None? ==> AfterKey(actions, key, down) == actions
    ensures KeyMap(Lower(key)).Some? ==>
      && AfterKey(actions, key, down)[KeyMap(Lower(key)).value] == down
      && forall a :: a != KeyMap(Lower(key)).value ==> AfterKey(actions, key, down)[a] == actions[a]
  {
  }

  /** Key names are matched case-insensitively: "W" and "ArrowUp" act like "w" and "arrowup". */
  lemma {:induction false} KeyCaseInsensitive(actions: map<Action, bool>, key: string, down: bool)
    ensures AfterKey(actions, Upper(key), down) == AfterKey(actions, key, down)
  {
    LowerOfUpper(key);
  }

  /** Pressing then releasing a key leaves its action released and every other action as before. */
  lemma PressThenRelease(actions: map<Action, bool>, key: string)
    requires Complete(actions)
    requires KeyMap(Lower(key)).Some?
    ensures var after := AfterKey(AfterKey(actions, key, true), key, false);
      && after[KeyMap(Lower(key)).value] == false
      && forall a :: a != KeyMap(Lower(key)).value ==> after[a] == actions[a]
  {
  }

  /** One axis of `getDirection`: +1 for the positive key, -1 for the negative, 0 for both or neither. */
  function Axis(negative: bool, positive: bool): (v: int)
    ensures -1 <= v <= 1
    ensures v == 1 <==> positive && !negative
    ensures v == -1 <==> negative && !positive
  {
    (if positive then 1 else 0) - (if negative then 1 else 0)
  }

  class InputSystem {
    var actions: map<Action, bool>
    /** Whether the `keydown`/`keyup` listeners are registered. */
    var listening: bool

    ghost predicate Valid()
      reads this
    {
      Complete(actions)
    }

    /** All actions start released, and the listeners are registered. */
    constructor ()
      ensures Valid() && actions == ALL_RELEASED && listening
    {
      actions := ALL_RELEASED;
      listening := true;
      forall a: Action ensures a in ALL_RELEASED {
        match a
        case Up => case Down => case Left => case Right => case Sprint =>
      }
    }

    method OnKeyDown(key: string)
      requires Valid()
      modifies this
      ensures Valid()
      ensures actions == AfterKey(old(actions), key, true) && listening == old(listening)
    {
      var k := Lower(key);
      var action := KeyMap(k);
      if action.Some? {
        actions := actions[action.value := true];
      }
    }

    method OnKeyUp(key: string)
      requires Valid()
      modifies this
      ensures Valid()
      ensures actions == AfterKey(old(actions), key, false) && listening == old(listening)
    {
      var k := Lower(key);
      var action := KeyMap(k);
      if action.Some? {
        actions := actions[action.value := false];
      }
    }

    /** `getDirection()`: each axis in {-1, 0, 1}, opposite keys cancelling; sprint passes through. */
    method GetDirection() returns (x: int, y: int, isSprinting: bool)
      requires Valid()
      ensures x == Axis(actions[Left], actions[Right])
      ensures y == Axis(actions[Up], actions[Down])
      ensures isSprinting == actions[Sprint]
    {
      x, y := 0, 0;
      if actions[Left] { x := x - 1; }
      if actions[Right] { x := x + 1; }
      if actions[Up] { y := y - 1; }
      if actions[Down] { y := y + 1; }
      isSprinting := actions[Sprint];
    }

    /** `destroy()`: the listeners are removed. */
    method Destroy()
      modifies this
      ensures !listening && actions == old(actions)
    {
      listening := false;
    }
  }
}
