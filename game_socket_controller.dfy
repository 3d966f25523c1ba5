/**
 * The pure parts of the server's socket controller (`GameSocketController`):
 * turning the action names a client sends with its input into `InputType`
 * values, and the display name a guest joins under. The message routing, the
 * join future and its time-out are not part of this model.
 */
module GameSocketController {
  import opened Common
  import opened InputComponents
  import PlayerLifeCycle

  /** `InputType.name()`. */
  function InputTypeName(t: InputType): string
  {
    match t
    case DASH => "DASH"
    case ATTACK => "ATTACK"
  }

  /** `InputType.valueOf(name)`: exact, case-sensitive match; `None` where Java throws. */
  function InputTypeValueOf(name: string): (r: Option<InputType>)
    ensures r.Some? <==> exists t :: InputTypeName(t) == name
    ensures r.Some? ==> InputTypeName(r.value) == name
  {
    if name == "DASH" then assert InputTypeName(DASH) == name; Some(DASH)
    else if name == "ATTACK" then assert InputTypeName(ATTACK) == name; Some(ATTACK)
    else
      assert InputTypeName(DASH) != name && InputTypeName(ATTACK) != name;
      None
  }

  /** One element of `parseActions`' stream: upper-case, then `valueOf`; a `null` element or an
      unknown name gives `null`, which the filter drops. */
  function ParseAction(str: Option<string>): Option<InputType>
  {
    match str
    case None => None
    case Some(s) => InputTypeValueOf(Upper(s))
  }

  /** `parseActions(actionStrings)`: the set of the actions named, in any case; names that are
      not actions are dropped, and a missing or empty set gives no actions. */
  function ParseActions(actionStrings: Option<set<Option<string>>>): (r: set<InputType>)
    ensures actionStrings.None? || actionStrings.value == {} ==> r == {}
    ensures forall t :: t in r <==>
      actionStrings.Some? && exists s :: s in actionStrings.value && ParseAction(s) == Some(t)
  {
    if actionStrings.None? || actionStrings.value == {} then {}
    else set s | s in actionStrings.value && ParseAction(s).Some? :: ParseAction(s).value
  }

  /** The name `handleJoin` passes to `spawnGuest`: "Unknown" for a missing or blank name. */
  function JoinGuestName(guestName: Option<string>): (r: Option<string>)
    ensures r.Some?
    ensures guestName.None? || IsBlank(guestName.value) ==> r == Some("Unknown")
    ensures guestName.Some? && !IsBlank(guestName.value) ==> r == guestName
  {
    if guestName.None? || IsBlank(guestName.value) then Some("Unknown") else guestName
  }

  // ---------------------------------------------------------------------------
  // Properties
  // ---------------------------------------------------------------------------

  /** Names and `valueOf` are inverse: every action parses back from its name, and nothing but an
      action's exact name parses. */
  lemma {:induction false} ValueOfName(t: InputType, name: string)
    ensures InputTypeValueOf(InputTypeName(t)) == Some(t)
    ensures InputTypeValueOf(name).Some? ==> InputTypeName(InputTypeValueOf(name).value) == name
  {
    match t
    case DASH =>
    case ATTACK =>
  }

  /** Matching ignores case: an action named in lower, upper or mixed case is parsed. */
  lemma {:induction false} ParseIgnoresCase(t: InputType, s: string)
    requires Upper(s) == InputTypeName(t)
    ensures ParseAction(Some(s)) == Some(t)
    ensures ParseAction(Some(Lower(InputTypeName(t)))) == Some(t)
  {
    ValueOfName(t, Upper(s));
    UpperOfLower(InputTypeName(t));
    var n := InputTypeName(t);
    assert Upper(n) == n by {
      match t
      case DASH =>
        assert forall i :: 0 <= i < |n| ==> 'A' <= n[i] <= 'Z';
      case ATTACK =>
        assert forall i :: 0 <= i < |n| ==> 'A' <= n[i] <= 'Z';
    }
  }

  /** Each requested action is in the result, whatever its case, and adding an unknown name or a
      `null` changes nothing. */
  lemma {:induction false} ParseKeepsKnownDropsUnknown(strs: set<Option<string>>, extra: Option<string>, t: InputType)
    requires ParseAction(extra).None?
    ensures Some(InputTypeName(t)) in strs ==> t in ParseActions(Some(strs))
    ensures strs != {} ==> ParseActions(Some(strs + {extra})) == ParseActions(Some(strs))
  {
    if Some(InputTypeName(t)) in strs {
      ParseIgnoresCase(t, InputTypeName(t));
      assert ParseAction(Some(InputTypeName(t))) == Some(t);
    }
    if strs != {} {
      var a, b := ParseActions(Some(strs + {extra})), ParseActions(Some(strs));
      forall u
        ensures u in a <==> u in b
      {
        if u in a {
          var s :| s in strs + {extra} && ParseAction(s) == Some(u);
          assert s != extra;
        }
      }
    }
  }

  /** A guest who joins without a usable name is spawned as "Unknown (Guest)": the controller's
      default means the service's own "Guest" default is never reached from a join. */
  lemma {:induction false} NamelessGuestJoinsAsUnknown(guestName: Option<string>)
    ensures guestName.None? || IsBlank(guestName.value) ==>
      PlayerLifeCycle.GuestName(JoinGuestName(guestName)) == "Unknown (Guest)"
    ensures PlayerLifeCycle.GuestName(JoinGuestName(guestName)) != "Guest"
  {
    var n := JoinGuestName(guestName).value;
    if guestName.None? || IsBlank(guestName.value) {
      assert !IsBlank(n) by {
        assert !IsJavaWhitespace(n[0]);
      }
    } else {
      assert !IsBlank(n);
      var g := PlayerLifeCycle.GuestName(JoinGuestName(guestName));
      assert |g| == |n| + 8;
    }
  }
}
