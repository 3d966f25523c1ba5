/**
 * The server's item catalogue (`ItemType`) and its lenient parser
 * `fromString`, which upper-cases the text and looks the constant up by name,
 * answering `null` for an unknown name or a `null` argument.
 */
module ItemTypes {
  import opened Common

  datatype ItemType = WOOD | STONE | IRON_ORE | POTION_HP | SWORD_WOODEN

  /** The constant's Java name, as `name()` and `valueOf` see it. */
  function Name(t: ItemType): string
  {
    match t
    case WOOD => "WOOD"
    case STONE => "STONE"
    case IRON_ORE => "IRON_ORE"
    case POTION_HP => "POTION_HP"
    case SWORD_WOODEN => "SWORD_WOODEN"
  }

  /** `ItemType.valueOf(name)`: the constant with exactly that name, if there is one. */
  function ValueOf(name: string): (r: Option<ItemType>)
    ensures forall t :: r == Some(t) <==> name == Name(t)
  {
    if name == "WOOD" then Some(WOOD)
    else if name == "STONE" then Some(STONE)
    else if name == "IRON_ORE" then Some(IRON_ORE)
    else if name == "POTION_HP" then Some(POTION_HP)
    else if name == "SWORD_WOODEN" then Some(SWORD_WOODEN)
    else None
  }

  /** `fromString(value)`: `None` for a missing argument (the caught NullPointerException)
      and for a name no constant has (the caught IllegalArgumentException). */
  function FromString(value: Option<string>): (r: Option<ItemType>)
    ensures value.None? ==> r.None?
    ensures value.Some? ==> forall t :: r == Some(t) <==> Upper(value.value) == Name(t)
  {
    match value
    case None => None
    case Some(s) => ValueOf(Upper(s))
  }

  /** Every constant parses back from its own name. */
  lemma {:induction false} FromStringOfName(t: ItemType)
    ensures FromString(Some(Name(t))) == Some(t)
  {
    var n := Name(t);
    forall i | 0 <= i < |n|
      ensures Upper(n)[i] == n[i]
    {
      assert n[i] == '_' || 'A' <= n[i] <= 'Z';
    }
    assert Upper(n) == n;
  }

  /** The parse ignores letter case: a lower-cased name means the same item. */
  lemma {:induction false} FromStringIgnoresCase(s: string)
    ensures FromString(Some(Lower(s))) == FromString(Some(s))
    ensures FromString(Some(Upper(s))) == FromString(Some(s))
  {
    UpperOfLower(s);
    assert Upper(Upper(s)) == Upper(s) by {
      forall i | 0 <= i < |s|
        ensures Upper(Upper(s))[i] == Upper(s)[i]
      {
      }
    }
  }

  /** So the name of a constant in any case parses to it, e.g. "wood" and "Iron_Ore". */
  lemma LowercaseNamesParse(t: ItemType)
    ensures FromString(Some(Lower(Name(t)))) == Some(t)
  {
    FromStringIgnoresCase(Name(t));
    FromStringOfName(t);
  }
}
