/** The six audio categories and the shared Option wrapper. */
module Wrappers {
  datatype Option<+T> = None | Some(value: T)
}

module AudioCategories {

  /** A logical group of sounds sharing one volume and mute control. */
  datatype Category = Master | Music | SFX | UI | Voice | Ambient

  /** Every category, in declaration order (the order the enum enumerates them). */
  const AllCategories: seq<Category> := [Master, Music, SFX, UI, Voice, Ambient]

  /** The text a category prints as (the enum constant's name). */
  function Name(c: Category): string
  {
    match c
    case Master => "Master"
    case Music => "Music"
    case SFX => "SFX"
    case UI => "UI"
    case Voice => "Voice"
    case Ambient => "Ambient"
  }

  lemma AllCategoriesComplete(c: Category)
    ensures c in AllCategories
  {
  }

  lemma AllCategoriesDistinct()
    ensures forall i, j :: 0 <= i < j < |AllCategories| ==> AllCategories[i] != AllCategories[j]
  {
  }

  /** Distinct categories print as distinct names, so keys built from them never collide. */
  lemma NameInjective(a: Category, b: Category)
    ensures Name(a) == Name(b) ==> a == b
  {
  }
}
