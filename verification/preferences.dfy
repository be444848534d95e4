/**
 The activity's private preference store, reduced to the part the saber uses:
 a map from keys to ints, of which only `ColourKey` is ever read or written.
 */
module Preferences {
  import Colours

  type Store = map<string, int>

  const ColourKey: string := "SaberColour"

  /** Reads the saved colour, falling back to Blue when nothing is saved. */
  function LoadColour(p: Store): (c: int)
    ensures ColourKey in p ==> c == p[ColourKey]
    ensures ColourKey !in p ==> c == Colours.Blue
  {
    if ColourKey in p then p[ColourKey] else Colours.Blue
  }

  /** Writes the colour under `ColourKey`; every other entry is kept. */
  function SaveColour(p: Store, c: int): (p': Store)
    ensures p'.Keys == p.Keys + {ColourKey}
    ensures forall k :: k in p && k != ColourKey ==> p'[k] == p[k]
    ensures LoadColour(p') == c
  {
    p[ColourKey := c]
  }

  /** A store the app has never written yields Blue. */
  lemma LoadFromEmpty()
    ensures LoadColour(map[]) == Colours.Blue
  {
  }

  /** A later save replaces an earlier one completely. */
  lemma SaveOverwrites(p: Store, a: int, b: int)
    ensures SaveColour(SaveColour(p, a), b) == SaveColour(p, b)
  {
  }

  /** Saving the colour that is already stored changes nothing. */
  lemma SaveLoadedIsIdentity(p: Store)
    requires ColourKey in p
    ensures SaveColour(p, LoadColour(p)) == p
  {
  }

  /** The store holds no colour, or one of the three named ones. */
  predicate HoldsValidColour(p: Store) {
    ColourKey in p ==> Colours.Valid(p[ColourKey])
  }

  /** Loading from such a store always yields a named colour. */
  lemma LoadIsValid(p: Store)
    requires HoldsValidColour(p)
    ensures Colours.Valid(LoadColour(p))
  {
  }
}
