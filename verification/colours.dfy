/**
 Saber colours as the main activity keeps them: a plain `int`, because the
 preference store can hand back any integer, not only the three named ones.
 The two colour buttons are the `switch` tables of `cycleSaberColour`; both
 put the Red case after `default`, so every unnamed value behaves as Red.
 */
module Colours {

  const Blue: int := 0
  const Green: int := 1
  const Red: int := 2

  /** The three colours the app names. */
  predicate Valid(c: int) {
    c == Blue || c == Green || c == Red
  }

  /** The "next saber" table: Red -> Green -> Blue -> Red. */
  function Next(c: int): (r: int)
    ensures Valid(r)
    ensures r != c
  {
    if c == Green then Blue
    else if c == Blue then Red
    else Green  // Red, and every value the switch does not name
  }

  /** The "previous saber" table as the code has it: Red and Blue swap,
      Green stays Green. */
  function Previous(c: int): (r: int)
    ensures Valid(r)
    ensures r == c <==> c == Green
  {
    if c == Green then Green
    else if c == Blue then Red
    else Blue  // Red, and every value the switch does not name
  }

  /** The order in which "next" visits the colours. */
  const Ring: seq<int> := [Blue, Red, Green]

  /** Where a colour sits in `Ring`. */
  function Position(c: int): (i: nat)
    requires Valid(c)
    ensures i < |Ring| && Ring[i] == c
  {
    if c == Blue then 0 else if c == Red then 1 else 2
  }

  /** "Next" is the successor in `Ring`, wrapping at the end. */
  lemma NextFollowsRing(c: int)
    requires Valid(c)
    ensures Next(c) == Ring[(Position(c) + 1) % |Ring|]
  {
  }

  /** Three presses of "next" return to the start, and no fewer do. */
  lemma NextHasOrderThree(c: int)
    requires Valid(c)
    ensures Next(Next(Next(c))) == c
    ensures Next(c) != c && Next(Next(c)) != c
  {
  }

  /** "Next" reaches every colour: it permutes the three. */
  lemma NextIsOnto(c: int)
    requires Valid(c)
    ensures exists p :: Valid(p) && Next(p) == c
  {
    assert Next(Next(Next(c))) == c;
  }

  /** "Previous" undoes itself on the three colours. */
  lemma PreviousIsInvolution(c: int)
    requires Valid(c)
    ensures Previous(Previous(c)) == c
  {
  }

  /** "Previous" undoes "next" only when starting from Blue. */
  lemma PreviousUndoesNextOnlyFromBlue(c: int)
    requires Valid(c)
    ensures Previous(Next(c)) == c <==> c == Blue
  {
  }

  /** "Next" undoes "previous" only when starting from Red. */
  lemma NextUndoesPreviousOnlyFromRed(c: int)
    requires Valid(c)
    ensures Next(Previous(c)) == c <==> c == Red
  {
  }

  /** From Blue both buttons give Red; next-then-previous from Red ends on
      Green, and from Green ends on Red. */
  lemma PreviousIsNotInverse()
    ensures Next(Blue) == Previous(Blue) == Red
    ensures Previous(Next(Red)) == Green
    ensures Previous(Next(Green)) == Red
  {
  }

  /** Both tables treat any unnamed value exactly as Red. */
  lemma UnnamedActsAsRed(c: int)
    requires !Valid(c)
    ensures Next(c) == Next(Red) == Green
    ensures Previous(c) == Previous(Red) == Blue
  {
  }
}
