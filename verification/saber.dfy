/**
 The saber as the main activity holds it: a colour, an on/off flag and the
 motion filter. Every handler becomes a pure transition that returns the new
 state and the sound it starts; the sound engine itself is not modelled.
 */
module Saber {
  import Colours
  import Preferences
  import Motion

  /** `rand.nextInt(RandMax) < WilhelmChance` adds the scream to a hit. */
  const RandMax: int := 100
  const WilhelmChance: int := 5

  /** Sounds a handler starts. `On` also starts the looping pulse and `Off`
      stops it. */
  datatype Sound = NoSound | Swing | Hit | HitWithWilhelm | On | Off

  datatype State = State(colour: int, on: bool, motion: Motion.Filter)

  /** A new state and the sound that goes with reaching it. */
  datatype Step = Step(state: State, sound: Sound)

  /** Which of the two colour buttons was pressed. */
  datatype Direction = Forward | Backward

  /** The activity after creation: the stored colour (Blue when none is
      stored), switched off, the filter at its initial values. */
  function Create(prefs: Preferences.Store): (s: State)
    ensures !s.on
    ensures s.motion == Motion.Initial
    ensures Preferences.ColourKey !in prefs ==> s.colour == Colours.Blue
    ensures Preferences.HoldsValidColour(prefs) ==> Colours.Valid(s.colour)
  {
    State(Preferences.LoadColour(prefs), false, Motion.Initial)
  }

  /** The power button. */
  function Toggle(s: State): (r: Step)
    ensures r.state.on != s.on
    ensures r.state.colour == s.colour && r.state.motion == s.motion
    ensures r.sound == On <==> r.state.on
    ensures r.sound == Off <==> !r.state.on
  {
    if !s.on then Step(s.(on := true), On)
    else Step(s.(on := false), Off)
  }

  /** The two colour buttons; they play nothing. */
  function Cycle(s: State, d: Direction): (r: Step)
    ensures Colours.Valid(r.state.colour)
    ensures r.state.on == s.on && r.state.motion == s.motion
    ensures r.sound == NoSound
    ensures d == Forward ==> r.state.colour != s.colour
  {
    match d
    case Forward => Step(s.(colour := Colours.Next(s.colour)), NoSound)
    case Backward => Step(s.(colour := Colours.Previous(s.colour)), NoSound)
  }

  /** The save button: the current colour goes to the store under its key. */
  function Save(s: State, prefs: Preferences.Store): (p: Preferences.Store)
    ensures Preferences.LoadColour(p) == s.colour
    ensures p.Keys == prefs.Keys + {Preferences.ColourKey}
    ensures forall k :: k in prefs && k != Preferences.ColourKey ==> p[k] == prefs[k]
  {
    Preferences.SaveColour(prefs, s.colour)
  }

  /** One accelerometer callback. The filter always advances; a sound plays
      only while the saber is on. `draw` is the value `rand.nextInt(RandMax)`
      would return, consulted only on a hit. */
  function Sense(s: State, magnitude: real, draw: int): (r: Step)
    requires 0 <= draw < RandMax
    ensures r.state.motion == Motion.Update(s.motion, magnitude)
    ensures r.state.colour == s.colour && r.state.on == s.on
    ensures !s.on ==> r.sound == NoSound
    ensures (r.sound == Hit || r.sound == HitWithWilhelm)
            <==> s.on && r.state.motion.acceleration > Motion.HitThreshold
    ensures r.sound == Swing
            <==> s.on && Motion.SwingThreshold < r.state.motion.acceleration <= Motion.HitThreshold
    ensures r.sound == HitWithWilhelm ==> draw < WilhelmChance
    ensures r.sound != On && r.sound != Off
  {
    var motion := Motion.Update(s.motion, magnitude);
    var a := motion.acceleration;
    var sound :=
      if s.on && a > Motion.SwingThreshold then
        if a > Motion.HitThreshold then
          if draw < WilhelmChance then HitWithWilhelm else Hit
        else Swing
      else NoSound;
    Step(s.(motion := motion), sound)
  }

  /** The gesture a sound announces. */
  function GestureOf(sound: Sound): Motion.Gesture {
    match sound
    case Swing => Motion.SwingGesture
    case Hit => Motion.HitGesture
    case HitWithWilhelm => Motion.HitGesture
    case _ => Motion.NoGesture
  }

  /** The sound of a callback is the band of the filtered value while on,
      and nothing while off. */
  lemma SenseAnnouncesGesture(s: State, magnitude: real, draw: int)
    requires 0 <= draw < RandMax
    ensures GestureOf(Sense(s, magnitude, draw).sound)
            == (if s.on then Motion.Classify(Motion.Update(s.motion, magnitude).acceleration)
                else Motion.NoGesture)
  {
  }

  /** The scream joins a hit exactly when the draw is below the chance. */
  lemma WilhelmOnlyWithHit(s: State, magnitude: real, draw: int)
    requires 0 <= draw < RandMax
    ensures Sense(s, magnitude, draw).sound == HitWithWilhelm
            ==> s.on && Motion.Update(s.motion, magnitude).acceleration > Motion.HitThreshold
    ensures GestureOf(Sense(s, magnitude, draw).sound) == Motion.HitGesture
            ==> (Sense(s, magnitude, draw).sound == HitWithWilhelm <==> draw < WilhelmChance)
  {
  }

  /** The on flag does not affect how the filter advances. */
  lemma SenseMotionIgnoresPower(s: State, magnitude: real, d1: int, d2: int)
    requires 0 <= d1 < RandMax && 0 <= d2 < RandMax
    ensures Sense(s.(on := true), magnitude, d1).state.motion
            == Sense(s.(on := false), magnitude, d2).state.motion
  {
  }

  /** Two presses of the power button restore the state, sounding On and Off
      once each. */
  lemma ToggleTwice(s: State)
    ensures Toggle(Toggle(s).state).state == s
    ensures {Toggle(s).sound, Toggle(Toggle(s).state).sound} == {On, Off}
  {
  }

  /** Three presses of "next" restore a named colour. */
  lemma CycleForwardThrice(s: State)
    requires Colours.Valid(s.colour)
    ensures Cycle(Cycle(Cycle(s, Forward).state, Forward).state, Forward).state == s
  {
    Colours.NextHasOrderThree(s.colour);
  }

  /** Two presses of "previous" restore a named colour. */
  lemma CycleBackwardTwice(s: State)
    requires Colours.Valid(s.colour)
    ensures Cycle(Cycle(s, Backward).state, Backward).state == s
  {
    Colours.PreviousIsInvolution(s.colour);
  }

  /** Saving and then creating the activity anew brings back the colour,
      switched off and with a fresh filter. */
  lemma RestartRestoresColour(s: State, prefs: Preferences.Store)
    ensures Create(Save(s, prefs)) == State(s.colour, false, Motion.Initial)
  {
  }

  datatype Option<T> = None | Some(value: T)

  /** The six saber pictures. */
  datatype Image = BlueBlade | BlueHilt | GreenBlade | GreenHilt | RedBlade | RedHilt

  /** The colour a picture shows. */
  function ColourOf(i: Image): int {
    match i
    case BlueBlade => Colours.Blue
    case BlueHilt => Colours.Blue
    case GreenBlade => Colours.Green
    case GreenHilt => Colours.Green
    case RedBlade => Colours.Red
    case RedHilt => Colours.Red
  }

  /** Whether a picture shows the lit blade rather than the bare hilt. */
  predicate IsBlade(i: Image) {
    i == BlueBlade || i == GreenBlade || i == RedBlade
  }

  /** The picture for a colour and power state; `None` when the colour is
      unnamed, in which case the button keeps whatever picture it had. */
  function ImageFor(colour: int, on: bool): (r: Option<Image>)
    ensures r.Some? <==> Colours.Valid(colour)
    ensures r.Some? ==> ColourOf(r.value) == colour && (IsBlade(r.value) <==> on)
  {
    if colour == Colours.Red then Some(if on then RedBlade else RedHilt)
    else if colour == Colours.Green then Some(if on then GreenBlade else GreenHilt)
    else if colour == Colours.Blue then Some(if on then BlueBlade else BlueHilt)
    else None
  }

  /** Distinct named colour and power pairs show distinct pictures. */
  lemma ImageForIsInjective(c1: int, o1: bool, c2: int, o2: bool)
    requires Colours.Valid(c1) && Colours.Valid(c2)
    requires ImageFor(c1, o1) == ImageFor(c2, o2)
    ensures c1 == c2 && o1 == o2
  {
  }

  /** Every picture is the one shown for its own colour and power state. */
  lemma ImageForRecovers(i: Image)
    ensures ImageFor(ColourOf(i), IsBlade(i)) == Some(i)
  {
  }
}
