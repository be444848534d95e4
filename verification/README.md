# Jedi Simulator saber state machine in Dafny

This project models the saber logic of the Jedi Simulator main activity. That
activity turns an Android phone into a lightsaber. The saber state has five
parts:

- a colour, stored as an int: 0 Blue, 1 Green, 2 Red;
- an on/off flag;
- three motion fields: the smoothed `acceleration`, and the `lastAcceleration`
  and `currentAcceleration` magnitudes.

Each handler of the activity is a pure transition here. It returns the new state
and the sound it starts: `NoSound`, `Swing`, `Hit`, `HitWithWilhelm`, `On` or
`Off`.

- `colours.dfy` (`Colours`): the "next" and "previous" colour tables.
- `preferences.dfy` (`Preferences`): the preference store as a `map<string, int>`,
  with load (Blue as default) and save under the key `"SaberColour"`.
- `motion.dfy` (`Motion`): the smoothing recurrence over `real` and the
  swing/hit bands. It also proves that holding the device steady settles
  classification to nothing.
- `saber.dfy` (`Saber`): the state record and the handlers `Create`, `Toggle`,
  `Cycle`, `Save` and `Sense`, plus the saber picture choice.
- `session.dfy` (`Session`): sequences of button presses and sensor callbacks,
  with invariants over whole runs.

The "previous" button does not undo "next". The code maps Red to Blue, Green to
Green and Blue to Red, so Blue goes to Red under both buttons. The button names
suggest that "previous" undoes "next"; the code does not, and the model follows
the code. `Colours.PreviousUndoesNextOnlyFromBlue`
and `Colours.NextUndoesPreviousOnlyFromRed` pin down exactly where the round trip
holds. "Previous" is an involution on the named colours.

## Model

| member | source | states |
|---|---|---|
| Colours.Next | app/src/main/java/com/idirenzo/mobiledev/jedisimulator/MainActivity.java:183-194 | "next" always yields a named colour and never the colour it started from |
| Colours.Previous | app/src/main/java/com/idirenzo/mobiledev/jedisimulator/MainActivity.java:197-208 | "previous" always yields a named colour; Green is its only fixed point |
| Colours.NextFollowsRing | app/src/main/java/com/idirenzo/mobiledev/jedisimulator/MainActivity.java:183-194 | "next" is the successor in the cyclic order Blue, Red, Green |
| Colours.NextHasOrderThree | app/src/main/java/com/idirenzo/mobiledev/jedisimulator/MainActivity.java:183-194 | three presses of "next" return to any named colour, and one or two do not |
| Colours.NextIsOnto | app/src/main/java/com/idirenzo/mobiledev/jedisimulator/MainActivity.java:183-194 | every named colour is reached by "next" from some named colour |
| Colours.PreviousIsInvolution | app/src/main/java/com/idirenzo/mobiledev/jedisimulator/MainActivity.java:197-208 | two presses of "previous" return to any named colour |
| Colours.PreviousUndoesNextOnlyFromBlue | app/src/main/java/com/idirenzo/mobiledev/jedisimulator/MainActivity.java:183-208 | next-then-previous returns to the start exactly when the start is Blue |
| Colours.NextUndoesPreviousOnlyFromRed | app/src/main/java/com/idirenzo/mobiledev/jedisimulator/MainActivity.java:183-208 | previous-then-next returns to the start exactly when the start is Red |
| Colours.PreviousIsNotInverse | app/src/main/java/com/idirenzo/mobiledev/jedisimulator/MainActivity.java:183-208 | from Blue both buttons give Red; next-then-previous from Red ends on Green and from Green ends on Red |
| Colours.UnnamedActsAsRed | app/src/main/java/com/idirenzo/mobiledev/jedisimulator/MainActivity.java:183-200 | any value outside the three colours takes the Red branch of both tables: Green after "next", Blue after "previous" |
| Preferences.LoadColour | app/src/main/java/com/idirenzo/mobiledev/jedisimulator/MainActivity.java:79-80 | the loaded colour is the stored one when the key is present, and Blue when it is absent |
| Preferences.SaveColour | app/src/main/java/com/idirenzo/mobiledev/jedisimulator/MainActivity.java:157-161 | saving adds only the colour key, keeps every other entry, and a later load returns the saved colour |
| Preferences.LoadFromEmpty | app/src/main/java/com/idirenzo/mobiledev/jedisimulator/MainActivity.java:80 | an empty store loads as Blue |
| Preferences.SaveOverwrites | app/src/main/java/com/idirenzo/mobiledev/jedisimulator/MainActivity.java:157-161 | a second save replaces the first completely |
| Preferences.SaveLoadedIsIdentity | app/src/main/java/com/idirenzo/mobiledev/jedisimulator/MainActivity.java:157-161 | saving the colour just loaded leaves the store unchanged |
| Preferences.LoadIsValid | app/src/main/java/com/idirenzo/mobiledev/jedisimulator/MainActivity.java:80 | a store holding no colour or a named one always loads a named colour |
| Motion.Update | app/src/main/java/com/idirenzo/mobiledev/jedisimulator/MainActivity.java:123-130 | a callback shifts the newest magnitude into place; the new running value minus 0.9 times the old one equals the change in magnitude |
| Motion.Classify | app/src/main/java/com/idirenzo/mobiledev/jedisimulator/MainActivity.java:133-145 | hit exactly above 26, swing exactly in (14, 26], nothing at or below 14; the bands are disjoint and cover every value |
| Motion.ClassifyIsMonotone | app/src/main/java/com/idirenzo/mobiledev/jedisimulator/MainActivity.java:133-145 | a larger running value never gives a weaker gesture |
| Motion.FromRestClassifiesDelta | app/src/main/java/com/idirenzo/mobiledev/jedisimulator/MainActivity.java:127-135 | from a zero running value a sample is classified by its change in magnitude alone |
| Motion.Hold | app/src/main/java/com/idirenzo/mobiledev/jedisimulator/MainActivity.java:127-130 | after one or more callbacks at a steady magnitude, the current magnitude is that magnitude |
| Motion.HoldDecays | app/src/main/java/com/idirenzo/mobiledev/jedisimulator/MainActivity.java:127-130 | at a steady magnitude the running value after n callbacks is 0.9^n times its start |
| Motion.SteadyHoldSettles | app/src/main/java/com/idirenzo/mobiledev/jedisimulator/MainActivity.java:127-145 | held steady, n callbacks with 14n >= 9a bring classification to nothing |
| Motion.AnyHoldSettles | app/src/main/java/com/idirenzo/mobiledev/jedisimulator/MainActivity.java:127-145 | from any filter state, a steady magnitude settles classification to nothing after a bounded number of callbacks |
| Saber.Create | app/src/main/java/com/idirenzo/mobiledev/jedisimulator/MainActivity.java:72-80 | a new activity is off, its filter is at the initial values, its colour is Blue when nothing is stored and named when the store is |
| Saber.Toggle | app/src/main/java/com/idirenzo/mobiledev/jedisimulator/MainActivity.java:167-176 | the power button flips the flag, keeps colour and motion, and sounds On exactly when the saber ends up on and Off exactly when it ends up off |
| Saber.Cycle | app/src/main/java/com/idirenzo/mobiledev/jedisimulator/MainActivity.java:180-211 | a colour button yields a named colour, keeps power and motion, plays nothing, and "next" always changes the colour |
| Saber.Save | app/src/main/java/com/idirenzo/mobiledev/jedisimulator/MainActivity.java:157-161 | the save button stores the current colour under its key and changes no other entry |
| Saber.Sense | app/src/main/java/com/idirenzo/mobiledev/jedisimulator/MainActivity.java:123-146 | a callback always advances the filter; while off it is silent; while on it sounds a hit above 26 and a swing in (14, 26]; the scream comes only with a draw below 5 |
| Saber.SenseAnnouncesGesture | app/src/main/java/com/idirenzo/mobiledev/jedisimulator/MainActivity.java:133-145 | the gesture of the sound equals the band of the filtered value while on, and nothing while off |
| Saber.WilhelmOnlyWithHit | app/src/main/java/com/idirenzo/mobiledev/jedisimulator/MainActivity.java:135-141 | the scream only comes while on with a filtered value above 26, and a hit carries it exactly when the draw is below 5 |
| Saber.SenseMotionIgnoresPower | app/src/main/java/com/idirenzo/mobiledev/jedisimulator/MainActivity.java:127-133 | the filter advances identically whether the saber is on or off |
| Saber.ToggleTwice | app/src/main/java/com/idirenzo/mobiledev/jedisimulator/MainActivity.java:167-176 | two presses of the power button restore the state, with one On and one Off |
| Saber.CycleForwardThrice | app/src/main/java/com/idirenzo/mobiledev/jedisimulator/MainActivity.java:180-194 | three "next" presses restore a saber with a named colour |
| Saber.CycleBackwardTwice | app/src/main/java/com/idirenzo/mobiledev/jedisimulator/MainActivity.java:195-208 | two "previous" presses restore a saber with a named colour |
| Saber.RestartRestoresColour | app/src/main/java/com/idirenzo/mobiledev/jedisimulator/MainActivity.java:78-80 | saving, then creating the activity again, gives the saved colour, off, with a fresh filter |
| Saber.ImageFor | app/src/main/java/com/idirenzo/mobiledev/jedisimulator/MainActivity.java:214-238 | a picture is chosen exactly for the named colours; it shows the saber's own colour, and it is a blade exactly when the saber is on |
| Saber.ImageForIsInjective | app/src/main/java/com/idirenzo/mobiledev/jedisimulator/MainActivity.java:214-238 | different named colour and power pairs get different pictures |
| Saber.ImageForRecovers | app/src/main/java/com/idirenzo/mobiledev/jedisimulator/MainActivity.java:214-238 | each of the six pictures is exactly the one shown for its own colour and power state |
| Session.Launch | app/src/main/java/com/idirenzo/mobiledev/jedisimulator/MainActivity.java:60-85 | a launch over a store holding a named colour (or none) gives a well-formed app that is off |
| Session.Apply | app/src/main/java/com/idirenzo/mobiledev/jedisimulator/MainActivity.java:152-211 | every action keeps the colours named; only the save button touches the store; only a sample moves the filter |
| Session.Run | app/src/main/java/com/idirenzo/mobiledev/jedisimulator/MainActivity.java:123-211 | a run gives one sound per action, keeps the colours named, and leaves the store alone when nothing is saved |
| Session.OffIsSilent | app/src/main/java/com/idirenzo/mobiledev/jedisimulator/MainActivity.java:133-145 | a saber left off stays off and silent through any actions without a power press |
| Session.MotionIgnoresPower | app/src/main/java/com/idirenzo/mobiledev/jedisimulator/MainActivity.java:127-133 | without power presses, filter, colour and store evolve identically whether the saber starts on or off |
| Session.SaveThenRelaunch | app/src/main/java/com/idirenzo/mobiledev/jedisimulator/MainActivity.java:157-161 | save then relaunch restores the colour and keeps the app well-formed |
| Session.RunConcat | app/src/main/java/com/idirenzo/mobiledev/jedisimulator/MainActivity.java:123-211 | running two action sequences in turn equals running their concatenation, state and sounds alike |
| Session.LastSaveSurvivesRelaunch | app/src/main/java/com/idirenzo/mobiledev/jedisimulator/MainActivity.java:157-161 | after any session ending in a save, a relaunch restores the colour the saber had at that save |

## Left out

- Activity lifecycle and platform wiring are not modelled. This covers window flags, sensor registration in `onCreate`, `onPause` and `onPostResume` (which pause and resume the pulse), immersive mode in `onWindowFocusChanged`, and the help/about navigation. All of it is platform I/O.
- The sound engine is not modelled. It chooses one of four clips at random and runs the looping pulse. The model stops at the sound tag each handler starts.
- The help/about screen is a navigation stub and is not modelled.
- The "Colour Saved" toast is not modelled, because it is user-interface output only.
- Motion.Update: works over `real`. It does not model single-precision rounding of `0.9f`, the float fields or the magnitude. It also does not model NaN or infinity.
- Saber.Sense: the magnitude is an input. The square root of the sample's squared components is not computed.
- Saber.Sense: the random draw is a parameter in `[0, 100)`, the range `nextInt(100)` guarantees. A real `Random` is consumed only on hits, and that consumption is not modelled.
- Preferences.LoadColour: the store maps keys to ints. The error a typed preference read raises on a non-int entry is not modelled.
- Motion.GravityEarth: the platform's standard gravity is taken as the real 9.80665, not its float value.
