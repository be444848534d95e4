/**
 A session of the main activity: the saber together with the preference
 store, driven by a sequence of button presses and sensor callbacks.
 */
module Session {
  import Colours
  import Preferences
  import Saber

  datatype App = App(saber: Saber.State, prefs: Preferences.Store)

  /** Everything that reaches the saber: the power button, the two colour
      buttons, the save button, and one accelerometer callback carrying the
      sample's magnitude and the random draw a hit would consult. */
  datatype Action =
    | PressPower
    | PressColour(direction: Saber.Direction)
    | PressSave
    | Sample(magnitude: real, draw: int)

  predicate ValidAction(a: Action) {
    a.Sample? ==> 0 <= a.draw < Saber.RandMax
  }

  predicate AllValid(acts: seq<Action>) {
    forall i :: 0 <= i < |acts| ==> ValidAction(acts[i])
  }

  /** A named colour on the saber, and none but a named colour in the store. */
  predicate WellFormed(app: App) {
    Colours.Valid(app.saber.colour) && Preferences.HoldsValidColour(app.prefs)
  }

  /** The activity as created over an existing store. */
  function Launch(prefs: Preferences.Store): (app: App)
    ensures Preferences.HoldsValidColour(prefs) ==> WellFormed(app)
    ensures !app.saber.on
  {
    App(Saber.Create(prefs), prefs)
  }

  datatype Outcome = Outcome(app: App, sound: Saber.Sound)

  /** One action. Only the save button touches the store. */
  function Apply(app: App, a: Action): (r: Outcome)
    requires ValidAction(a)
    ensures WellFormed(app) ==> WellFormed(r.app)
    ensures !a.PressSave? ==> r.app.prefs == app.prefs
    ensures !a.Sample? ==> r.app.saber.motion == app.saber.motion
  {
    match a
    case PressPower =>
      var st := Saber.Toggle(app.saber);
      Outcome(app.(saber := st.state), st.sound)
    case PressColour(d) =>
      var st := Saber.Cycle(app.saber, d);
      Outcome(app.(saber := st.state), st.sound)
    case PressSave =>
      Outcome(app.(prefs := Saber.Save(app.saber, app.prefs)), Saber.NoSound)
    case Sample(m, draw) =>
      var st := Saber.Sense(app.saber, m, draw);
      Outcome(app.(saber := st.state), st.sound)
  }

  datatype Trace = Trace(app: App, sounds: seq<Saber.Sound>)

  /** The actions in order, collecting one sound per action. */
  function Run(app: App, acts: seq<Action>): (t: Trace)
    requires AllValid(acts)
    ensures |t.sounds| == |acts|
    ensures WellFormed(app) ==> WellFormed(t.app)
    ensures (forall i :: 0 <= i < |acts| ==> !acts[i].PressSave?) ==> t.app.prefs == app.prefs
    decreases |acts|
  {
    if |acts| == 0 then Trace(app, [])
    else
      var o := Apply(app, acts[0]);
      var rest := Run(o.app, acts[1..]);
      Trace(rest.app, [o.sound] + rest.sounds)
  }

  predicate NoPowerPress(acts: seq<Action>) {
    forall i :: 0 <= i < |acts| ==> !acts[i].PressPower?
  }

  /** A saber left off stays silent, whatever is sensed or pressed, until the
      power button is pressed. */
  lemma {:induction false} OffIsSilent(app: App, acts: seq<Action>)
    requires AllValid(acts)
    requires !app.saber.on
    requires NoPowerPress(acts)
    ensures !Run(app, acts).app.saber.on
    ensures forall i :: 0 <= i < |acts| ==> Run(app, acts).sounds[i] == Saber.NoSound
    decreases |acts|
  {
    if |acts| > 0 {
      var o := Apply(app, acts[0]);
      assert o.sound == Saber.NoSound && !o.app.saber.on;
      assert AllValid(acts[1..]) && NoPowerPress(acts[1..]) by {
        forall i | 0 <= i < |acts| - 1
          ensures ValidAction(acts[1..][i]) && !acts[1..][i].PressPower?
        {
          assert acts[1..][i] == acts[i + 1];
        }
      }
      OffIsSilent(o.app, acts[1..]);
      var t := Run(app, acts);
      var rest := Run(o.app, acts[1..]);
      assert t.sounds == [o.sound] + rest.sounds;
      forall i | 0 <= i < |acts|
        ensures t.sounds[i] == Saber.NoSound
      {
        if i > 0 {
          assert t.sounds[i] == rest.sounds[i - 1];
        }
      }
    }
  }

  /** Between power presses the filter, the colour and the store evolve the
      same way whether the saber is on or off. */
  lemma {:induction false} MotionIgnoresPower(app: App, acts: seq<Action>)
    requires AllValid(acts)
    requires NoPowerPress(acts)
    ensures Run(app.(saber := app.saber.(on := true)), acts).app.saber.motion
            == Run(app.(saber := app.saber.(on := false)), acts).app.saber.motion
    ensures Run(app.(saber := app.saber.(on := true)), acts).app.saber.colour
            == Run(app.(saber := app.saber.(on := false)), acts).app.saber.colour
    ensures Run(app.(saber := app.saber.(on := true)), acts).app.prefs
            == Run(app.(saber := app.saber.(on := false)), acts).app.prefs
    decreases |acts|
  {
    if |acts| > 0 {
      var hi := app.(saber := app.saber.(on := true));
      var lo := app.(saber := app.saber.(on := false));
      var oh := Apply(hi, acts[0]);
      var ol := Apply(lo, acts[0]);
      assert oh.app.saber.on && !ol.app.saber.on;
      assert oh.app == ol.app.(saber := ol.app.saber.(on := true));
      assert ol.app == oh.app.(saber := oh.app.saber.(on := false));
      assert AllValid(acts[1..]) && NoPowerPress(acts[1..]) by {
        forall i | 0 <= i < |acts| - 1
          ensures ValidAction(acts[1..][i]) && !acts[1..][i].PressPower?
        {
          assert acts[1..][i] == acts[i + 1];
        }
      }
      MotionIgnoresPower(oh.app, acts[1..]);
    }
  }

  /** Saving and relaunching brings back the saved colour. */
  lemma SaveThenRelaunch(app: App)
    ensures Launch(Apply(app, PressSave).app.prefs).saber.colour == app.saber.colour
    ensures WellFormed(app) ==> WellFormed(Launch(Apply(app, PressSave).app.prefs))
  {
  }

  /** Running two action sequences one after the other is running their
      concatenation. */
  lemma {:induction false} RunConcat(app: App, a: seq<Action>, b: seq<Action>)
    requires AllValid(a) && AllValid(b)
    ensures AllValid(a + b)
    ensures Run(app, a + b).app == Run(Run(app, a).app, b).app
    ensures Run(app, a + b).sounds == Run(app, a).sounds + Run(Run(app, a).app, b).sounds
    decreases |a|
  {
    assert AllValid(a + b) by {
      forall i | 0 <= i < |a + b|
        ensures ValidAction((a + b)[i])
      {
        if i < |a| {
          assert (a + b)[i] == a[i];
        } else {
          assert (a + b)[i] == b[i - |a|];
        }
      }
    }
    if |a| > 0 {
      var o := Apply(app, a[0]);
      assert (a + b)[0] == a[0];
      assert (a + b)[1..] == a[1..] + b;
      assert AllValid(a[1..]) by {
        forall i | 0 <= i < |a| - 1
          ensures ValidAction(a[1..][i])
        {
          assert a[1..][i] == a[i + 1];
        }
      }
      RunConcat(o.app, a[1..], b);
    } else {
      assert a + b == b;
    }
  }

  /** After any session that ends with a save, relaunching brings back the
      colour the saber had at that save. */
  lemma LastSaveSurvivesRelaunch(app: App, acts: seq<Action>)
    requires AllValid(acts)
    ensures AllValid(acts + [PressSave])
    ensures Launch(Run(app, acts + [PressSave]).app.prefs).saber.colour
            == Run(app, acts).app.saber.colour
  {
    assert AllValid([PressSave]);
    RunConcat(app, acts, [PressSave]);
    var mid := Run(app, acts).app;
    assert Run(mid, [PressSave]).app == Apply(mid, PressSave).app;
  }
}
