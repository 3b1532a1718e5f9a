/**
 * The UI object itself: its fields, and `loadDisplay`, `addText` and the
 * two kinds of listener callback as methods that update them in place.
 * Each method is proved to leave exactly the state, and complete exactly
 * as, the matching function of `Machine` says, so every lemma proved
 * there holds of the object.
 */
module Ui {
  import opened JavaLang
  import opened Layout
  import opened Fonts
  import opened Display
  import Machine

  class UI {
    /** The display registry and the window size; set once by the constructor. */
    const displays: map<string, seq<Elem>>
    const guiWidth: int
    const guiHeight: int

    var mode: string
    /** Every label ever made, in order; detached labels stay in the list. */
    var labels: seq<Label>
    var inputBuffer: string
    var userPin: Option<string>
    var fingerprintMatch: string
    var userAmount: int
    /** The displays whose key listeners are on the frame, oldest first. */
    var keyListeners: seq<string>
    /**
     * How showing `main` in the constructor completed; in Java a throw there
     * leaves no object at all. Every later method keeps it.
     */
    ghost var startup: Outcome

    function Cfg(): Machine.Config {
      Machine.Config(displays, guiWidth, guiHeight)
    }

    function State(): Machine.Session
      reads this
    {
      Machine.Session(mode, inputBuffer, userPin, fingerprintMatch, userAmount, labels, keyListeners)
    }

    /**
     * Builds the UI from an already-parsed registry and window size, then
     * shows the `main` display.
     */
    constructor (displays: map<string, seq<Elem>>, width: int, height: int)
      ensures Cfg() == Machine.Config(displays, width, height)
      ensures Machine.Step(State(), startup) == Machine.Load(Cfg(), Machine.Initial(), "main", "")
    {
      this.displays := displays;
      guiWidth := width;
      guiHeight := height;
      mode := "";
      labels := [];
      inputBuffer := "";
      userPin := None;
      fingerprintMatch := "";
      userAmount := 5000;
      keyListeners := [];
      new;
      var outcome := LoadDisplay("main", "");
      startup := outcome;
    }

    /** The first loop of `loadDisplay`: every label goes off the frame and loses its listener. */
    method DetachLabels()
      modifies this
      ensures State() == old(State()).(labels := DetachAll(old(labels)))
      ensures startup == old(startup)
    {
      var i := 0;
      while i < |labels|
        invariant 0 <= i <= |labels| == |old(labels)|
        invariant State() == old(State()).(labels := labels) && startup == old(startup)
        invariant forall k :: 0 <= k < i ==> labels[k] == old(labels)[k].(attached := false)
        invariant forall k :: i <= k < |labels| ==> labels[k] == old(labels)[k]
      {
        labels := labels[i := labels[i].(attached := false)];
        i := i + 1;
      }
      assert labels == DetachAll(old(labels));
    }

    /**
     * The element loop of `loadDisplay`: one label per element of `disp`,
     * placed by `setSize` and styled by `setFont`, in order, until an
     * element fails; the labels made before a failure are kept.
     */
    static method BuildLabels(disp: seq<Elem>, amount: int, width: int, height: int) returns (b: Built)
      ensures b == Build(disp, amount, width, height)
    {
      ghost var whole := Build(disp, amount, width, height);
      ghost var rest := whole;
      var added: seq<Label> := [];
      var x := 0;
      assert disp[x..] == disp;
      while x < |disp|
        invariant 0 <= x <= |disp|
        invariant rest == Build(disp[x..], amount, width, height)
        invariant whole.labels == added + rest.labels && whole.outcome == rest.outcome
      {
        BuildUnfolds(disp[x..], amount, width, height);
        assert disp[x..][0] == disp[x] && disp[x..][1..] == disp[x + 1..];
        var m := MakeLabel(disp[x], amount, width, height);
        if m.Halted? {
          return Built(added, m.outcome);
        }
        ghost var next := Build(disp[x + 1..], amount, width, height);
        assert rest == Built([m.made] + next.labels, next.outcome);
        assert added + rest.labels == (added + [m.made]) + next.labels;
        added := added + [m.made];
        rest := next;
        x := x + 1;
      }
      b := Built(added, Completed);
    }

    /** The element loop run on the UI's balance and window size, its labels added to the list. */
    method AddLabels(disp: seq<Elem>) returns (outcome: Outcome)
      modifies this
      ensures var b := Build(disp, old(userAmount), guiWidth, guiHeight);
        State() == old(State()).(labels := old(labels) + b.labels) && outcome == b.outcome
      ensures startup == old(startup)
    {
      var b := BuildLabels(disp, userAmount, guiWidth, guiHeight);
      labels := labels + b.labels;
      outcome := b.outcome;
    }

    /**
     * `loadDisplay(name)`; `finger` is what the fingerprint reader answers
     * if this call reaches the `biometric` entry effect.
     */
    method LoadDisplay(name: string, finger: string) returns (outcome: Outcome)
      modifies this
      decreases Machine.LoadRank(name)
      ensures Machine.Step(State(), outcome) == Machine.Load(Cfg(), old(State()), name, finger)
      ensures startup == old(startup)
    {
      DetachLabels();
      mode := name;
      if name !in displays {
        return Thrown(NullPointer);
      }
      outcome := AddLabels(displays[name]);
      if outcome != Completed {
        return;
      }
      keyListeners := Machine.ListenKeys(keyListeners, name);
      ghost var shown := State();
      if name == "card" {
        assert Machine.Load(Cfg(), old(State()), name, finger) == Machine.Load(Cfg(), shown, "pin", finger);
        outcome := LoadDisplay("pin", finger);
      } else if name == "biometric" {
        fingerprintMatch := finger;
        assert Machine.Load(Cfg(), old(State()), name, finger) == Machine.Load(Cfg(), State(), "checking", finger);
        outcome := LoadDisplay("checking", finger);
      } else if name == "checking" {
        assert Machine.Load(Cfg(), old(State()), name, finger) == Machine.Add(Cfg(), shown, "", finger);
        outcome := AddText("", finger);
      } else {
        outcome := Completed;
      }
    }

    /** `addText(text)`, with `finger` as for `LoadDisplay`: the token switch, then the mode switch. */
    method AddText(text: string, finger: string) returns (outcome: Outcome)
      modifies this
      decreases Machine.AddRank(text, mode)
      ensures Machine.Step(State(), outcome) == Machine.Add(Cfg(), old(State()), text, finger)
      ensures startup == old(startup)
    {
      if text == "CANCEL" {
        outcome := LoadDisplay("card", finger);
        if outcome != Completed {
          return;
        }
      }
      if text == "CANCEL" || text == "CLEAR" {
        inputBuffer := "";
      } else {
        inputBuffer := inputBuffer + Trim(text);
      }
      outcome := ProcessText(finger);
    }

    /** The mode switch of `addText`. */
    method ProcessText(finger: string) returns (outcome: Outcome)
      modifies this
      decreases Machine.ProcessRank(mode)
      ensures Machine.Step(State(), outcome) == Machine.Process(Cfg(), old(State()), finger)
      ensures startup == old(startup)
    {
      if mode == "pin" {
        if |inputBuffer| >= 4 {
          userPin := Some(inputBuffer[..4]);
          inputBuffer := "";
          outcome := LoadDisplay("biometric", finger);
        } else {
          outcome := Completed;
        }
      } else if mode == "checking" {
        inputBuffer := "";
        if userPin == Some("1234") && fingerprintMatch == "MATCH" {
          outcome := LoadDisplay("services", finger);
        } else {
          outcome := LoadDisplay("errormsg", finger);
        }
      } else if mode == "selectammount" {
        var select := ParseInt(inputBuffer);
        if select.None? {
          return Thrown(NumberFormat);
        }
        userAmount := Wrap(userAmount - select.value);
        inputBuffer := "";
        outcome := LoadDisplay("wouldyoulikeareciept", finger);
      } else {
        outcome := Completed;
      }
    }

    /** The mouse listener of label `i`, run on a click. */
    method Click(i: nat, finger: string) returns (outcome: Outcome)
      requires i < |labels|
      modifies this
      ensures Machine.Step(State(), outcome) == Machine.Click(Cfg(), old(State()), i, finger)
      ensures startup == old(startup)
    {
      var clicked := labels[i];
      if !clicked.attached {
        return Completed;
      }
      match clicked.action
      case NoAction =>
        outcome := Completed;
      case Key(token) =>
        outcome := AddText(token, finger);
      case Goto(location) =>
        outcome := LoadDisplay(location, finger);
    }

    /**
     * A key press of char `c`: every key listener on the frame when the key
     * arrives is run in turn, and each made for the PIN display feeds the
     * char as a one-char string to `addText`; an exception stops the rest.
     */
    method KeyPressed(c: char, finger: string) returns (outcome: Outcome)
      modifies this
      ensures Machine.Step(State(), outcome) == Machine.KeyPress(Cfg(), old(State()), Machine.KeyText(c), finger)
      ensures startup == old(startup)
    {
      var key := Machine.KeyText(c);
      var listeners := keyListeners;
      assert listeners[0..] == listeners;
      outcome := Completed;
      var j := 0;
      while j < |listeners|
        invariant 0 <= j <= |listeners|
        invariant outcome == Completed && startup == old(startup)
        invariant Machine.KeyPress(Cfg(), old(State()), key, finger)
          == Machine.KeySteps(Cfg(), State(), listeners[j..], key, finger)
      {
        assert listeners[j..][1..] == listeners[j + 1..];
        if listeners[j] == "pin" {
          outcome := AddText(key, finger);
          if outcome != Completed {
            return;
          }
        }
        j := j + 1;
      }
    }
  }
}
