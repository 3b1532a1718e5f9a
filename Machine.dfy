/**
 * The input/mode state machine of the kiosk UI as pure functions over a
 * snapshot of the UI's state. `Load` is showing a display (`loadDisplay`)
 * and `Add` is feeding a token (`addText`); they call each other through
 * the entry effects of the `card`, `biometric` and `checking` displays.
 * The hardware's fingerprint answer for the current event is a parameter.
 */
module Machine {
  import opened JavaLang
  import opened Display

  /** The display registry and the window size, fixed once the UI is built. */
  datatype Config = Config(displays: map<string, seq<Elem>>, width: int, height: int)

  /**
   * What the UI object holds: the mode (the name of the display last
   * loaded), the input buffer, the PIN (`None` until one is entered), the
   * fingerprint answer, the balance, every label ever made, and the
   * displays whose key listeners are registered, oldest first.
   */
  datatype Session = Session(
    mode: string,
    buffer: string,
    pin: Option<string>,
    finger: string,
    amount: int,
    labels: seq<Label>,
    keys: seq<string>)

  /** A state after a call, with how the call completed. */
  datatype Step = Step(after: Session, outcome: Outcome)

  /** The fields as initialised; `mode` is set by the first display load. */
  function Initial(): Session {
    Session("", "", None, "", 5000, [], [])
  }

  /**
   * Ranks for the mutual recursion: each entry effect or dispatch calls a
   * step of strictly smaller rank.
   */
  function LoadRank(name: string): nat {
    if name == "biometric" then 4
    else if name == "checking" then 3
    else if name == "card" then 1
    else 0
  }

  function AddRank(text: string, mode: string): nat {
    if text == "CANCEL" || mode == "pin" then 6 else 2
  }

  function ProcessRank(mode: string): nat {
    if mode == "pin" then 5 else 1
  }

  predicate NoEntryEffect(name: string) {
    name != "card" && name != "biometric" && name != "checking"
  }

  /**
   * The key listeners after `name` is shown: the newest one is removed
   * unless `name` is the PIN display, then one for `name` is added.
   */
  function ListenKeys(keys: seq<string>, name: string): seq<string> {
    (if name != "pin" && keys != [] then keys[..|keys| - 1] else keys) + [name]
  }

  /** `loadDisplay(name)`. */
  function Load(cfg: Config, s: Session, name: string, finger: string): Step
    decreases LoadRank(name)
  {
    var s1 := s.(labels := DetachAll(s.labels), mode := name);
    if name !in cfg.displays then Step(s1, Thrown(NullPointer))
    else
      var b := Build(cfg.displays[name], s.amount, cfg.width, cfg.height);
      var s2 := s1.(labels := s1.labels + b.labels);
      if b.outcome != Completed then Step(s2, b.outcome)
      else
        var s3 := s2.(keys := ListenKeys(s2.keys, name));
        if name == "card" then Load(cfg, s3, "pin", finger)
        else if name == "biometric" then Load(cfg, s3.(finger := finger), "checking", finger)
        else if name == "checking" then Add(cfg, s3, "", finger)
        else Step(s3, Completed)
  }

  /** The display the `checking` step goes to. */
  function Verdict(pin: Option<string>, finger: string): string {
    if pin == Some("1234") && finger == "MATCH" then "services" else "errormsg"
  }

  /** The buffer after `text` is fed: CANCEL and CLEAR empty it, any other token is trimmed and appended. */
  function Typed(buffer: string, text: string): string {
    if text == "CANCEL" || text == "CLEAR" then "" else buffer + Trim(text)
  }

  /** `addText(text)`: the token switch, then the mode switch. */
  function Add(cfg: Config, s: Session, text: string, finger: string): Step
    decreases AddRank(text, s.mode)
  {
    var st := if text == "CANCEL" then Load(cfg, s, "card", finger) else Step(s, Completed);
    if st.outcome != Completed then st
    else Process(cfg, st.after.(buffer := Typed(st.after.buffer, text)), finger)
  }

  /** The mode switch of `addText`, run on the buffer as the token left it. */
  function Process(cfg: Config, s: Session, finger: string): Step
    decreases ProcessRank(s.mode)
  {
    if s.mode == "pin" then
      if |s.buffer| >= 4 then
        Load(cfg, s.(pin := Some(s.buffer[..4]), buffer := ""), "biometric", finger)
      else Step(s, Completed)
    else if s.mode == "checking" then
      Load(cfg, s.(buffer := ""), Verdict(s.pin, s.finger), finger)
    else if s.mode == "selectammount" then
      match ParseInt(s.buffer)
      case None => Step(s, Thrown(NumberFormat))
      case Some(select) =>
        Load(cfg, s.(amount := Wrap(s.amount - select), buffer := ""), "wouldyoulikeareciept", finger)
    else Step(s, Completed)
  }

  /** A mouse click on label `i`: only an attached `input` or `link` label reacts. */
  function Click(cfg: Config, s: Session, i: nat, finger: string): Step
    requires i < |s.labels|
  {
    var l := s.labels[i];
    if !l.attached then Step(s, Completed)
    else
      match l.action
      case NoAction => Step(s, Completed)
      case Key(token) => Add(cfg, s, token, finger)
      case Goto(location) => Load(cfg, s, location, finger)
  }

  /**
   * Delivery of one key to the listeners in `keys`, oldest first; each
   * listener made while the PIN display was shown feeds `key`, the text
   * of the key's char, to `addText`.
   */
  function KeySteps(cfg: Config, s: Session, keys: seq<string>, key: string, finger: string): Step
    decreases |keys|
  {
    if keys == [] then Step(s, Completed)
    else if keys[0] == "pin" then
      var st := Add(cfg, s, key, finger);
      if st.outcome != Completed then st else KeySteps(cfg, st.after, keys[1..], key, finger)
    else KeySteps(cfg, s, keys[1..], key, finger)
  }

  /** The text a key event hands on: its char as a one-char string. */
  function KeyText(c: char): (key: string)
    ensures |key| == 1 && key[0] == c
  {
    [c]
  }

  /** A key press, delivered to the listeners registered when it arrives. */
  function KeyPress(cfg: Config, s: Session, key: string, finger: string): Step {
    KeySteps(cfg, s, s.keys, key, finger)
  }

  // =====================================================================
  // Showing a display

  predicate DisplayOk(cfg: Config, name: string) {
    name in cfg.displays && forall i :: 0 <= i < |cfg.displays[name]| ==> ElemOk(cfg.displays[name][i])
  }

  /** The labels made for display `name` at balance `amount`. */
  function Shown(cfg: Config, name: string, amount: int): seq<Label>
    requires name in cfg.displays
  {
    Build(cfg.displays[name], amount, cfg.width, cfg.height).labels
  }

  /**
   * Showing a display without entry effect sets the mode to it, keeps every
   * old label but detached, adds one attached label per element in order,
   * and touches neither the buffer, the PIN, the fingerprint nor the balance.
   */
  lemma LoadShowsDisplay(cfg: Config, s: Session, name: string, finger: string)
    requires NoEntryEffect(name) && DisplayOk(cfg, name)
    ensures var st := Load(cfg, s, name, finger);
      && st.outcome == Completed
      && st.after == s.(mode := name, labels := st.after.labels, keys := ListenKeys(s.keys, name))
      && st.after.labels == DetachAll(s.labels) + Shown(cfg, name, s.amount)
      && |Shown(cfg, name, s.amount)| == |cfg.displays[name]|
      && Attached(st.after.labels) == Shown(cfg, name, s.amount)
  {
    BuildCompletes(cfg.displays[name], s.amount, cfg.width, cfg.height);
    BuildSpec(cfg.displays[name], s.amount, cfg.width, cfg.height);
    ShownAreBuilt(s.labels, cfg.displays[name], s.amount, cfg.width, cfg.height);
  }

  /**
   * A display whose element loop stops early still has its name as the
   * mode, the old labels detached and the labels made before the stop;
   * no key listener changes and no entry effect runs.
   */
  lemma LoadStopsEarly(cfg: Config, s: Session, name: string, finger: string)
    requires name in cfg.displays
    requires Build(cfg.displays[name], s.amount, cfg.width, cfg.height).outcome != Completed
    ensures var b := Build(cfg.displays[name], s.amount, cfg.width, cfg.height);
      Load(cfg, s, name, finger) == Step(s.(mode := name, labels := DetachAll(s.labels) + b.labels), b.outcome)
  {
  }

  /** Showing the same plain display twice leaves the same labels on the frame as showing it once. */
  lemma ShowIsIdempotent(cfg: Config, s: Session, name: string, finger: string)
    requires NoEntryEffect(name)
    ensures var once := Load(cfg, s, name, finger);
      var twice := Load(cfg, once.after, name, finger);
      && twice.after.mode == once.after.mode == name
      && twice.outcome == once.outcome
      && Attached(twice.after.labels) == Attached(once.after.labels)
  {
    var once := Load(cfg, s, name, finger);
    var twice := Load(cfg, once.after, name, finger);
    if name !in cfg.displays {
      AttachedAfterDetach(s.labels, []);
      AttachedAfterDetach(once.after.labels, []);
      assert DetachAll(s.labels) + [] == DetachAll(s.labels);
      assert DetachAll(once.after.labels) + [] == DetachAll(once.after.labels);
    } else {
      ShownAreBuilt(s.labels, cfg.displays[name], s.amount, cfg.width, cfg.height);
      ShownAreBuilt(once.after.labels, cfg.displays[name], s.amount, cfg.width, cfg.height);
    }
  }

  /**
   * Showing a name the registry lacks fails with a NullPointerException
   * after the old labels are detached and the mode is set to that name.
   */
  lemma UnknownDisplayThrows(cfg: Config, s: Session, name: string, finger: string)
    requires name !in cfg.displays
    ensures Load(cfg, s, name, finger) ==
      Step(s.(mode := name, labels := DetachAll(s.labels)), Thrown(NullPointer))
  {
  }

  /**
   * The labels of `before` are all still in `after`, at the same places,
   * and none of them is on the frame any more.
   */
  predicate Retired(before: seq<Label>, after: seq<Label>) {
    |before| <= |after| && forall i :: 0 <= i < |before| ==> after[i] == before[i].(attached := false)
  }

  lemma RetiredTrans(a: seq<Label>, b: seq<Label>, c: seq<Label>)
    requires Retired(a, b) && (c == b || Retired(b, c))
    ensures Retired(a, c)
  {
  }

  /**
   * Every display load, entry effects included and however it completes,
   * detaches every label made before it; labels are never removed.
   */
  lemma {:induction false} LoadRetiresLabels(cfg: Config, s: Session, name: string, finger: string)
    ensures Retired(s.labels, Load(cfg, s, name, finger).after.labels)
    decreases LoadRank(name)
  {
    var s1 := s.(labels := DetachAll(s.labels), mode := name);
    assert Retired(s.labels, s1.labels);
    if name in cfg.displays {
      var b := Build(cfg.displays[name], s.amount, cfg.width, cfg.height);
      var s3 := s1.(labels := s1.labels + b.labels, keys := ListenKeys(s.keys, name));
      assert Retired(s.labels, s3.labels);
      if b.outcome == Completed {
        if name == "card" {
          LoadRetiresLabels(cfg, s3, "pin", finger);
          RetiredTrans(s.labels, s3.labels, Load(cfg, s3, "pin", finger).after.labels);
        } else if name == "biometric" {
          LoadRetiresLabels(cfg, s3.(finger := finger), "checking", finger);
          RetiredTrans(s.labels, s3.labels, Load(cfg, s3.(finger := finger), "checking", finger).after.labels);
        } else if name == "checking" {
          AddRetiresLabels(cfg, s3, "", finger);
          RetiredTrans(s.labels, s3.labels, Add(cfg, s3, "", finger).after.labels);
        }
      }
    }
  }

  /** A token either leaves the labels alone or, through a display load, retires all of them. */
  lemma {:induction false} AddRetiresLabels(cfg: Config, s: Session, text: string, finger: string)
    ensures var t := Add(cfg, s, text, finger).after;
      t.labels == s.labels || Retired(s.labels, t.labels)
    decreases AddRank(text, s.mode)
  {
    var st := if text == "CANCEL" then Load(cfg, s, "card", finger) else Step(s, Completed);
    if text == "CANCEL" {
      LoadRetiresLabels(cfg, s, "card", finger);
    }
    if st.outcome == Completed {
      var s2 := st.after.(buffer := Typed(st.after.buffer, text));
      ProcessRetiresLabels(cfg, s2, finger);
      if text == "CANCEL" {
        RetiredTrans(s.labels, s2.labels, Process(cfg, s2, finger).after.labels);
      }
    }
  }

  lemma {:induction false} ProcessRetiresLabels(cfg: Config, s: Session, finger: string)
    ensures var t := Process(cfg, s, finger).after;
      t.labels == s.labels || Retired(s.labels, t.labels)
    decreases ProcessRank(s.mode)
  {
    if s.mode == "pin" {
      if |s.buffer| >= 4 {
        LoadRetiresLabels(cfg, s.(pin := Some(s.buffer[..4]), buffer := ""), "biometric", finger);
      }
    } else if s.mode == "checking" {
      LoadRetiresLabels(cfg, s.(buffer := ""), Verdict(s.pin, s.finger), finger);
    } else if s.mode == "selectammount" {
      match ParseInt(s.buffer)
      case None =>
      case Some(select) =>
        LoadRetiresLabels(cfg, s.(amount := Wrap(s.amount - select), buffer := ""), "wouldyoulikeareciept", finger);
    }
  }

  /**
   * Once another display has been loaded, a label of an earlier display
   * has lost its mouse listener: a click on it does nothing at all.
   */
  lemma StaleClickIgnored(cfg: Config, s: Session, name: string, i: nat, finger: string)
    requires i < |s.labels|
    ensures var t := Load(cfg, s, name, finger).after;
      i < |t.labels| && Click(cfg, t, i, finger) == Step(t, Completed)
  {
    LoadRetiresLabels(cfg, s, name, finger);
  }

  /**
   * Right after a display without an entry effect is shown, a click on
   * the label made from its j-th element runs what that element declared:
   * `addText` with the `input` token, `loadDisplay` with the `link`
   * location, and nothing for a plain label.
   */
  lemma ClickShownLabel(cfg: Config, s: Session, name: string, j: nat, finger: string)
    requires NoEntryEffect(name) && DisplayOk(cfg, name) && j < |cfg.displays[name]|
    ensures var t := Load(cfg, s, name, finger).after;
      var e := cfg.displays[name][j];
      var i := |s.labels| + j;
      i < |t.labels| &&
      Click(cfg, t, i, finger) ==
        if e.kind == "input" then Add(cfg, t, e.input, finger)
        else if e.kind == "link" then Load(cfg, t, e.location, finger)
        else Step(t, Completed)
  {
    LoadShowsDisplay(cfg, s, name, finger);
    BuildSpec(cfg.displays[name], s.amount, cfg.width, cfg.height);
  }

  // =====================================================================
  // Tokens

  /**
   * A token other than CANCEL and CLEAR is trimmed and appended; outside
   * the dispatching modes (and in `pin` short of four chars) that is all.
   */
  lemma TokenIsAppended(cfg: Config, s: Session, text: string, finger: string)
    requires text != "CANCEL" && text != "CLEAR"
    requires s.mode != "checking" && s.mode != "selectammount"
    requires s.mode == "pin" ==> |s.buffer + Trim(text)| < 4
    ensures Add(cfg, s, text, finger) == Step(s.(buffer := s.buffer + Trim(text)), Completed)
  {
  }

  /** CLEAR empties the buffer and changes nothing else, outside `checking` and `selectammount`. */
  lemma ClearEmptiesBuffer(cfg: Config, s: Session, finger: string)
    requires s.mode != "checking" && s.mode != "selectammount"
    ensures Add(cfg, s, "CLEAR", finger) == Step(s.(buffer := ""), Completed)
  {
  }

  /**
   * CANCEL shows `card`, whose entry effect shows `pin`, and then falls
   * through to CLEAR: whatever the mode and buffer were, the machine is
   * back at PIN entry with an empty buffer and the PIN display on the frame.
   */
  lemma CancelReturnsToPin(cfg: Config, s: Session, finger: string)
    requires DisplayOk(cfg, "card") && DisplayOk(cfg, "pin")
    ensures var st := Add(cfg, s, "CANCEL", finger);
      && st.outcome == Completed
      && st.after.mode == "pin" && st.after.buffer == ""
      && st.after.pin == s.pin && st.after.finger == s.finger && st.after.amount == s.amount
      && Attached(st.after.labels) == Shown(cfg, "pin", s.amount)
  {
    var elems := cfg.displays["card"];
    BuildCompletes(elems, s.amount, cfg.width, cfg.height);
    var b := Build(elems, s.amount, cfg.width, cfg.height);
    var s3 := s.(labels := DetachAll(s.labels) + b.labels, mode := "card", keys := ListenKeys(s.keys, "card"));
    assert Load(cfg, s, "card", finger) == Load(cfg, s3, "pin", finger);
    LoadShowsDisplay(cfg, s3, "pin", finger);
  }

  /**
   * The `checking` step: the buffer is cleared and the UI goes to
   * `services` exactly when the PIN is 1234 and the fingerprint matched,
   * to `errormsg` otherwise.
   */
  lemma CheckingDecides(cfg: Config, s: Session, text: string, finger: string)
    requires s.mode == "checking" && text != "CANCEL"
    requires DisplayOk(cfg, "services") && DisplayOk(cfg, "errormsg")
    ensures var st := Add(cfg, s, text, finger);
      && st.outcome == Completed
      && st.after.mode == (if s.pin == Some("1234") && s.finger == "MATCH" then "services" else "errormsg")
      && st.after.buffer == ""
      && st.after.pin == s.pin && st.after.finger == s.finger && st.after.amount == s.amount
      && Attached(st.after.labels) == Shown(cfg, st.after.mode, s.amount)
  {
    var s2 := s.(buffer := Typed(s.buffer, text));
    LoadShowsDisplay(cfg, s2.(buffer := ""), Verdict(s.pin, s.finger), finger);
  }

  /**
   * Showing `checking`: after its own labels it runs the `checking` step
   * with an empty token, so it ends on `services` or `errormsg`.
   */
  lemma CheckingEntryDecides(cfg: Config, s: Session, finger: string)
    requires DisplayOk(cfg, "checking") && DisplayOk(cfg, "services") && DisplayOk(cfg, "errormsg")
    ensures var st := Load(cfg, s, "checking", finger);
      && st.outcome == Completed
      && st.after.mode == Verdict(s.pin, s.finger)
      && st.after.buffer == ""
      && st.after.pin == s.pin && st.after.finger == s.finger && st.after.amount == s.amount
      && Attached(st.after.labels) == Shown(cfg, st.after.mode, s.amount)
  {
    var elems := cfg.displays["checking"];
    BuildCompletes(elems, s.amount, cfg.width, cfg.height);
    var b := Build(elems, s.amount, cfg.width, cfg.height);
    var s3 := s.(labels := DetachAll(s.labels) + b.labels, mode := "checking", keys := ListenKeys(s.keys, "checking"));
    assert Load(cfg, s, "checking", finger) == Add(cfg, s3, "", finger);
    CheckingDecides(cfg, s3, "", finger);
  }

  /**
   * Showing `biometric` stores the reader's answer and shows `checking`,
   * so the outcome is decided on the stored PIN and that answer.
   */
  lemma BiometricStoresAnswer(cfg: Config, s: Session, finger: string)
    requires DisplayOk(cfg, "biometric") && DisplayOk(cfg, "checking")
    requires DisplayOk(cfg, "services") && DisplayOk(cfg, "errormsg")
    ensures var st := Load(cfg, s, "biometric", finger);
      && st.outcome == Completed
      && st.after.finger == finger
      && st.after.mode == Verdict(s.pin, finger)
      && st.after.buffer == ""
      && st.after.pin == s.pin && st.after.amount == s.amount
      && Attached(st.after.labels) == Shown(cfg, st.after.mode, s.amount)
  {
    var elems := cfg.displays["biometric"];
    BuildCompletes(elems, s.amount, cfg.width, cfg.height);
    var b := Build(elems, s.amount, cfg.width, cfg.height);
    var s3 := s.(labels := DetachAll(s.labels) + b.labels, mode := "biometric",
                 keys := ListenKeys(s.keys, "biometric"), finger := finger);
    assert Load(cfg, s, "biometric", finger) == Load(cfg, s3, "checking", finger);
    CheckingEntryDecides(cfg, s3, finger);
  }

  /**
   * In `pin`, once the buffer holds four chars or more the first four
   * become the PIN (the rest is dropped), the buffer empties, the
   * fingerprint is read, and the verdict display is shown.
   */
  lemma PinCompletes(cfg: Config, s: Session, text: string, finger: string)
    requires s.mode == "pin" && text != "CANCEL" && text != "CLEAR"
    requires |s.buffer + Trim(text)| >= 4
    requires DisplayOk(cfg, "biometric") && DisplayOk(cfg, "checking")
    requires DisplayOk(cfg, "services") && DisplayOk(cfg, "errormsg")
    ensures var entered := (s.buffer + Trim(text))[..4];
      var st := Add(cfg, s, text, finger);
      && st.outcome == Completed
      && st.after.pin == Some(entered)
      && st.after.buffer == ""
      && st.after.finger == finger
      && st.after.mode == (if entered == "1234" && finger == "MATCH" then "services" else "errormsg")
      && st.after.amount == s.amount
  {
    var b := s.buffer + Trim(text);
    BiometricStoresAnswer(cfg, s.(buffer := "", pin := Some(b[..4])), finger);
  }

  /**
   * In `selectammount` every activation but CANCEL (CLEAR included)
   * parses the buffer; text that is not a number throws
   * NumberFormatException, leaving the balance and the mode alone.
   */
  lemma WithdrawalRejected(cfg: Config, s: Session, text: string, finger: string)
    requires s.mode == "selectammount" && text != "CANCEL"
    requires ParseInt(Typed(s.buffer, text)) == None
    ensures Add(cfg, s, text, finger) == Step(s.(buffer := Typed(s.buffer, text)), Thrown(NumberFormat))
  {
  }

  /**
   * A number in the buffer is taken off the balance with no check that it
   * is covered, with 32-bit wrap-around, and the receipt question is shown.
   */
  lemma WithdrawalTaken(cfg: Config, s: Session, text: string, finger: string, taken: int)
    requires s.mode == "selectammount" && text != "CANCEL"
    requires ParseInt(Typed(s.buffer, text)) == Some(taken)
    requires DisplayOk(cfg, "wouldyoulikeareciept")
    ensures var st := Add(cfg, s, text, finger);
      && st.outcome == Completed
      && st.after.amount == Wrap(s.amount - taken)
      && st.after.buffer == ""
      && st.after.mode == "wouldyoulikeareciept"
      && st.after.pin == s.pin && st.after.finger == s.finger
      && Attached(st.after.labels) == Shown(cfg, "wouldyoulikeareciept", st.after.amount)
  {
    var s3 := s.(buffer := "", amount := Wrap(s.amount - taken));
    assert Add(cfg, s, text, finger) == Load(cfg, s3, "wouldyoulikeareciept", finger);
    LoadShowsDisplay(cfg, s3, "wouldyoulikeareciept", finger);
  }

  /** A number button pressed at an empty buffer leaves exactly its number there. */
  lemma TypedNumber(text: string)
    requires text != [] && AllDigits(text) && Value(text) <= MAX_INT
    ensures ParseInt(Typed("", text)) == Some(Value(text))
  {
    assert IsDigit(text[0]) && "CANCEL"[0] == 'C' && "CLEAR"[0] == 'C';
    TrimKeepsDigits(text);
    assert Typed("", text) == "" + text == text;
    ParseDigits(text);
  }

  /** From the initial balance, a 200 button leaves 4800 and a 6000 button overdraws to -1000. */
  lemma WithdrawalExamples(cfg: Config, s: Session, finger: string)
    requires s.mode == "selectammount" && s.buffer == "" && s.amount == 5000
    requires DisplayOk(cfg, "wouldyoulikeareciept")
    ensures Add(cfg, s, "200", finger).after.amount == 4800
    ensures Add(cfg, s, "6000", finger).after.amount == -1000
  {
    ValueExamples();
    TypedNumber("200");
    TypedNumber("6000");
    WithdrawalTaken(cfg, s, "200", finger, 200);
    WithdrawalTaken(cfg, s, "6000", finger, 6000);
  }

  // =====================================================================
  // The keyboard

  /** At most one PIN key listener is registered, and only as the newest. */
  predicate OnePinListener(s: Session) {
    forall i :: 0 <= i < |s.keys| - 1 ==> s.keys[i] != "pin"
  }

  /** The newest key listener belongs to the current mode. */
  predicate ListenerFollowsMode(s: Session) {
    |s.keys| > 0 && s.keys[|s.keys| - 1] == s.mode
  }

  predicate ListensForPin(s: Session) {
    |s.keys| > 0 && s.keys[|s.keys| - 1] == "pin"
  }

  lemma {:induction false} KeyStepsOnce(cfg: Config, s: Session, keys: seq<string>, key: string, finger: string)
    requires forall i :: 0 <= i < |keys| - 1 ==> keys[i] != "pin"
    ensures KeySteps(cfg, s, keys, key, finger) ==
      if keys != [] && keys[|keys| - 1] == "pin" then Add(cfg, s, key, finger) else Step(s, Completed)
    decreases |keys|
  {
    if keys != [] {
      if keys[0] == "pin" {
        assert |keys| == 1;
      } else {
        KeyStepsOnce(cfg, s, keys[1..], key, finger);
      }
    }
  }

  lemma {:induction false} KeyStepsAppend(cfg: Config, s: Session, a: seq<string>, b: seq<string>, key: string, finger: string)
    ensures KeySteps(cfg, s, a + b, key, finger) ==
      var st := KeySteps(cfg, s, a, key, finger);
      if st.outcome != Completed then st else KeySteps(cfg, st.after, b, key, finger)
    decreases |a|
  {
    if a == [] {
      assert a + b == b;
    } else {
      assert (a + b)[1..] == a[1..] + b;
      if a[0] == "pin" {
        var st := Add(cfg, s, key, finger);
        if st.outcome == Completed {
          KeyStepsAppend(cfg, st.after, a[1..], b, key, finger);
        }
      } else {
        KeyStepsAppend(cfg, s, a[1..], b, key, finger);
      }
    }
  }

  lemma ListenKeysKeepsOne(s: Session, name: string)
    requires OnePinListener(s)
    requires name == "pin" ==> !ListensForPin(s)
    ensures OnePinListener(s.(keys := ListenKeys(s.keys, name)))
  {
  }

  /**
   * Showing any display other than `pin` while `pin` listens, and running
   * any token, keeps at most one PIN key listener.
   */
  lemma {:induction false} LoadKeepsOnePinListener(cfg: Config, s: Session, name: string, finger: string)
    requires OnePinListener(s)
    requires name == "pin" ==> !ListensForPin(s)
    ensures OnePinListener(Load(cfg, s, name, finger).after)
    decreases LoadRank(name)
  {
    if name in cfg.displays {
      var b := Build(cfg.displays[name], s.amount, cfg.width, cfg.height);
      if b.outcome == Completed {
        var s3 := s.(labels := DetachAll(s.labels) + b.labels, mode := name, keys := ListenKeys(s.keys, name));
        ListenKeysKeepsOne(s, name);
        if name == "card" {
          LoadKeepsOnePinListener(cfg, s3, "pin", finger);
        } else if name == "biometric" {
          LoadKeepsOnePinListener(cfg, s3.(finger := finger), "checking", finger);
        } else if name == "checking" {
          AddKeepsOnePinListener(cfg, s3, "", finger);
        }
      }
    }
  }

  lemma {:induction false} AddKeepsOnePinListener(cfg: Config, s: Session, text: string, finger: string)
    requires OnePinListener(s)
    ensures OnePinListener(Add(cfg, s, text, finger).after)
    decreases AddRank(text, s.mode)
  {
    var st := if text == "CANCEL" then Load(cfg, s, "card", finger) else Step(s, Completed);
    if text == "CANCEL" {
      LoadKeepsOnePinListener(cfg, s, "card", finger);
    }
    if st.outcome == Completed {
      ProcessKeepsOnePinListener(cfg, st.after.(buffer := Typed(st.after.buffer, text)), finger);
    }
  }

  lemma {:induction false} ProcessKeepsOnePinListener(cfg: Config, s: Session, finger: string)
    requires OnePinListener(s)
    ensures OnePinListener(Process(cfg, s, finger).after)
    decreases ProcessRank(s.mode)
  {
    if s.mode == "pin" {
      if |s.buffer| >= 4 {
        LoadKeepsOnePinListener(cfg, s.(pin := Some(s.buffer[..4]), buffer := ""), "biometric", finger);
      }
    } else if s.mode == "checking" {
      LoadKeepsOnePinListener(cfg, s.(buffer := ""), Verdict(s.pin, s.finger), finger);
    } else if s.mode == "selectammount" {
      match ParseInt(s.buffer)
      case None =>
      case Some(select) =>
        LoadKeepsOnePinListener(cfg, s.(amount := Wrap(s.amount - select), buffer := ""), "wouldyoulikeareciept", finger);
    }
  }


  /** A display load that completes leaves the newest key listener on the display it ended on. */
  lemma {:induction false} LoadListensForMode(cfg: Config, s: Session, name: string, finger: string)
    ensures var st := Load(cfg, s, name, finger);
      st.outcome == Completed ==> ListenerFollowsMode(st.after)
    decreases LoadRank(name)
  {
    if name in cfg.displays {
      var b := Build(cfg.displays[name], s.amount, cfg.width, cfg.height);
      if b.outcome == Completed {
        var s3 := s.(labels := DetachAll(s.labels) + b.labels, mode := name, keys := ListenKeys(s.keys, name));
        if name == "card" {
          LoadListensForMode(cfg, s3, "pin", finger);
        } else if name == "biometric" {
          LoadListensForMode(cfg, s3.(finger := finger), "checking", finger);
        } else if name == "checking" {
          AddListensForMode(cfg, s3, "", finger);
        }
      }
    }
  }

  lemma {:induction false} AddListensForMode(cfg: Config, s: Session, text: string, finger: string)
    requires ListenerFollowsMode(s)
    ensures var st := Add(cfg, s, text, finger);
      st.outcome == Completed ==> ListenerFollowsMode(st.after)
    decreases AddRank(text, s.mode)
  {
    var st := if text == "CANCEL" then Load(cfg, s, "card", finger) else Step(s, Completed);
    if text == "CANCEL" {
      LoadListensForMode(cfg, s, "card", finger);
    }
    if st.outcome == Completed {
      ProcessListensForMode(cfg, st.after.(buffer := Typed(st.after.buffer, text)), finger);
    }
  }

  lemma {:induction false} ProcessListensForMode(cfg: Config, s: Session, finger: string)
    requires ListenerFollowsMode(s)
    ensures var st := Process(cfg, s, finger);
      st.outcome == Completed ==> ListenerFollowsMode(st.after)
    decreases ProcessRank(s.mode)
  {
    if s.mode == "pin" {
      if |s.buffer| >= 4 {
        LoadListensForMode(cfg, s.(pin := Some(s.buffer[..4]), buffer := ""), "biometric", finger);
      }
    } else if s.mode == "checking" {
      LoadListensForMode(cfg, s.(buffer := ""), Verdict(s.pin, s.finger), finger);
    } else if s.mode == "selectammount" {
      match ParseInt(s.buffer)
      case None =>
      case Some(select) =>
        LoadListensForMode(cfg, s.(amount := Wrap(s.amount - select), buffer := ""), "wouldyoulikeareciept", finger);
    }
  }


  /**
   * With at most one PIN listener and the newest listener on the current
   * mode, a key reaches `addText` exactly once in `pin` and not at all in
   * any other mode.
   */
  lemma KeysOnlyInPin(cfg: Config, s: Session, key: string, finger: string)
    requires OnePinListener(s) && ListenerFollowsMode(s)
    ensures KeyPress(cfg, s, key, finger) ==
      if s.mode == "pin" then Add(cfg, s, key, finger) else Step(s, Completed)
  {
    KeyStepsOnce(cfg, s, s.keys, key, finger);
  }

  /** The text of a key whose char trim keeps. */
  predicate Printable(key: string) {
    |key| == 1 && !IsBlank(key[0])
  }

  /** In `pin` short of four chars, a printable key is appended to the buffer and that is all. */
  lemma PinKeyAppends(cfg: Config, s: Session, key: string, finger: string)
    requires s.mode == "pin" && Printable(key) && |s.buffer| + 1 < 4
    ensures Add(cfg, s, key, finger) == Step(s.(buffer := s.buffer + key), Completed)
  {
    TokenIsAppended(cfg, s, key, finger);
    TrimOneChar(key);
  }

  /** In `pin` short of four chars, a blank key (space, tab, a control char) changes nothing. */
  lemma BlankKeyIgnored(cfg: Config, s: Session, key: string, finger: string)
    requires s.mode == "pin" && |key| == 1 && IsBlank(key[0]) && |s.buffer| < 4
    ensures Add(cfg, s, key, finger) == Step(s, Completed)
  {
    TrimOneChar(key);
    assert s.buffer + Trim(key) == s.buffer;
    TokenIsAppended(cfg, s, key, finger);
  }

  /**
   * Showing `pin` again while it is shown keeps the old PIN listener and
   * adds a second one, so from then on every key is taken twice.
   */
  lemma ReshowingPinDoublesKeys(cfg: Config, s: Session, key: string, finger: string)
    requires s.mode == "pin" && OnePinListener(s) && ListenerFollowsMode(s)
    requires DisplayOk(cfg, "pin")
    requires Printable(key) && |s.buffer| + 2 < 4
    ensures var t := Load(cfg, s, "pin", finger).after;
      && t.keys == s.keys + ["pin"]
      && KeyPress(cfg, t, key, finger) == Step(t.(buffer := s.buffer + key + key), Completed)
  {
    LoadShowsDisplay(cfg, s, "pin", finger);
    var t := Load(cfg, s, "pin", finger).after;
    assert t.mode == "pin" && t.buffer == s.buffer && t.keys == s.keys + ["pin"];
    var t1 := t.(buffer := t.buffer + key);
    assert KeySteps(cfg, t, s.keys, key, finger) == Step(t1, Completed) by {
      KeyStepsOnce(cfg, t, s.keys, key, finger);
      PinKeyAppends(cfg, t, key, finger);
    }
    assert KeySteps(cfg, t1, ["pin"], key, finger) == Step(t1.(buffer := t1.buffer + key), Completed) by {
      KeyStepsOnce(cfg, t1, ["pin"], key, finger);
      PinKeyAppends(cfg, t1, key, finger);
    }
    KeyStepsAppend(cfg, t, s.keys, ["pin"], key, finger);
  }

  /** A printable key in `pin` short of four chars only grows the buffer. */
  lemma PinKeyPress(cfg: Config, s: Session, key: string, finger: string)
    requires s.mode == "pin" && OnePinListener(s) && ListenerFollowsMode(s)
    requires Printable(key) && |s.buffer| + 1 < 4
    ensures KeyPress(cfg, s, key, finger) == Step(s.(buffer := s.buffer + key), Completed)
  {
    KeysOnlyInPin(cfg, s, key, finger);
    PinKeyAppends(cfg, s, key, finger);
  }

  /** The fourth printable key in `pin` completes the PIN. */
  lemma PinKeyCompletes(cfg: Config, s: Session, key: string, finger: string)
    requires s.mode == "pin" && OnePinListener(s) && ListenerFollowsMode(s)
    requires Printable(key) && |s.buffer| == 3
    requires DisplayOk(cfg, "biometric") && DisplayOk(cfg, "checking")
    requires DisplayOk(cfg, "services") && DisplayOk(cfg, "errormsg")
    ensures var entered := s.buffer + key;
      var st := KeyPress(cfg, s, key, finger);
      && st.outcome == Completed
      && st.after.pin == Some(entered)
      && st.after.buffer == ""
      && st.after.mode == (if entered == "1234" && finger == "MATCH" then "services" else "errormsg")
  {
    KeysOnlyInPin(cfg, s, key, finger);
    assert |s.buffer + Trim(key)| == 4 by {
      TrimOneChar(key);
    }
    PinCompletes(cfg, s, key, finger);
    TrimOneChar(key);
    assert (s.buffer + key)[..4] == s.buffer + key;
  }

  /**
   * Four printable keys typed at an empty PIN display become the PIN, and
   * the UI ends on `services` exactly for 1234 with a matching fingerprint.
   */
  lemma FourKeysEnterPin(cfg: Config, s: Session, k1: string, k2: string, k3: string, k4: string, finger: string)
    requires s.mode == "pin" && s.buffer == "" && OnePinListener(s) && ListenerFollowsMode(s)
    requires Printable(k1) && Printable(k2) && Printable(k3) && Printable(k4)
    requires DisplayOk(cfg, "biometric") && DisplayOk(cfg, "checking")
    requires DisplayOk(cfg, "services") && DisplayOk(cfg, "errormsg")
    ensures var s1 := KeyPress(cfg, s, k1, finger).after;
      var s2 := KeyPress(cfg, s1, k2, finger).after;
      var s3 := KeyPress(cfg, s2, k3, finger).after;
      var st := KeyPress(cfg, s3, k4, finger);
      var entered := k1 + k2 + k3 + k4;
      && st.outcome == Completed
      && st.after.pin == Some(entered)
      && st.after.buffer == ""
      && st.after.mode == (if entered == "1234" && finger == "MATCH" then "services" else "errormsg")
  {
    PinKeyPress(cfg, s, k1, finger);
    var s1 := s.(buffer := "" + k1);
    PinKeyPress(cfg, s1, k2, finger);
    var s2 := s.(buffer := "" + k1 + k2);
    PinKeyPress(cfg, s2, k3, finger);
    var s3 := s.(buffer := "" + k1 + k2 + k3);
    PinKeyCompletes(cfg, s3, k4, finger);
    assert "" + k1 + k2 + k3 + k4 == k1 + k2 + k3 + k4;
  }
}
