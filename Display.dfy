/**
 * Displays and the labels built from them. A display is the ordered list
 * of elements the configuration declares under one name; showing it makes
 * one label per element, in order. A `label` element's text may be a
 * `$name$` template naming a public field of the UI class.
 */
module Display {
  import opened JavaLang
  import opened Layout
  import opened Fonts

  /**
   * One element as declared: its `type` word, geometry, colour words, font
   * object, text, and the `input` token or `location` display name that
   * only the `input` and `link` types read.
   */
  datatype Elem = Elem(
    kind: string,
    geometry: Geometry,
    colour: string,
    back: string,
    font: FontSpec,
    text: string,
    input: string,
    location: string)

  /** What a click on a label does: nothing, feed a token, or switch display. */
  datatype Action = NoAction | Key(token: string) | Goto(location: string)

  /**
   * A label made for an element. `attached` says it is on the frame with
   * its mouse listener; detaching takes both away.
   */
  datatype Label = Label(
    action: Action,
    text: string,
    colour: string,
    back: string,
    bounds: Bounds,
    font: Font,
    attached: bool)

  /** The only public field of the UI class, so the only name a template can resolve. */
  const AMOUNT_FIELD: string := "userAmount"

  predicate Delimited(t: string) {
    |t| > 0 && t[0] == '$' && t[|t| - 1] == '$'
  }

  /**
   * The text a `label` element shows: `$userAmount$` becomes the balance in
   * decimal, other text is kept, and the rest fails as the code does.
   */
  function Resolve(t: string, amount: int): (r: Result<string>)
    ensures t == [] ==> r == Throws(StringIndexOutOfBounds)
    ensures t != [] && !Delimited(t) ==> r == Ok(t)
    ensures t == "$userAmount$" ==> r == Ok(ToDecimal(amount))
    ensures Delimited(t) && t != "$userAmount$" ==> r.Throws?
  {
    if |t| == 0 then Throws(StringIndexOutOfBounds)      // charAt(0) of ""
    else if Delimited(t) then
      if |t| == 1 then Throws(StringIndexOutOfBounds)    // substring(1, 0)
      else
        FieldName(t);
        if t[1..|t| - 1] == AMOUNT_FIELD then Ok(ToDecimal(amount))
        else Throws(NullPointer)                          // no such field: (int) null
    else Ok(t)
  }

  /** The shown balance reads back as the balance. */
  lemma RenderedAmountParses(amount: int)
    requires InInt(amount)
    ensures Resolve("$userAmount$", amount).Ok?
    ensures ParseInt(Resolve("$userAmount$", amount).value) == Some(amount)
  {
    ParseDecimal(amount);
  }

  lemma FieldName(t: string)
    requires Delimited(t) && |t| > 1
    ensures t[1..|t| - 1] == AMOUNT_FIELD <==> t == "$userAmount$"
  {
    if t[1..|t| - 1] == AMOUNT_FIELD {
      assert t == [t[0]] + t[1..|t| - 1] + [t[|t| - 1]];
    }
  }

  predicate TemplateOk(t: string) {
    t != [] && (Delimited(t) ==> t == "$userAmount$")
  }

  /** An element the display loop turns into a label without failing. */
  predicate ElemOk(e: Elem) {
    (e.kind == "label" && TemplateOk(e.text)) || e.kind == "input" || e.kind == "link"
  }

  datatype Made = Made(made: Label) | Halted(outcome: Outcome)

  /** One turn of the display loop: the label for `e`, or how the loop stops. */
  function MakeLabel(e: Elem, amount: int, width: int, height: int): (r: Made)
    ensures r.Made? <==> ElemOk(e)
    ensures r.Made? ==> r.made.attached && r.made.bounds == PixelBounds(e.geometry, width, height)
    ensures r.Made? ==> r.made.action == (if e.kind == "input" then Key(e.input)
                                           else if e.kind == "link" then Goto(e.location)
                                           else NoAction)
    ensures r.Made? ==> r.made.text == (if e.kind == "label" then Resolve(e.text, amount).value else e.text)
    ensures r.Made? ==> r.made.font == FontOf(e.font) && r.made.colour == e.colour && r.made.back == e.back
    ensures r.Halted? ==> r.outcome != Completed
    ensures r.Halted? ==> (r.outcome == Exited <==> e.kind != "label")
  {
    var bounds := PixelBounds(e.geometry, width, height);
    var font := FontOf(e.font);
    if e.kind == "label" then
      match Resolve(e.text, amount)
      case Throws(x) => Halted(Thrown(x))
      case Ok(text) => Made(Label(NoAction, text, e.colour, e.back, bounds, font, true))
    else if e.kind == "input" then
      Made(Label(Key(e.input), e.text, e.colour, e.back, bounds, font, true))
    else if e.kind == "link" then
      Made(Label(Goto(e.location), e.text, e.colour, e.back, bounds, font, true))
    else
      Halted(Exited)                                      // Main.exit(ERROR)
  }

  datatype Built = Built(labels: seq<Label>, outcome: Outcome)

  /**
   * The display loop over `elems`: one label per element, in order, until
   * an element halts it; the labels made before that are kept.
   */
  function Build(elems: seq<Elem>, amount: int, width: int, height: int): Built {
    if elems == [] then Built([], Completed)
    else
      match MakeLabel(elems[0], amount, width, height)
      case Halted(o) => Built([], o)
      case Made(l) =>
        var rest := Build(elems[1..], amount, width, height);
        Built([l] + rest.labels, rest.outcome)
  }

  /**
   * The loop makes the labels of the longest acceptable prefix, in order;
   * it completes exactly when that prefix is everything, and otherwise
   * stops as the first unacceptable element says.
   */
  lemma {:induction false} BuildSpec(elems: seq<Elem>, amount: int, width: int, height: int)
    ensures var r := Build(elems, amount, width, height);
      && |r.labels| <= |elems|
      && (forall i :: 0 <= i < |r.labels| ==>
            ElemOk(elems[i]) && r.labels[i] == MakeLabel(elems[i], amount, width, height).made)
      && (r.outcome == Completed <==> |r.labels| == |elems|)
      && (r.outcome != Completed ==>
            !ElemOk(elems[|r.labels|]) && r.outcome == MakeLabel(elems[|r.labels|], amount, width, height).outcome)
    decreases |elems|
  {
    if elems != [] && MakeLabel(elems[0], amount, width, height).Made? {
      BuildSpec(elems[1..], amount, width, height);
    }
  }

  /** The first turn of the display loop over a non-empty list. */
  lemma BuildUnfolds(elems: seq<Elem>, amount: int, width: int, height: int)
    requires elems != []
    ensures var m := MakeLabel(elems[0], amount, width, height);
      var rest := Build(elems[1..], amount, width, height);
      Build(elems, amount, width, height) ==
        if m.Halted? then Built([], m.outcome) else Built([m.made] + rest.labels, rest.outcome)
  {
  }

  /** The loop completes exactly when every element is acceptable. */
  lemma BuildCompletes(elems: seq<Elem>, amount: int, width: int, height: int)
    ensures Build(elems, amount, width, height).outcome == Completed <==>
      forall i :: 0 <= i < |elems| ==> ElemOk(elems[i])
  {
    BuildSpec(elems, amount, width, height);
  }

  /** An unknown `type` ends the process unless an earlier element failed first. */
  lemma UnknownTypeExits(elems: seq<Elem>, k: nat, amount: int, width: int, height: int)
    requires k < |elems| && elems[k].kind != "label" && elems[k].kind != "input" && elems[k].kind != "link"
    requires forall i :: 0 <= i < k ==> ElemOk(elems[i])
    ensures Build(elems, amount, width, height) ==
      Built(Build(elems[..k], amount, width, height).labels, Exited)
  {
    BuildSpec(elems, amount, width, height);
    BuildSpec(elems[..k], amount, width, height);
    var r := Build(elems, amount, width, height);
    assert |r.labels| == k;
    var p := Build(elems[..k], amount, width, height);
    assert |p.labels| == k;
    assert r.labels == p.labels;
  }

  /** Every label detached: off the frame, no listener. */
  function DetachAll(ls: seq<Label>): seq<Label> {
    seq(|ls|, i requires 0 <= i < |ls| => ls[i].(attached := false))
  }

  /** The labels on the frame, in order. */
  function Attached(ls: seq<Label>): seq<Label> {
    if ls == [] then []
    else (if ls[0].attached then [ls[0]] else []) + Attached(ls[1..])
  }

  lemma {:induction false} AttachedAfterDetach(before: seq<Label>, shown: seq<Label>)
    ensures Attached(DetachAll(before) + shown) == Attached(shown)
    decreases |before|
  {
    var all := DetachAll(before) + shown;
    if before == [] {
      assert all == shown;
    } else {
      assert !all[0].attached;
      assert all[1..] == DetachAll(before[1..]) + shown;
      AttachedAfterDetach(before[1..], shown);
    }
  }

  lemma {:induction false} AttachedAll(ls: seq<Label>)
    requires forall i :: 0 <= i < |ls| ==> ls[i].attached
    ensures Attached(ls) == ls
    decreases |ls|
  {
    if ls != [] {
      AttachedAll(ls[1..]);
    }
  }

  /**
   * After a display has been built on top of detached labels, the labels
   * on the frame are exactly the ones just built.
   */
  lemma ShownAreBuilt(before: seq<Label>, elems: seq<Elem>, amount: int, width: int, height: int)
    ensures var b := Build(elems, amount, width, height).labels;
      Attached(DetachAll(before) + b) == b
  {
    var b := Build(elems, amount, width, height).labels;
    BuildSpec(elems, amount, width, height);
    AttachedAfterDetach(before, b);
    AttachedAll(b);
  }
}
