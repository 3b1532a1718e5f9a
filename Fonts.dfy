/**
 * The font a label gets from its element's `font` object: the family
 * (blank means the label's default), the style word, and the size (a
 * negative size asks for the largest size that fits the label).
 */
module Fonts {
  import opened JavaLang

  datatype FontSpec = FontSpec(name: string, style: string, size: int)

  datatype Style = Plain | Bold | Italic | BoldItalic

  datatype FontSize = Points(points: int) | AutoFit

  /** `family == None` is the label's default family. */
  datatype Font = Font(family: Option<string>, style: Style, size: FontSize)

  /** The AWT constant for a style: `Font.PLAIN`, `Font.BOLD`, `Font.ITALIC`, `BOLD + ITALIC`. */
  function AwtStyle(s: Style): int {
    match s
    case Plain => 0
    case Bold => 1
    case Italic => 2
    case BoldItalic => 1 + 2
  }

  predicate SameIgnoringCase(a: string, b: string) {
    |a| == |b| && forall i :: 0 <= i < |a| ==> UpperChar(a[i]) == UpperChar(b[i])
  }

  /** The style switch of `setFont`: the upper-cased word picks the style, anything else is plain. */
  function StyleOf(token: string): (st: Style)
    ensures st == Bold <==> SameIgnoringCase(token, "BOLD")
    ensures st == Italic <==> SameIgnoringCase(token, "ITALIC")
    ensures st == BoldItalic <==> SameIgnoringCase(token, "BOLD+ITALIC")
  {
    var t := ToUpperCase(token);
    UpperMatches(token, "BOLD");
    UpperMatches(token, "ITALIC");
    UpperMatches(token, "BOLD+ITALIC");
    if t == "BOLD" then Bold
    else if t == "ITALIC" then Italic
    else if t == "BOLD+ITALIC" then BoldItalic
    else Plain
  }

  lemma UpperMatches(token: string, word: string)
    requires forall i :: 0 <= i < |word| ==> UpperChar(word[i]) == word[i]
    ensures ToUpperCase(token) == word <==> SameIgnoringCase(token, word)
  {
    if SameIgnoringCase(token, word) {
      assert forall i :: 0 <= i < |word| ==> ToUpperCase(token)[i] == word[i];
    }
  }

  /** A few concrete words, including case variants and near misses. */
  lemma StyleWords()
    ensures StyleOf("bold") == Bold && StyleOf("Italic") == Italic
    ensures StyleOf("Bold+Italic") == BoldItalic && StyleOf("plain") == Plain
    ensures StyleOf("") == Plain && StyleOf("bold italic") == Plain
  {
    assert SameIgnoringCase("bold", "BOLD");
    assert SameIgnoringCase("Italic", "ITALIC");
    assert SameIgnoringCase("Bold+Italic", "BOLD+ITALIC");
    assert !SameIgnoringCase("bold italic", "BOLD+ITALIC") by {
      assert UpperChar("bold italic"[4]) != UpperChar("BOLD+ITALIC"[4]);
    }
  }

  /** The font `setFont` builds from an element's font object. */
  function FontOf(spec: FontSpec): (f: Font)
    ensures f.family == None <==> spec.name == ""
    ensures spec.name != "" ==> f.family == Some(spec.name)
    ensures f.style == StyleOf(spec.style)
    ensures AwtStyle(f.style) ==
      if SameIgnoringCase(spec.style, "BOLD") then 1
      else if SameIgnoringCase(spec.style, "ITALIC") then 2
      else if SameIgnoringCase(spec.style, "BOLD+ITALIC") then 1 + 2
      else 0
    ensures f.size == AutoFit <==> spec.size < 0
    ensures f.size.Points? ==> f.size.points == spec.size
  {
    Font(
      if spec.name == "" then None else Some(spec.name),
      StyleOf(spec.style),
      if spec.size < 0 then AutoFit else Points(spec.size))
  }
}
