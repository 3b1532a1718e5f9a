/**
 * The parts of the Java platform the kiosk's UI class leans on: how a
 * statement completes (normally, by an unchecked exception, or by the
 * process exiting), 32-bit `int` arithmetic, `String.trim`, the part of
 * `String.toUpperCase` that can matter when comparing with ASCII words,
 * `Integer.parseInt` and the decimal text of an `int`.
 */
module JavaLang {

  datatype Option<T> = None | Some(value: T)

  /** The unchecked exceptions the modelled code can raise. */
  datatype Exception = NumberFormat | StringIndexOutOfBounds | NullPointer

  /** How a call completes; `Exited` is `Main.exit`, which ends the process. */
  datatype Outcome = Completed | Thrown(exception: Exception) | Exited

  datatype Result<T> = Ok(value: T) | Throws(exception: Exception)

  const MIN_INT: int := -0x8000_0000
  const MAX_INT: int := 0x7fff_ffff
  const INT_MODULUS: int := 0x1_0000_0000

  predicate InInt(x: int) {
    MIN_INT <= x <= MAX_INT
  }

  /** Two's-complement wrap-around of an exact result into a Java `int`. */
  function Wrap(x: int): (r: int)
    ensures InInt(r)
    ensures (r - x) % INT_MODULUS == 0
    ensures InInt(x) ==> r == x
  {
    (x - MIN_INT) % INT_MODULUS + MIN_INT
  }

  // ---------------------------------------------------------------------
  // String.trim: every leading and trailing char at or below U+0020 goes.

  predicate IsBlank(c: char) {
    c <= ' '
  }

  predicate AllBlank(s: string) {
    forall i :: 0 <= i < |s| ==> IsBlank(s[i])
  }

  /** Drops the longest blank prefix. */
  function TrimStart(s: string): string {
    if s != [] && IsBlank(s[0]) then TrimStart(s[1..]) else s
  }

  /** Drops the longest blank suffix. */
  function TrimEnd(s: string): string {
    if s != [] && IsBlank(s[|s| - 1]) then TrimEnd(s[..|s| - 1]) else s
  }

  /** `String.trim`. */
  function Trim(s: string): string {
    TrimEnd(TrimStart(s))
  }

  /** TrimStart keeps a suffix, after removing only blanks, and stops at a non-blank. */
  lemma {:induction false} TrimStartDrops(s: string)
    ensures var r := TrimStart(s);
      && |r| <= |s| && r == s[|s| - |r|..]
      && AllBlank(s[..|s| - |r|])
      && (r != [] ==> !IsBlank(r[0]))
    decreases |s|
  {
    if s != [] && IsBlank(s[0]) {
      TrimStartDrops(s[1..]);
      var r := TrimStart(s);
      var k := |s| - |r|;
      assert s[1..][|s| - 1 - |r|..] == s[k..];
      assert forall i :: 1 <= i < k ==> s[..k][i] == s[1..][..k - 1][i - 1];
    }
  }

  /** TrimEnd keeps a prefix, after removing only blanks, and stops at a non-blank. */
  lemma {:induction false} TrimEndDrops(s: string)
    ensures var r := TrimEnd(s);
      && |r| <= |s| && r == s[..|r|]
      && AllBlank(s[|r|..])
      && (r != [] ==> !IsBlank(r[|r| - 1]))
    decreases |s|
  {
    if s != [] && IsBlank(s[|s| - 1]) {
      var t := s[..|s| - 1];
      TrimEndDrops(t);
      var r := TrimEnd(s);
      assert t[..|r|] == s[..|r|];
      assert forall i :: |r| <= i < |s| - 1 ==> s[i] == t[i];
    }
  }

  /**
   * `trim` keeps a middle slice of its input, with only blanks on either
   * side; its result is empty exactly for an all-blank input, and otherwise
   * starts and ends with a non-blank.
   */
  lemma TrimSpec(s: string)
    ensures var r := Trim(s);
      && |r| <= |s|
      && (r == [] <==> AllBlank(s))
      && (r != [] ==> !IsBlank(r[0]) && !IsBlank(r[|r| - 1]))
      && exists i, j :: 0 <= i <= j <= |s| && r == s[i..j] && AllBlank(s[..i]) && AllBlank(s[j..])
  {
    var t := TrimStart(s);
    var r := TrimEnd(t);
    TrimStartDrops(s);
    TrimEndDrops(t);
    var i := |s| - |t|;
    var j := i + |r|;
    assert r == s[i..j];
    assert AllBlank(s[j..]) by {
      assert forall k :: j <= k < |s| ==> s[k] == t[k - i];
    }
    if r == [] {
      assert t == [];
      assert s[..i] == s;
    } else {
      assert !IsBlank(s[i]);
    }
  }

  /** A one-character key either survives trim whole or vanishes. */
  lemma TrimOneChar(key: string)
    requires |key| == 1
    ensures Trim(key) == if IsBlank(key[0]) then [] else key
  {
    if IsBlank(key[0]) {
      assert TrimStart(key) == TrimStart(key[1..]) == TrimStart([]);
    } else {
      assert TrimStart(key) == key;
      assert TrimEnd(key) == key;
    }
  }

  /** A token of digits has nothing for trim to remove. */
  lemma TrimKeepsDigits(s: string)
    requires AllDigits(s)
    ensures Trim(s) == s
  {
    assert TrimStart(s) == s by {
      if s != [] {
        assert !IsBlank(s[0]);
      }
    }
    if s != [] {
      assert !IsBlank(s[|s| - 1]);
    }
  }

  // ---------------------------------------------------------------------
  // String.toUpperCase, as far as a comparison with an ASCII word can tell.

  /**
   * Upper case of one char, as far as it can matter when the result is
   * compared with an ASCII word made of the letters of BOLD and ITALIC:
   * the ASCII letters, plus the two non-ASCII chars whose upper case is a
   * single ASCII letter (dotless i and long s); every other char is kept.
   * Java also expands a few chars into several: sharp s and the Latin
   * ligatures U+FB00 to U+FB06 become SS, FF, FI, FL, FFI, FFL and ST,
   * and some others become a letter followed by a non-ASCII mark. None of
   * those is modelled: the all-ASCII expansions contain an F or an S,
   * which no style word does, and the rest keep a non-ASCII char, so no
   * expansion can make a word match a style.
   */
  function UpperChar(c: char): char {
    if 'a' <= c <= 'z' then (c as int - 32) as char
    else if c == 'ı' then 'I'
    else if c == 'ſ' then 'S'
    else c
  }

  function ToUpperCase(s: string): string {
    seq(|s|, i requires 0 <= i < |s| => UpperChar(s[i]))
  }

  // ---------------------------------------------------------------------
  // Integer.toString and Integer.parseInt (radix 10).

  predicate IsDigit(c: char) {
    '0' <= c <= '9'
  }

  predicate AllDigits(s: string) {
    forall i :: 0 <= i < |s| ==> IsDigit(s[i])
  }

  function DigitChar(d: nat): char
    requires d < 10
  {
    ('0' as int + d) as char
  }

  /** The shortest decimal numeral of `n` (no sign, no leading zero). */
  function Numeral(n: nat): string
    decreases n
  {
    if n < 10 then [DigitChar(n)] else Numeral(n / 10) + [DigitChar(n % 10)]
  }

  /** `Integer.toString(n)`, which is also what `"" + n` produces. */
  function ToDecimal(n: int): string {
    if n < 0 then "-" + Numeral(-n) else Numeral(n)
  }

  /** The number a string of decimal digits denotes. */
  function Value(s: string): nat
    requires AllDigits(s)
  {
    if s == [] then 0 else Value(s[..|s| - 1]) * 10 + (s[|s| - 1] as int - '0' as int)
  }

  /**
   * `Integer.parseInt(s)`: an optional '+' or '-' and then at least one
   * digit, denoting a value that fits in an `int`; `None` stands for the
   * NumberFormatException thrown for everything else.
   */
  function ParseInt(s: string): (r: Option<int>)
    ensures r.Some? ==> InInt(r.value)
    ensures s == [] ==> r == None
  {
    if |s| == 0 then None
    else
      var signed := s[0] == '-' || s[0] == '+';
      var digits := if signed then s[1..] else s;
      if |digits| == 0 || !AllDigits(digits) then None
      else
        var v: int := if s[0] == '-' then -(Value(digits) as int) else Value(digits);
        if InInt(v) then Some(v) else None
  }

  lemma {:induction false} NumeralValue(n: nat)
    ensures |Numeral(n)| > 0 && AllDigits(Numeral(n)) && Value(Numeral(n)) == n
    decreases n
  {
    if n >= 10 {
      NumeralValue(n / 10);
      var s := Numeral(n);
      assert s[..|s| - 1] == Numeral(n / 10);
    }
  }

  /** Parsing the decimal text of any `int` gives the `int` back. */
  lemma ParseDecimal(n: int)
    requires InInt(n)
    ensures ParseInt(ToDecimal(n)) == Some(n)
  {
    var s := ToDecimal(n);
    if n < 0 {
      NumeralValue(-n);
      assert s[0] == '-';
      assert s[1..] == Numeral(-n);
    } else {
      NumeralValue(n);
      assert IsDigit(s[0]);
    }
  }

  /** parseInt rejects a string with a char that is neither a digit nor a leading sign. */
  lemma ParseIntRejects(s: string, i: nat)
    requires i < |s| && !IsDigit(s[i])
    requires i == 0 ==> s[0] != '-' && s[0] != '+'
    ensures ParseInt(s) == None
  {
    if i > 0 && (s[0] == '-' || s[0] == '+') {
      assert !IsDigit(s[1..][i - 1]);
    }
  }

  /** The values of two button labels. */
  lemma ValueExamples()
    ensures AllDigits("200") && Value("200") == 200
    ensures AllDigits("6000") && Value("6000") == 6000
  {
    assert "200"[..2] == "20" && "20"[..1] == "2" && "2"[..0] == "";
    assert "6000"[..3] == "600" && "600"[..2] == "60" && "60"[..1] == "6" && "6"[..0] == "";
  }

  /** A plain digit string that fits parses to its value. */
  lemma ParseDigits(s: string)
    requires s != [] && AllDigits(s) && Value(s) <= MAX_INT
    ensures ParseInt(s) == Some(Value(s))
  {
  }
}
