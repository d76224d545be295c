/**
 * The string operations of Python's `str` that the core uses: `upper`,
 * `lower`, `replace(c, '')`, `strip`, and `int(...)` and `float(...)` on a
 * string.
 * Case mapping covers the ASCII letters only.
 */
module Text {
  import opened Wrappers

  /** Python's `str.isspace` for one character. */
  predicate IsSpace(c: char) {
    var n := c as int;
    (9 <= n <= 13) || (28 <= n <= 32) || n == 133 || n == 160 || n == 5760
    || (8192 <= n <= 8202) || n == 8232 || n == 8233 || n == 8239 || n == 8287 || n == 12288
  }

  predicate IsLowerLetter(c: char) { 'a' <= c <= 'z' }

  predicate IsUpperLetter(c: char) { 'A' <= c <= 'Z' }

  function UpperChar(c: char): char {
    if IsLowerLetter(c) then (c as int - 32) as char else c
  }

  function LowerChar(c: char): char {
    if IsUpperLetter(c) then (c as int + 32) as char else c
  }

  /** `s.upper()` */
  function Upper(s: string): (r: string)
    ensures |r| == |s|
    ensures forall i :: 0 <= i < |s| ==> r[i] == UpperChar(s[i])
    ensures forall i :: 0 <= i < |r| ==> !IsLowerLetter(r[i])
  {
    seq(|s|, i requires 0 <= i < |s| => UpperChar(s[i]))
  }

  /** Upper-casing works character by character, so it distributes over concatenation. */
  lemma UpperConcat(a: string, b: string)
    ensures Upper(a + b) == Upper(a) + Upper(b)
  {
    assert forall i :: 0 <= i < |a + b| ==> Upper(a + b)[i] == (Upper(a) + Upper(b))[i];
  }

  /** Upper-casing neither makes nor removes a character that is not a letter. */
  lemma UpperKeepsNonLetter(s: string, c: char)
    requires !IsLowerLetter(c) && !IsUpperLetter(c)
    ensures c in Upper(s) <==> c in s
  {
    assert forall i :: 0 <= i < |s| ==> (Upper(s)[i] == c <==> s[i] == c);
  }

  /** `s.lower()` */
  function Lower(s: string): (r: string)
    ensures |r| == |s|
    ensures forall i :: 0 <= i < |s| ==> r[i] == LowerChar(s[i])
    ensures forall i :: 0 <= i < |r| ==> !IsUpperLetter(r[i])
  {
    seq(|s|, i requires 0 <= i < |s| => LowerChar(s[i]))
  }

  /** `s.replace(c, '')` for a one-character `c`. */
  function RemoveChar(s: string, c: char): (r: string)
    ensures c !in r
    ensures |r| <= |s|
    ensures forall i :: 0 <= i < |r| ==> r[i] in s
  {
    if s == [] then []
    else (if s[0] == c then [] else [s[0]]) + RemoveChar(s[1..], c)
  }

  /** A string with no lower-case letter is its own upper-case form. */
  lemma UpperOfUpper(s: string)
    requires forall i :: 0 <= i < |s| ==> !IsLowerLetter(s[i])
    ensures Upper(s) == s
  {
  }

  /** Removing a character that does not occur changes nothing. */
  lemma {:induction false} RemoveAbsent(s: string, c: char)
    requires c !in s
    ensures RemoveChar(s, c) == s
  {
    if s != [] {
      assert s[0] != c;
      RemoveAbsent(s[1..], c);
      assert s == [s[0]] + s[1..];
    }
  }

  /** Removal distributes over concatenation. */
  lemma {:induction false} RemoveConcat(a: string, b: string, c: char)
    ensures RemoveChar(a + b, c) == RemoveChar(a, c) + RemoveChar(b, c)
  {
    if a != [] {
      assert (a + b)[1..] == a[1..] + b;
      RemoveConcat(a[1..], b, c);
    } else {
      assert a + b == b;
    }
  }

  /** Removing the one separator `c` between two parts that do not contain it. */
  lemma RemoveSeparator(a: string, b: string, c: char)
    requires c !in a && c !in b
    ensures RemoveChar(a + [c] + b, c) == a + b
  {
    assert [c][1..] == [];
    assert RemoveChar([c], c) == [];
    RemoveConcat(a, [c], c);
    assert RemoveChar(a + [c], c) == RemoveChar(a, c);
    RemoveConcat(a + [c], b, c);
    RemoveAbsent(a, c);
    RemoveAbsent(b, c);
  }

  /**
   * The two notions of whitespace the core meets. `str.strip()` removes
   * every `str.isspace` character. `int(s)` and `float(s)` first turn each
   * non-ASCII whitespace character into a space and then skip only ASCII
   * 9 to 13 and 32, so the separators 28 to 31 are not skipped there.
   */
  datatype Blanks = StrSpace | NumberSpace

  predicate IsBlank(b: Blanks, c: char) {
    match b
    case StrSpace => IsSpace(c)
    case NumberSpace => IsSpace(c) && !(28 <= c as int <= 31)
  }

  /** Leading whitespace removed (`str.lstrip()` for `StrSpace`). */
  function TrimLeft(s: string, b: Blanks): (r: string)
    ensures |r| <= |s| && r == s[|s| - |r|..]
    ensures forall k :: 0 <= k < |s| - |r| ==> IsBlank(b, s[k])
    ensures r == [] || !IsBlank(b, r[0])
  {
    if s == [] || !IsBlank(b, s[0]) then s else TrimLeft(s[1..], b)
  }

  /** Trailing whitespace removed (`str.rstrip()` for `StrSpace`). */
  function TrimRight(s: string, b: Blanks): (r: string)
    ensures |r| <= |s| && r == s[..|r|]
    ensures forall k :: |r| <= k < |s| ==> IsBlank(b, s[k])
    ensures r == [] || !IsBlank(b, r[|r| - 1])
  {
    if s == [] || !IsBlank(b, s[|s| - 1]) then s else TrimRight(s[..|s| - 1], b)
  }

  /** Leading and trailing whitespace removed; `s.strip()` for `StrSpace`. */
  function Strip(s: string, b: Blanks): (r: string)
    ensures |r| <= |s|
    ensures r == [] || (!IsBlank(b, r[0]) && !IsBlank(b, r[|r| - 1]))
    ensures (s == [] || (!IsBlank(b, s[0]) && !IsBlank(b, s[|s| - 1]))) ==> r == s
  {
    TrimRight(TrimLeft(s, b), b)
  }

  predicate AllBlank(s: string, b: Blanks) {
    forall k :: 0 <= k < |s| ==> IsBlank(b, s[k])
  }

  /** A string made only of whitespace strips to the empty string. */
  lemma StripAllSpace(s: string, b: Blanks)
    requires AllBlank(s, b)
    ensures Strip(s, b) == ""
  {
  }

  lemma {:induction false} TrimLeftPadded(w: string, x: string, b: Blanks)
    requires AllBlank(w, b) && x != [] && !IsBlank(b, x[0])
    ensures TrimLeft(w + x, b) == x
  {
    var s := w + x;
    var r := TrimLeft(s, b);
    assert s[|w|] == x[0];
    assert |s| - |r| <= |w|;
    assert r[0] == s[|s| - |r|];
    assert |s| - |r| >= |w|;
    assert r == s[|w|..] == x;
  }

  lemma {:induction false} TrimRightPadded(x: string, w: string, b: Blanks)
    requires AllBlank(w, b) && x != [] && !IsBlank(b, x[|x| - 1])
    ensures TrimRight(x + w, b) == x
  {
    var s := x + w;
    var r := TrimRight(s, b);
    assert s[|x| - 1] == x[|x| - 1];
    assert |r| >= |x|;
    assert r[|r| - 1] == s[|r| - 1];
    assert |r| <= |x|;
    assert r == s[..|x|] == x;
  }

  /** Whatever whitespace surrounds a text without whitespace at its ends, stripping gives back that text. */
  lemma StripPadded(w1: string, x: string, w2: string, b: Blanks)
    requires AllBlank(w1, b) && AllBlank(w2, b)
    requires x != [] && !IsBlank(b, x[0]) && !IsBlank(b, x[|x| - 1])
    ensures Strip(w1 + x + w2, b) == x
  {
    assert w1 + x + w2 == w1 + (x + w2);
    TrimLeftPadded(w1, x + w2, b);
    TrimRightPadded(x, w2, b);
  }

  predicate IsDigit(c: char) { '0' <= c <= '9' }

  /** The value of a non-empty string of decimal digits. */
  function DigitsValue(s: string): (n: nat)
    requires forall k :: 0 <= k < |s| ==> IsDigit(s[k])
  {
    if s == [] then 0
    else
      assert IsDigit(s[|s| - 1]);
      DigitsValue(s[..|s| - 1]) * 10 + (s[|s| - 1] as int - '0' as int)
  }

  /** The text after an optional leading `+` or `-`. */
  function Unsigned(t: string): string {
    if |t| > 0 && (t[0] == '-' || t[0] == '+') then t[1..] else t
  }

  predicate Negative(t: string) {
    |t| > 0 && t[0] == '-'
  }

  predicate AllDigits(s: string) {
    forall k :: 0 <= k < |s| ==> IsDigit(s[k])
  }

  /** `-v` when the text carries a minus sign, else `v`. */
  function Signed(t: string, v: real): real {
    if Negative(t) then -v else v
  }

  /**
   * Python's `int(s)` on a string: surrounding `NumberSpace` whitespace, an
   * optional sign, then one or more ASCII digits; None where the model
   * raises ValueError.
   */
  function ParseInt(s: string): (r: Option<int>)
    ensures r.Some? <==> Unsigned(Strip(s, NumberSpace)) != [] && AllDigits(Unsigned(Strip(s, NumberSpace)))
    ensures r.Some? ==> r.value as real == Signed(Strip(s, NumberSpace), DigitsValue(Unsigned(Strip(s, NumberSpace))) as real)
  {
    var t := Strip(s, NumberSpace);
    var body := Unsigned(t);
    if body == [] || !AllDigits(body) then None
    else Some(if Negative(t) then -(DigitsValue(body) as int) else DigitsValue(body) as int)
  }

  /** Text that strips to plain digits is read as their value. */
  lemma ParseIntOfDigits(s: string)
    ensures Strip(s, NumberSpace) != [] && AllDigits(Strip(s, NumberSpace)) ==> ParseInt(s) == Some(DigitsValue(Strip(s, NumberSpace)) as int)
  {
    var t := Strip(s, NumberSpace);
    if t != [] && AllDigits(t) {
      assert IsDigit(t[0]);
      assert Unsigned(t) == t && !Negative(t);
    }
  }

  /** A run of digits within any whitespace is read as its value. */
  lemma ParseIntPadded(w1: string, d: string, w2: string)
    requires AllBlank(w1, NumberSpace) && AllBlank(w2, NumberSpace) && d != [] && AllDigits(d)
    ensures ParseInt(w1 + d + w2) == Some(DigitsValue(d) as int)
  {
    assert IsDigit(d[0]) && IsDigit(d[|d| - 1]);
    StripPadded(w1, d, w2, NumberSpace);
    ParseIntOfDigits(w1 + d + w2);
  }

  /** The same run after a minus sign is read as its negation. */
  lemma ParseIntPaddedNegative(w1: string, d: string, w2: string)
    requires AllBlank(w1, NumberSpace) && AllBlank(w2, NumberSpace) && d != [] && AllDigits(d)
    ensures ParseInt(w1 + "-" + d + w2) == Some(-(DigitsValue(d) as int))
  {
    var m := "-" + d;
    assert IsDigit(d[|d| - 1]) && m[|m| - 1] == d[|d| - 1];
    assert w1 + "-" + d + w2 == w1 + m + w2;
    StripPadded(w1, m, w2, NumberSpace);
    assert Unsigned(m) == d && Negative(m);
  }

  /**
   * A file separator (character 28) before the digits: `str.strip` removes
   * it, `int` does not skip it and refuses the text.
   */
  lemma SeparatorIsNotNumberSpace()
    ensures Strip("\U{1c}8080", StrSpace) == "8080"
    ensures ParseInt("\U{1c}8080") == None
  {
    var s := "\U{1c}8080";
    assert s == "\U{1c}" + "8080" + "";
    StripPadded("\U{1c}", "8080", "", StrSpace);
    assert Strip(s, NumberSpace) == s;
    assert !IsDigit(Unsigned(s)[0]);
  }

  function Pow10(n: nat): (p: nat)
    ensures p >= 1
  {
    if n == 0 then 1 else 10 * Pow10(n - 1)
  }

  /** Index of the first `c` in `s`, or `|s|` when there is none. */
  function IndexOf(s: string, c: char): (i: nat)
    ensures i <= |s| && c !in s[..i]
    ensures i < |s| ==> s[i] == c
  {
    if s == [] || s[0] == c then 0 else 1 + IndexOf(s[1..], c)
  }

  /** The digits before the first `.`. */
  function WholePart(body: string): string {
    body[..IndexOf(body, '.')]
  }

  /** The digits after the first `.`, `""` when there is none. */
  function FracPart(body: string): string {
    var dot := IndexOf(body, '.');
    if dot < |body| then body[dot + 1..] else ""
  }

  /** `whole.frac` read as a decimal number. */
  function DecimalValue(whole: string, frac: string): real
    requires AllDigits(whole) && AllDigits(frac)
  {
    DigitsValue(whole) as real + DigitsValue(frac) as real / Pow10(|frac|) as real
  }

  /**
   * Python's `float(s)` on a string of the form `[sign]digits[.digits]`
   * within `NumberSpace` whitespace (at least one digit); None where the
   * model raises ValueError.
   */
  function ParseFloat(s: string): (r: Option<real>)
    ensures var body := Unsigned(Strip(s, NumberSpace));
      r.Some? <==> (WholePart(body) != [] || FracPart(body) != []) && AllDigits(WholePart(body)) && AllDigits(FracPart(body))
    ensures var body := Unsigned(Strip(s, NumberSpace));
      r.Some? ==> r.value == Signed(Strip(s, NumberSpace), DecimalValue(WholePart(body), FracPart(body)))
  {
    var t := Strip(s, NumberSpace);
    var body := Unsigned(t);
    var whole := WholePart(body);
    var frac := FracPart(body);
    if (whole == [] && frac == []) || !AllDigits(whole) || !AllDigits(frac) then None
    else Some(Signed(t, DecimalValue(whole, frac)))
  }

  /** `float(s)` agrees with `int(s)` wherever `int(s)` succeeds. */
  lemma FloatAgreesWithInt(s: string)
    requires ParseInt(s).Some?
    ensures ParseFloat(s) == Some(ParseInt(s).value as real)
  {
    var body := Unsigned(Strip(s, NumberSpace));
    assert IndexOf(body, '.') == |body|;
    assert WholePart(body) == body && FracPart(body) == "";
  }
}
