/**
 The normalisation that texts go through before they are compared (`_normalize`): folded, without
 punctuation, and with single blanks between its words.
 */
module TextNormalizer {
  import opened MemoryExtraction

  /** `fold` is compatibility composition and case folding; the others are what Unicode says of a character. */
  datatype Unicode = Unicode(fold: string -> string, isPunctuation: char -> bool, isSpace: char -> bool)

  /** A blank is a space and composes with nothing, so what it sets apart is folded apart. */
  ghost predicate UnicodeOk(u: Unicode) {
    && u.isSpace(' ')
    && forall x: string, y: string :: u.fold(x + " " + y) == u.fold(x) + " " + u.fold(y)
  }

  function WithoutPunctuation(u: Unicode, text: string): string {
    if text == "" then ""
    else
      var init, last := WithoutPunctuation(u, text[..|text| - 1]), text[|text| - 1];
      if u.isPunctuation(last) then init else init + [last]
  }

  /** Every run of spaces becomes one blank. */
  function Collapsed(u: Unicode, text: string): string {
    if text == "" then ""
    else
      var init, last := Collapsed(u, text[..|text| - 1]), text[|text| - 1];
      if !u.isSpace(last) then init + [last]
      else if EndsBlank(init) then init
      else init + " "
  }

  predicate StartsBlank(text: string) {
    text != "" && text[0] == ' '
  }

  predicate EndsBlank(text: string) {
    text != "" && text[|text| - 1] == ' '
  }

  /** What is left without blanks at either end. */
  function Stripped(text: string): string {
    if StartsBlank(text) then Stripped(text[1..])
    else if EndsBlank(text) then Stripped(text[..|text| - 1])
    else text
  }

  /** `_normalize` */
  function Normalized(u: Unicode, text: string): string {
    Stripped(Collapsed(u, WithoutPunctuation(u, u.fold(text))))
  }

  // ---------------------------------------------------------------------------
  // Parts
  // ---------------------------------------------------------------------------

  lemma TailIsPart(text: string, n: nat, part: string)
    requires n <= |text| && Contains(text[n..], part)
    ensures Contains(text, part)
  {
    var i :| 0 <= i <= |text[n..]| && part <= text[n..][i..];
    assert text[n..][i..] == text[n + i..];
  }

  lemma StartIsPart(text: string, n: nat, part: string)
    requires n <= |text| && Contains(text[..n], part)
    ensures Contains(text, part)
  {
    var i :| 0 <= i <= n && part <= text[..n][i..];
    assert text[..n][i..] == text[i..n] && text[i..n] <= text[i..];
  }

  lemma NothingIsPart(text: string)
    ensures Contains(text, "")
  {
    assert "" <= text[0..];
  }

  /** The first blank of a text is not needed for a part that does not start with one. */
  lemma PartBehindBlank(text: string, part: string)
    requires Contains(text, part) && StartsBlank(text) && !StartsBlank(part)
    ensures Contains(text[1..], part)
  {
    if part == "" {
      NothingIsPart(text[1..]);
    } else {
      var i :| 0 <= i <= |text| && part <= text[i..];
      assert i > 0 by { assert text[i..][0] == part[0]; }
      assert text[1..][i - 1..] == text[i..];
    }
  }

  lemma PartBeforeBlank(text: string, part: string)
    requires Contains(text, part) && EndsBlank(text) && !EndsBlank(part)
    ensures Contains(text[..|text| - 1], part)
  {
    var n := |text| - 1;
    if part == "" {
      NothingIsPart(text[..n]);
    } else {
      var i :| 0 <= i <= |text| && part <= text[i..];
      assert i + |part| <= n by { assert text[i + |part| - 1] == part[|part| - 1]; }
      assert text[i..] == text[i..n] + text[n..] && text[..n][i..] == text[i..n];
    }
  }

  lemma {:induction false} PunctuationJoins(u: Unicode, x: string, y: string)
    ensures WithoutPunctuation(u, x + y) == WithoutPunctuation(u, x) + WithoutPunctuation(u, y)
    decreases |y|
  {
    if y == "" {
      assert x + y == x;
    } else {
      PunctuationJoins(u, x, y[..|y| - 1]);
      assert (x + y)[..|x + y| - 1] == x + y[..|y| - 1];
    }
  }

  /** One text behind another, with one blank where two would meet. */
  function Glued(a: string, b: string): string {
    if EndsBlank(a) && StartsBlank(b) then a + b[1..] else a + b
  }

  lemma {:induction false} CollapsedJoins(u: Unicode, x: string, y: string)
    requires u.isSpace(' ')
    ensures Collapsed(u, x + y) == Glued(Collapsed(u, x), Collapsed(u, y))
    decreases |y|
  {
    if y == "" {
      assert x + y == x;
    } else {
      CollapsedJoins(u, x, y[..|y| - 1]);
      assert (x + y)[..|x + y| - 1] == x + y[..|y| - 1];
      GluedNext(Collapsed(u, x), Collapsed(u, y[..|y| - 1]), y[|y| - 1], u.isSpace(y[|y| - 1]));
      if y[..|y| - 1] != "" { CollapsedIsNotEmpty(u, y[..|y| - 1]); }
    }
  }

  lemma CollapsedIsNotEmpty(u: Unicode, x: string)
    requires x != ""
    ensures Collapsed(u, x) != ""
    decreases |x|
  {
    var init := x[..|x| - 1];
    if init != "" { CollapsedIsNotEmpty(u, init); }
  }

  /** The text with one more character, or with one more blank unless it ends in one. */
  function Longer(text: string, c: char, space: bool): string {
    if !space then text + [c] else if EndsBlank(text) then text else text + " "
  }

  lemma GluedNext(a: string, b: string, c: char, space: bool)
    requires !space ==> c != ' '
    ensures Longer(Glued(a, b), c, space) == Glued(a, Longer(b, c, space))
  {
    if b == "" {
      assert a + b == a;
    }
  }

  /** Nothing but a blank is dropped where texts are glued. */
  lemma GluedKeepsParts(a: string, b: string, part: string)
    requires Contains(a, part) || (Contains(b, part) && !StartsBlank(part))
    ensures Contains(Glued(a, b), part)
  {
    var rest := if EndsBlank(a) && StartsBlank(b) then b[1..] else b;
    if Contains(a, part) {
      assert (a + rest)[..|a|] == a;
      StartIsPart(a + rest, |a|, part);
    } else {
      if StartsBlank(b) { PartBehindBlank(b, part); }
      assert (a + rest)[|a|..] == rest;
      TailIsPart(a + rest, |a|, part);
    }
  }

  lemma {:induction false} StrippedIsPart(text: string)
    ensures Contains(text, Stripped(text)) && !StartsBlank(Stripped(text)) && !EndsBlank(Stripped(text))
    decreases |text|
  {
    if StartsBlank(text) {
      StrippedIsPart(text[1..]);
      TailIsPart(text, 1, Stripped(text));
    } else if EndsBlank(text) {
      StrippedIsPart(text[..|text| - 1]);
      StartIsPart(text, |text| - 1, Stripped(text));
    } else {
      assert text <= text[0..];
    }
  }

  /** Stripping a text keeps every part of it that neither starts nor ends with a blank. */
  lemma {:induction false} StrippingKeepsPart(text: string, part: string)
    requires Contains(text, part) && !StartsBlank(part) && !EndsBlank(part)
    ensures Contains(Stripped(text), part)
    decreases |text|
  {
    if StartsBlank(text) {
      PartBehindBlank(text, part);
      StrippingKeepsPart(text[1..], part);
    } else if EndsBlank(text) {
      PartBeforeBlank(text, part);
      StrippingKeepsPart(text[..|text| - 1], part);
    }
  }

  /** Dropping punctuation and superfluous blanks keeps every part of a text. */
  lemma CleaningKeepsPart(u: Unicode, x: string, part: string, y: string)
    requires u.isSpace(' ')
    ensures Contains(Stripped(Collapsed(u, WithoutPunctuation(u, x + part + y))),
                     Stripped(Collapsed(u, WithoutPunctuation(u, part))))
  {
    var a, p, b := WithoutPunctuation(u, x), WithoutPunctuation(u, part), WithoutPunctuation(u, y);
    PunctuationJoins(u, x + part, y);
    PunctuationJoins(u, x, part);
    var q := Stripped(Collapsed(u, p));
    StrippedIsPart(Collapsed(u, p));
    CollapsedJoins(u, a, p);
    GluedKeepsParts(Collapsed(u, a), Collapsed(u, p), q);
    CollapsedJoins(u, a + p, b);
    GluedKeepsParts(Collapsed(u, a + p), Collapsed(u, b), q);
    StrippingKeepsPart(Collapsed(u, a + p + b), q);
  }

  lemma {:induction false} FoldingKeepsPart(u: Unicode, parts: seq<string>, i: nat) returns (x: string, y: string)
    requires UnicodeOk(u) && i < |parts|
    ensures u.fold(Join(" ", parts)) == x + u.fold(parts[i]) + y
    decreases |parts|
  {
    if |parts| == 1 {
      x, y := "", "";
    } else {
      var rest := Join(" ", parts[1..]);
      assert u.fold(Join(" ", parts)) == u.fold(parts[0]) + " " + u.fold(rest);
      if i == 0 {
        x, y := "", " " + u.fold(rest);
        assert u.fold(parts[0]) + " " + u.fold(rest) == x + u.fold(parts[0]) + y;
      } else {
        var x', y' := FoldingKeepsPart(u, parts[1..], i - 1);
        x, y := u.fold(parts[0]) + " " + x', y';
        assert u.fold(parts[0]) + " " + (x' + u.fold(parts[i]) + y') == x + u.fold(parts[i]) + y;
      }
    }
  }

  function Normalizer(u: Unicode): string -> string {
    (text: string) => Normalized(u, text)
  }

  /** The normalisation keeps the parts of a text that are set apart by blanks. */
  lemma NormalizingKeepsParts(u: Unicode)
    requires UnicodeOk(u)
    ensures KeepsParts(Normalizer(u))
  {
    forall parts: seq<string>, i | 0 <= i < |parts|
      ensures Contains(Normalizer(u)(Join(" ", parts)), Normalizer(u)(parts[i]))
    {
      var x, y := FoldingKeepsPart(u, parts, i);
      CleaningKeepsPart(u, x, u.fold(parts[i]), y);
    }
  }

  /**
   So for every case that the loader accepts, the critical hits are counted rightly whatever is
   predicted exactly when expectations that share a key agree on whether they are critical.
   */
  lemma LoadedCountsCriticalIff(u: Unicode, case_: ExtractionCase)
    requires UnicodeOk(u) && forall e | 0 <= e < |case_.expected| :: Loadable(case_.expected[e])
    ensures KeysAgree(case_.expected)
       <==> forall predictions, owner | ValidPairing(Normalizer(u), predictions, case_.expected, owner) ::
              CountsCritical(Normalizer(u), case_, predictions, owner)
  {
    NormalizingKeepsParts(u);
    forall e | 0 <= e < |case_.expected| ensures CanBeMet(Normalizer(u), case_.expected[e]) {
      LoadedCanBeMet(Normalizer(u), case_.expected[e]);
    }
    CountsCriticalIff(Normalizer(u), case_);
  }
}
