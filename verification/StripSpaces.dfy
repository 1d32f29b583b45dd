/**
  What "trailing space is removed from all lines" means, and exactly when TrimTrailingSpaces does it.
 */
module StripSpaces {
  import opened TextLines
  import opened TrimSpaces

  /** A blank goes when nothing but blanks separates it from a line end or the end of the text. */
  function Strip(text: string): string {
    if text == "" then ""
    else
      var rest := Strip(text[1..]);
      if IsBlank(text[0]) && (rest == "" || IsEol(rest[0])) then rest else [text[0]] + rest
  }

  /** The same said of lines: every line end stays, every line loses its trailing blanks. */
  function Stripped(d: Doc): Doc {
    if d.Last? then Last(RTrim(d.body)) else More(RTrim(d.body), d.eol, Stripped(d.rest))
  }

  predicate BodiesHaveNoEol(d: Doc) {
    NoEol(d.body) && (d.More? ==> BodiesHaveNoEol(d.rest))
  }

  /** Somewhere a blank line ended by LF follows a line ended by a lone CR. */
  predicate SomeVanish(afterCr: bool, d: Doc)
    decreases d
  {
    Vanishes(afterCr, d) || (d.More? && SomeVanish(d.eol.Cr?, d.rest))
  }

  /** A line the loop skips, the one directly after a line that vanishes, ends with blanks. */
  predicate Misses(afterCr: bool, d: Doc)
    decreases d
  {
    if d.Last? then false
    else if !Vanishes(afterCr, d) then Misses(d.eol.Cr?, d.rest)
    else RTrim(d.rest.body) != d.rest.body || (d.rest.More? && Misses(d.rest.eol.Cr?, d.rest.rest))
  }

  /** The text with the blanks at its very end removed. */
  function LastTrim(d: Doc): Doc {
    if d.Last? then Last(RTrim(d.body)) else d.(rest := LastTrim(d.rest))
  }

  /** Two lines vanished: the loop's last rounds trim the end of the text once more. */
  function Retrimmed(d: Doc): Doc {
    if Fusions(false, d) >= 2 then LastTrim(d) else d
  }

  /** The lines for which TrimTrailingSpaces leaves trailing blanks. */
  predicate Missed(text: string) {
    Misses(false, Retrimmed(Parse(text)))
  }

  // ---------------------------------------------------------------- trailing blanks of a string

  lemma {:induction false} RTrimFront(c: char, s: string)
    ensures RTrim([c] + s) == if IsBlank(c) && RTrim(s) == "" then "" else [c] + RTrim(s)
  {
    if s != "" && IsBlank(s[|s| - 1]) {
      assert ([c] + s)[..|s|] == [c] + s[..|s| - 1];
      RTrimFront(c, s[..|s| - 1]);
    } else if s == "" {
      assert [c] + s == [c] && [c][..0] == "";
      assert RTrim("") == "" && RTrim([c]) == if IsBlank(c) then "" else [c];
    }
  }

  lemma {:induction false} RTrimTwice(s: string)
    ensures RTrim(RTrim(s)) == RTrim(s)
  {
    if s != "" && IsBlank(s[|s| - 1]) {
      RTrimTwice(s[..|s| - 1]);
    }
  }

  /** Blanks before the end of a string that ends otherwise are not trailing. */
  lemma {:induction false} RTrimTail(h: string, t: string)
    requires h == "" || !IsBlank(h[|h| - 1])
    ensures RTrim(h + t) == h + RTrim(t)
  {
    if t == "" {
      assert h + t == h;
    } else {
      assert (h + t)[|h + t| - 1] == t[|t| - 1];
      if IsBlank(t[|t| - 1]) {
        assert (h + t)[..|h + t| - 1] == h + t[..|t| - 1];
        RTrimTail(h, t[..|t| - 1]);
      }
    }
  }

  lemma {:induction false} LastTrimRenders(d: Doc)
    ensures RTrim(Render(d)) == Render(LastTrim(d))
  {
    if d.More? {
      var h := d.body + EolText(d.eol);
      assert Render(d) == h + Render(d.rest) && Render(LastTrim(d)) == h + Render(LastTrim(d.rest));
      RTrimTail(h, Render(d.rest));
      LastTrimRenders(d.rest);
    }
  }

  // ---------------------------------------------------------------- the two readings agree

  lemma {:induction false} StripBody(body: string, tail: string)
    requires NoEol(body) && (tail == "" || IsEol(tail[0]))
    ensures Strip(body + tail) == RTrim(body) + Strip(tail)
  {
    if body == "" {
      assert body + tail == tail;
    } else {
      assert (body + tail)[1..] == body[1..] + tail && [body[0]] + body[1..] == body;
      StripBody(body[1..], tail);
      RTrimFront(body[0], body[1..]);
      RTrimNoEol(body[1..]);
      StripsToEol(tail);
    }
  }

  lemma StripsToEol(tail: string)
    requires tail == "" || IsEol(tail[0])
    ensures Strip(tail) == "" || IsEol(Strip(tail)[0])
    ensures tail == "" || Strip(tail) == [tail[0]] + Strip(tail[1..])
  {
  }

  lemma StripEol(e: Eol, tail: string)
    ensures Strip(EolText(e) + tail) == EolText(e) + Strip(tail)
  {
    var text := EolText(e) + tail;
    StripsToEol(text);
    if e.CrLf? {
      assert text[1..] == "\n" + tail;
      StripsToEol(text[1..]);
      assert text[1..][1..] == tail;
      assert EolText(e) == ['\r'] + ['\n'];
    } else {
      assert text[1..] == tail;
    }
  }

  /** On the rendered text, losing trailing blanks line by line is losing them character by character. */
  lemma {:induction false} StrippedRenders(d: Doc)
    requires BodiesHaveNoEol(d)
    ensures Render(Stripped(d)) == Strip(Render(d))
  {
    if d.Last? {
      StripBody(d.body, "");
      assert d.body + "" == d.body && RTrim(d.body) + "" == RTrim(d.body);
    } else {
      var tail := EolText(d.eol) + Render(d.rest);
      assert IsEol(tail[0]);
      StripBody(d.body, tail);
      StripEol(d.eol, Render(d.rest));
      StrippedRenders(d.rest);
    }
  }

  // ---------------------------------------------------------------- the loop against the ideal

  lemma {:induction false} StrippedSweep(afterCr: bool, d: Doc)
    ensures Stripped(Sweep(afterCr, d)) == Stripped(d)
    decreases d
  {
    RTrimTwice(d.body);
    if d.More? {
      if !Vanishes(afterCr, d) {
        StrippedSweep(d.eol.Cr?, d.rest);
      } else if d.rest.More? {
        StrippedSweep(d.rest.eol.Cr?, d.rest.rest);
      }
    }
  }

  lemma {:induction false} SweepNoEol(afterCr: bool, d: Doc)
    requires BodiesHaveNoEol(d)
    ensures BodiesHaveNoEol(Sweep(afterCr, d))
    decreases d
  {
    RTrimNoEol(d.body);
    if d.More? {
      if !Vanishes(afterCr, d) {
        SweepNoEol(d.eol.Cr?, d.rest);
      } else if d.rest.More? {
        SweepNoEol(d.rest.eol.Cr?, d.rest.rest);
      }
    }
  }

  /** The loop never removes too much, and removes enough exactly when it misses no line. */
  lemma {:induction false} SweepAgainstStripped(afterCr: bool, d: Doc)
    ensures |Render(Stripped(d))| <= |Render(Sweep(afterCr, d))|
    ensures |Render(Stripped(d))| == |Render(Sweep(afterCr, d))| <==> !Misses(afterCr, d)
    ensures !Misses(afterCr, d) ==> Sweep(afterCr, d) == Stripped(d)
    decreases d
  {
    if d.More? {
      if !Vanishes(afterCr, d) {
        SweepAgainstStripped(d.eol.Cr?, d.rest);
      } else {
        RTrimIsPrefix(d.rest.body);
        if d.rest.More? {
          SweepAgainstStripped(d.rest.eol.Cr?, d.rest.rest);
        }
      }
    }
  }

  lemma {:induction false} LastTrimSweep(afterCr: bool, d: Doc)
    ensures LastTrim(Sweep(afterCr, d)) == Sweep(afterCr, LastTrim(d))
    ensures Fusions(afterCr, LastTrim(d)) == Fusions(afterCr, d)
    ensures Stripped(LastTrim(d)) == Stripped(d)
    decreases d
  {
    RTrimTwice(d.body);
    if d.More? {
      LastTrimVanishes(afterCr, d);
      LastTrimSweep(d.eol.Cr?, d.rest);
      if Vanishes(afterCr, d) && d.rest.More? {
        LastTrimSweep(d.rest.eol.Cr?, d.rest.rest);
      }
    }
  }

  lemma LastTrimVanishes(afterCr: bool, d: Doc)
    ensures Vanishes(afterCr, LastTrim(d)) == Vanishes(afterCr, d)
    ensures LastTrim(d).Last? == d.Last?
  {
  }

  lemma {:induction false} LastTrimNoEol(d: Doc)
    requires BodiesHaveNoEol(d)
    ensures BodiesHaveNoEol(LastTrim(d))
  {
    if d.Last? {
      RTrimNoEol(d.body);
    } else {
      LastTrimNoEol(d.rest);
    }
  }

  lemma {:induction false} ParsedNoEol(d: Doc)
    requires WellFormed(d)
    ensures BodiesHaveNoEol(d)
  {
    if d.More? {
      ParsedNoEol(d.rest);
    }
  }

  lemma TrimmedIsSweep(text: string)
    ensures var d := Retrimmed(Parse(text));
      Trimmed(text) == Render(Sweep(false, d)) && Render(Stripped(d)) == Strip(text) && BodiesHaveNoEol(d)
  {
    var d := Parse(text);
    ParseRenders(text);
    ParsedNoEol(d);
    LastTrimSweep(false, d);
    LastTrimRenders(Sweep(false, d));
    StrippedRenders(d);
    LastTrimNoEol(d);
  }

  /** TrimTrailingSpaces strips every line exactly when no skipped line ends with blanks. */
  lemma StripsExactlyWhenNoneMissed(text: string)
    ensures Trimmed(text) == Strip(text) <==> !Missed(text)
    ensures |Strip(text)| <= |Trimmed(text)|
    ensures Strip(Trimmed(text)) == Strip(text)
  {
    TrimmedIsSweep(text);
    var d := Retrimmed(Parse(text));
    SweepAgainstStripped(false, d);
    SweepNoEol(false, d);
    StrippedSweep(false, d);
    StrippedRenders(Sweep(false, d));
  }

  // ---------------------------------------------------------------- doing it twice

  /** A vanishing line loses at least one character: right after a lone CR a line ended by LF is not empty. */
  lemma {:induction false} SweepShrinks(afterCr: bool, d: Doc)
    requires WellFormed(d) && (afterCr ==> !Fuses(Cr, d))
    ensures |Render(Sweep(afterCr, d))| <= |Render(d)|
    ensures |Render(Sweep(afterCr, d))| == |Render(d)| ==> !SomeVanish(afterCr, d) && Sweep(afterCr, d) == d
    decreases d
  {
    RTrimIsPrefix(d.body);
    if d.More? {
      if !Vanishes(afterCr, d) {
        SweepShrinks(d.eol.Cr?, d.rest);
      } else if d.rest.More? {
        SweepShrinks(d.rest.eol.Cr?, d.rest.rest);
      }
    }
  }

  lemma {:induction false} NoneVanish(afterCr: bool, d: Doc)
    ensures Fusions(afterCr, d) == 0 <==> !SomeVanish(afterCr, d)
    ensures !SomeVanish(afterCr, d) ==> !Misses(afterCr, d)
    decreases d
  {
    if d.More? {
      NoneVanish(d.eol.Cr?, d.rest);
    }
  }

  /** What TrimTrailingSpaces leaves alone has no trailing blanks at all. */
  lemma UnchangedIsStripped(text: string)
    requires Trimmed(text) == text
    ensures Strip(text) == text
  {
    var d := Parse(text);
    ParseRenders(text);
    SweepShrinks(false, d);
    NoneVanish(false, d);
    RTrimIsPrefix(Render(Sweep(false, d)));
    StripsExactlyWhenNoneMissed(text);
  }

  lemma {:induction false} StrippedVanishNone(afterCr: bool, d: Doc)
    requires WellFormed(d) && |Render(Stripped(d))| == |Render(d)| && (afterCr ==> !Fuses(Cr, d))
    ensures !SomeVanish(afterCr, d)
    decreases d
  {
    RTrimIsPrefix(d.body);
    StrippedShorter(d);
    if d.More? {
      StrippedShorter(d.rest);
      StrippedVanishNone(d.eol.Cr?, d.rest);
    }
  }

  lemma {:induction false} StrippedShorter(d: Doc)
    ensures |Render(Stripped(d))| <= |Render(d)|
  {
    RTrimIsPrefix(d.body);
    if d.More? {
      StrippedShorter(d.rest);
    }
  }

  /** A text without trailing blanks is left alone. */
  lemma StrippedIsUnchanged(text: string)
    requires Strip(text) == text
    ensures Trimmed(text) == text
  {
    var d := Parse(text);
    ParseRenders(text);
    ParsedNoEol(d);
    StrippedRenders(d);
    StrippedVanishNone(false, d);
    NoneVanish(false, d);
    StripsExactlyWhenNoneMissed(text);
  }

  /** Trimming twice is trimming once exactly when the first time missed no line. */
  lemma TrimTwice(text: string)
    ensures Trimmed(Trimmed(text)) == Trimmed(text) <==> !Missed(text)
  {
    StripsExactlyWhenNoneMissed(text);
    var once := Trimmed(text);
    if Trimmed(once) == once {
      UnchangedIsStripped(once);
    }
    if !Missed(text) {
      StrippedIsUnchanged(once);
    }
  }

  // ---------------------------------------------------------------- lines and line ends

  /** The rounds from line n on: the lines the editor sees when they are over. */
  lemma {:induction false} LinesAfter(d: Doc, n: nat) returns (after: Doc)
    requires WellFormed(d) && n <= Count(d)
    ensures WellFormed(after) && Render(after) == Render(SweepFrom(false, d, n))
    ensures Count(after) + FusionsFrom(false, d, n) == Count(d)
    decreases Count(d) - n
  {
    if n == Count(d) {
      NothingLeft(false, d, n);
      after := d;
    } else if VanishesAt(false, d, n) {
      VanishesNotFirst(false, d, n);
      FusingRound(false, d, n);
      FuseWellFormed(false, d, n);
      after := LinesAfter(Fuse(TrimAt(d, n), n), n + 1);
    } else {
      TrimAtWellFormed(false, d, n);
      TrimAtCount(d, n);
      PlainRound(false, d, n);
      after := LinesAfter(TrimAt(d, n), n + 1);
    }
  }

  lemma {:induction false} TrimAtCount(d: Doc, n: nat)
    requires n < Count(d)
    ensures Count(TrimAt(d, n)) == Count(d)
    decreases n
  {
    if n > 0 {
      TrimAtCount(d.rest, n - 1);
    }
  }

  lemma {:induction false} LastTrimWellFormed(d: Doc)
    requires WellFormed(d)
    ensures WellFormed(LastTrim(d)) && Count(LastTrim(d)) == Count(d)
    ensures Fuses(Cr, LastTrim(d)) == Fuses(Cr, d)
  {
    if d.Last? {
      RTrimNoEol(d.body);
    } else {
      LastTrimWellFormed(d.rest);
    }
  }

  /** The number of lines drops by one for each line that vanishes, and stays exactly when none does. */
  lemma LineCount(text: string)
    ensures GetLineCount(Trimmed(text)) == GetLineCount(text) - Fusions(false, Parse(text))
    ensures GetLineCount(Trimmed(text)) == GetLineCount(text) <==> !SomeVanish(false, Parse(text))
  {
    var d := Parse(text);
    ParseRenders(text);
    var after := LinesAfter(d, 0);
    RenderParses(after);
    LastTrimRenders(after);
    LastTrimWellFormed(after);
    RenderParses(LastTrim(after));
    NoneVanish(false, d);
  }

  lemma {:induction false} StrippedWellFormed(afterCr: bool, d: Doc)
    requires WellFormed(d) && !SomeVanish(afterCr, d)
    ensures WellFormed(Stripped(d))
    ensures afterCr ==> !Fuses(Cr, Stripped(d))
    decreases d
  {
    RTrimNoEol(d.body);
    if d.More? {
      StrippedWellFormed(d.eol.Cr?, d.rest);
    }
  }

  /** When none vanishes, the text still has the same lines with the same ends, each one stripped. */
  lemma LinesAndEndsStay(text: string)
    requires !SomeVanish(false, Parse(text))
    ensures Parse(Trimmed(text)) == Stripped(Parse(text)) && Trimmed(text) == Strip(text)
  {
    var d := Parse(text);
    ParseRenders(text);
    NoneVanish(false, d);
    StripsExactlyWhenNoneMissed(text);
    ParsedNoEol(d);
    StrippedRenders(d);
    StrippedWellFormed(false, d);
    RenderParses(Stripped(d));
  }

  const SKIPPING := More("a", Cr, More("  ", Lf, More("b  ", Lf, Last(""))))

  lemma BlanksGo()
    ensures RTrim("") == "" && RTrim("  ") == "" && RTrim("a") == "a"
  {
    assert "  "[..1] == " " && " "[..0] == "";
  }

  lemma SkippingSweep()
    ensures Sweep(false, SKIPPING) == More("a", Cr, More("", Lf, More("b  ", Lf, Last(""))))
    ensures Fusions(false, SKIPPING) == 1
  {
    BlanksGo();
    var tail := More("b  ", Lf, Last(""));
    assert Vanishes(true, More("  ", Lf, tail));
    assert Sweep(true, More("  ", Lf, tail)) == More("", Lf, More("b  ", Lf, Sweep(false, Last(""))));
    assert Fusions(true, More("  ", Lf, tail)) == 1 + Fusions(false, Last(""));
  }

  lemma SkippingText()
    ensures Parse("a\r  \nb  \n") == SKIPPING
  {
    var tail := More("b  ", Lf, Last(""));
    assert Render(tail) == "b  \n";
    assert Render(More("  ", Lf, tail)) == "  \nb  \n";
    assert Render(SKIPPING) == "a\r  \nb  \n";
    RenderParses(SKIPPING);
  }

  lemma SkippedText()
    ensures Render(More("a", Cr, More("", Lf, More("b  ", Lf, Last(""))))) == "a\r\nb  \n"
  {
    var tail := More("b  ", Lf, Last(""));
    assert Render(tail) == "b  \n";
    assert Render(More("", Lf, tail)) == "\nb  \n";
  }

  lemma TrimmedOf(text: string, d: Doc, swept: Doc)
    requires Parse(text) == d && Sweep(false, d) == swept && Fusions(false, d) < 2
    ensures Trimmed(text) == Render(swept)
  {
  }

  /**
    The header promises that trailing space goes from all lines; here the second line disappears
    into a CR LF, and the line after it keeps its blanks until the next save.
   */
  lemma KeepsBlanksOfSkippedLine()
    ensures Trimmed("a\r  \nb  \n") == "a\r\nb  \n"
  {
    SkippingText();
    SkippingSweep();
    SkippedText();
    TrimmedOf("a\r  \nb  \n", SKIPPING, More("a", Cr, More("", Lf, More("b  ", Lf, Last("")))));
  }
}
