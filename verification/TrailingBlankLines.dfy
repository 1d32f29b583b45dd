/**
  RemoveTrailingBlankLines: what its backward scan decides, and how it combines with
  TrimTrailingSpaces when a file is saved.
 */
module TrailingBlankLines {
  import opened TextLines
  import opened TrimSpaces
  import opened StripSpaces

  /** The isspace of the C locale. */
  predicate IsSpace(ch: char) {
    ch == ' ' || ch == '\t' || ch == '\n' || ch == '\r' || ch == '\U{0B}' || ch == '\U{0C}'
  }

  function RTrimSpace(s: string): (r: string)
    ensures |r| <= |s|
  {
    if s != "" && IsSpace(s[|s| - 1]) then RTrimSpace(s[..|s| - 1]) else s
  }

  predicate EndsPhp(t: string) {
    |t| >= 3 && t[|t| - 2] == '?' && t[|t| - 1] == '>'
  }

  /** White space after a closing PHP tag goes; any other text stays as it is. */
  function Cut(text: string): string {
    var t := RTrimSpace(text);
    if EndsPhp(t) then t else text
  }

  lemma {:induction false} RTrimSpaceIs(s: string, n: nat)
    requires n <= |s| && (forall k :: n <= k < |s| ==> IsSpace(s[k])) && (n == 0 || !IsSpace(s[n - 1]))
    ensures RTrimSpace(s) == s[..n]
  {
    if n < |s| {
      RTrimSpaceIs(s[..|s| - 1], n);
      assert s[..|s| - 1][..n] == s[..n];
    } else {
      assert s[..n] == s;
    }
  }

  lemma {:induction false} RTrimSpaceEnd(s: string)
    ensures var n := |RTrimSpace(s)|;
      RTrimSpace(s) == s[..n] && (forall k :: n <= k < |s| ==> IsSpace(s[k])) && (n == 0 || !IsSpace(s[n - 1]))
  {
    if s != "" && IsSpace(s[|s| - 1]) {
      var t := s[..|s| - 1];
      RTrimSpaceEnd(t);
      assert t[..|RTrimSpace(t)|] == s[..|RTrimSpace(t)|];
      forall k | |RTrimSpace(t)| <= k < |s| ensures IsSpace(s[k]) {
        assert k < |t| ==> s[k] == t[k];
      }
    }
  }

  lemma {:induction false} RTrimSpaceTwice(s: string)
    ensures RTrimSpace(RTrimSpace(s)) == RTrimSpace(s)
  {
    if s != "" && IsSpace(s[|s| - 1]) {
      RTrimSpaceTwice(s[..|s| - 1]);
    }
  }

  lemma CutTwice(text: string)
    ensures Cut(Cut(text)) == Cut(text)
  {
    RTrimSpaceTwice(text);
  }

  // ---------------------------------------------------------------- cutting and trimming commute

  predicate AllSpace(s: string) {
    forall k :: 0 <= k < |s| ==> IsSpace(s[k])
  }

  lemma {:induction false} RTrimSpaceTail(h: string, t: string)
    requires !AllSpace(t)
    ensures RTrimSpace(h + t) == h + RTrimSpace(t)
  {
    assert (h + t)[|h + t| - 1] == t[|t| - 1];
    if IsSpace(t[|t| - 1]) {
      assert (h + t)[..|h + t| - 1] == h + t[..|t| - 1];
      RTrimSpaceTail(h, t[..|t| - 1]);
    }
  }

  lemma {:induction false} RTrimSpaceHead(h: string, t: string)
    requires AllSpace(t)
    ensures RTrimSpace(h + t) == RTrimSpace(h)
  {
    if t == "" {
      assert h + t == h;
    } else {
      assert (h + t)[|h + t| - 1] == t[|t| - 1];
      assert (h + t)[..|h + t| - 1] == h + t[..|t| - 1];
      RTrimSpaceHead(h, t[..|t| - 1]);
    }
  }

  /** Blanks are white space. */
  lemma {:induction false} RTrimThenSpace(s: string)
    ensures RTrimSpace(RTrim(s)) == RTrimSpace(s) && RTrim(RTrimSpace(s)) == RTrimSpace(s)
  {
    if s != "" && IsSpace(s[|s| - 1]) {
      RTrimThenSpace(s[..|s| - 1]);
    }
  }

  lemma {:induction false} RTrimAllSpace(s: string)
    ensures AllSpace(RTrim(s)) <==> AllSpace(s)
  {
    if s != "" && IsBlank(s[|s| - 1]) {
      var t := s[..|s| - 1];
      RTrimAllSpace(t);
      assert s == t + [s[|s| - 1]];
      AllSpaceJoin(t, [s[|s| - 1]]);
    }
  }

  lemma AllSpaceJoin(h: string, t: string)
    ensures AllSpace(h + t) <==> AllSpace(h) && AllSpace(t)
  {
    if AllSpace(h + t) {
      assert forall k :: 0 <= k < |h| ==> h[k] == (h + t)[k];
      assert forall k :: 0 <= k < |t| ==> t[k] == (h + t)[|h| + k];
    }
  }

  /** Nothing but white space on any line. */
  predicate SpaceOnly(d: Doc) {
    AllSpace(d.body) && (d.More? ==> SpaceOnly(d.rest))
  }

  lemma {:induction false} SpaceOnlyRenders(d: Doc)
    ensures AllSpace(Render(d)) <==> SpaceOnly(d)
  {
    if d.More? {
      AllSpaceJoin(d.body, EolText(d.eol) + Render(d.rest));
      AllSpaceJoin(EolText(d.eol), Render(d.rest));
      SpaceOnlyRenders(d.rest);
    }
  }

  /** The lines without the white space at the end of the text. */
  function CutDoc(d: Doc): Doc {
    if d.Last? || SpaceOnly(d.rest) then Last(RTrimSpace(d.body)) else d.(rest := CutDoc(d.rest))
  }

  lemma {:induction false} CutDocRenders(d: Doc)
    requires !SpaceOnly(d)
    ensures Render(CutDoc(d)) == RTrimSpace(Render(d))
  {
    if d.More? {
      var h := d.body + EolText(d.eol);
      assert Render(d) == h + Render(d.rest) == d.body + (EolText(d.eol) + Render(d.rest));
      SpaceOnlyRenders(d.rest);
      if SpaceOnly(d.rest) {
        AllSpaceJoin(EolText(d.eol), Render(d.rest));
        RTrimSpaceHead(d.body, EolText(d.eol) + Render(d.rest));
      } else {
        RTrimSpaceTail(h, Render(d.rest));
        CutDocRenders(d.rest);
      }
    }
  }

  lemma {:induction false} CutDocWellFormed(d: Doc)
    requires WellFormed(d) && !SpaceOnly(d)
    ensures WellFormed(CutDoc(d)) && (Fuses(Cr, CutDoc(d)) ==> Fuses(Cr, d))
  {
    RTrimSpaceEnd(d.body);
    if d.More? && !SpaceOnly(d.rest) {
      CutDocWellFormed(d.rest);
    }
  }

  lemma {:induction false} SweepSpaceOnly(afterCr: bool, d: Doc)
    ensures SpaceOnly(Sweep(afterCr, d)) <==> SpaceOnly(d)
    decreases d
  {
    RTrimAllSpace(d.body);
    if d.More? {
      if !Vanishes(afterCr, d) {
        SweepSpaceOnly(d.eol.Cr?, d.rest);
      } else if d.rest.More? {
        SweepSpaceOnly(d.rest.eol.Cr?, d.rest.rest);
      }
    }
  }

  /** A line with something on it does not vanish, before or after the cut. */
  lemma SomethingStays(afterCr: bool, d: Doc)
    requires !AllSpace(d.body)
    ensures !Vanishes(afterCr, d)
  {
    RTrimAllSpace(d.body);
  }

  lemma {:induction false} CutSweep(afterCr: bool, d: Doc)
    requires !SpaceOnly(d)
    ensures CutDoc(Sweep(afterCr, d)) == Sweep(afterCr, CutDoc(d))
    decreases d
  {
    RTrimThenSpace(d.body);
    if d.More? {
      if SpaceOnly(d.rest) {
        SomethingStays(afterCr, d);
        SweepSpaceOnly(d.eol.Cr?, d.rest);
      } else if !Vanishes(afterCr, d) {
        SweepSpaceOnly(d.eol.Cr?, d.rest);
        CutSweep(d.eol.Cr?, d.rest);
      } else {
        CutSweepSkipped(d.rest);
        if d.rest.More? && !SpaceOnly(d.rest.rest) {
          CutSweep(d.rest.eol.Cr?, d.rest.rest);
        }
      }
    }
  }

  /** What the loop makes of the lines after one that vanishes: the first of them is skipped. */
  function SweepSkipping(d: Doc): Doc {
    if d.Last? then d else d.(rest := Sweep(d.eol.Cr?, d.rest))
  }

  lemma CutSweepSkipped(d: Doc)
    ensures SpaceOnly(SweepSkipping(d)) <==> SpaceOnly(d)
    ensures d.More? ==> (SpaceOnly(Sweep(d.eol.Cr?, d.rest)) <==> SpaceOnly(d.rest))
    ensures RTrim(RTrimSpace(d.body)) == RTrimSpace(d.body)
  {
    RTrimThenSpace(d.body);
    if d.More? {
      SweepSpaceOnly(d.eol.Cr?, d.rest);
    }
  }

  lemma SpaceAfterCut(d: Doc)
    requires !SpaceOnly(d)
    ensures RTrimSpace(Render(Sweep(false, d))) == Render(Sweep(false, CutDoc(d)))
  {
    SweepSpaceOnly(false, d);
    CutDocRenders(Sweep(false, d));
    CutSweep(false, d);
  }

  /** The end of the text decides nothing about trimming what is before it. */
  lemma SpaceAfterTrim(text: string)
    requires !AllSpace(text)
    ensures RTrimSpace(Trimmed(text)) == Trimmed(RTrimSpace(text))
  {
    var d := Parse(text);
    ParseRenders(text);
    SpaceOnlyRenders(d);
    CutDocRenders(d);
    CutDocWellFormed(d);
    RenderParses(CutDoc(d));
    SpaceAfterCut(d);
    RTrimThenSpace(Render(Sweep(false, d)));
    RTrimThenSpace(Render(d));
    RTrimThenSpace(Render(Sweep(false, CutDoc(d))));
  }

  // ---------------------------------------------------------------- the closing tag survives

  function LastBody(d: Doc): string {
    if d.Last? then d.body else LastBody(d.rest)
  }

  /** The text is b, or ends with a line end followed by b. */
  predicate EndsWith(text: string, b: string, alone: bool) {
    if alone then text == b
    else |text| > |b| && text[|text| - |b|..] == b && IsEol(text[|text| - |b| - 1])
  }

  lemma EndsWithMore(h: string, text: string, b: string, alone: bool)
    requires EndsWith(text, b, alone) && h != "" && IsEol(h[|h| - 1])
    ensures EndsWith(h + text, b, false)
  {
    assert (h + text)[|h + text| - |b|..] == text[|text| - |b|..];
  }

  lemma {:induction false} EndsWithLastBody(d: Doc, text: string)
    requires text == Render(d)
    ensures EndsWith(text, LastBody(d), d.Last?)
  {
    if d.More? {
      EndsWithLastBody(d.rest, Render(d.rest));
      var h := d.body + EolText(d.eol);
      assert text == h + Render(d.rest);
      EndsWithMore(h, Render(d.rest), LastBody(d.rest), d.rest.Last?);
    }
  }

  lemma LastAfterEol(text: string, b: string)
    requires EndsWith(text, b, false)
    ensures |b| >= 1 ==> text[|text| - 1] == b[|b| - 1]
    ensures |b| >= 2 ==> text[|text| - 2] == b[|b| - 2]
    ensures |b| == 1 ==> IsEol(text[|text| - 2])
    ensures |b| == 0 ==> IsEol(text[|text| - 1])
  {
  }

  lemma EndsPhpAfterEol(text: string, b: string)
    requires EndsWith(text, b, false)
    ensures EndsPhp(text) <==> (|b| >= 2 && b[|b| - 2] == '?' && b[|b| - 1] == '>')
  {
    LastAfterEol(text, b);
  }

  lemma EndsPhpByLastBody(d: Doc)
    ensures var b := LastBody(d);
      EndsPhp(Render(d)) <==> (|b| >= 2 && b[|b| - 2] == '?' && b[|b| - 1] == '>' && (d.More? || |b| >= 3))
  {
    EndsWithLastBody(d, Render(d));
    if d.More? {
      EndsPhpAfterEol(Render(d), LastBody(d));
    }
  }

  lemma {:induction false} SweepKeepsLastBody(afterCr: bool, d: Doc)
    requires RTrim(LastBody(d)) == LastBody(d)
    ensures LastBody(Sweep(afterCr, d)) == LastBody(d) && Sweep(afterCr, d).Last? == d.Last?
    decreases d
  {
    if d.More? {
      if !Vanishes(afterCr, d) {
        SweepKeepsLastBody(d.eol.Cr?, d.rest);
      } else if d.rest.More? {
        SweepKeepsLastBody(d.rest.eol.Cr?, d.rest.rest);
      }
    }
  }

  lemma {:induction false} LastBodyTrimmed(d: Doc)
    requires !SpaceOnly(d)
    ensures RTrim(LastBody(CutDoc(d))) == LastBody(CutDoc(d))
  {
    RTrimThenSpace(d.body);
    if d.More? && !SpaceOnly(d.rest) {
      LastBodyTrimmed(d.rest);
    }
  }

  lemma TagInSweep(d: Doc)
    requires !SpaceOnly(d)
    ensures EndsPhp(Render(Sweep(false, CutDoc(d)))) <==> EndsPhp(Render(CutDoc(d)))
  {
    LastBodyTrimmed(d);
    SweepKeepsLastBody(false, CutDoc(d));
    EndsPhpByLastBody(CutDoc(d));
    EndsPhpByLastBody(Sweep(false, CutDoc(d)));
  }

  /** Trimming neither makes nor breaks a closing tag at the end of the text. */
  lemma TagSurvives(text: string)
    requires !AllSpace(text)
    ensures EndsPhp(RTrimSpace(Trimmed(text))) <==> EndsPhp(RTrimSpace(text))
  {
    var d := Parse(text);
    ParseRenders(text);
    SpaceOnlyRenders(d);
    SpaceAfterCut(d);
    CutDocRenders(d);
    RTrimThenSpace(Render(Sweep(false, d)));
    TagInSweep(d);
  }

  lemma AllSpaceRTrim(text: string)
    requires AllSpace(text)
    ensures RTrimSpace(text) == ""
  {
    RTrimSpaceIs(text, 0);
  }

  lemma TrimmedAllSpace(text: string)
    ensures AllSpace(Trimmed(text)) <==> AllSpace(text)
  {
    var d := Parse(text);
    ParseRenders(text);
    SpaceOnlyRenders(d);
    SweepSpaceOnly(false, d);
    SpaceOnlyRenders(Sweep(false, d));
    RTrimAllSpace(Render(Sweep(false, d)));
  }

  /** The order in which the two passes of a save run does not matter. */
  lemma CutAndTrimCommute(text: string)
    ensures Cut(Trimmed(text)) == Trimmed(Cut(text))
  {
    TrimmedAllSpace(text);
    if AllSpace(text) {
      AllSpaceRTrim(text);
      AllSpaceRTrim(Trimmed(text));
    } else {
      SpaceAfterTrim(text);
      TagSurvives(text);
    }
  }

  // ---------------------------------------------------------------- saving

  /** What the two passes make of a text when both options are on. */
  function OnSave(isPhp: bool, text: string): string {
    if isPhp then Trimmed(text) else Cut(Trimmed(text))
  }

  /** Saving twice is saving once exactly when no line missed by the trim survives the cut. */
  lemma SaveTwice(isPhp: bool, text: string)
    ensures OnSave(isPhp, OnSave(isPhp, text)) == OnSave(isPhp, text)
      <==> !Missed(if isPhp then text else Cut(text))
  {
    if isPhp {
      TrimTwice(text);
    } else {
      var q := Cut(text);
      CutAndTrimCommute(text);
      CutAndTrimCommute(Trimmed(q));
      CutAndTrimCommute(q);
      CutTwice(text);
      TrimTwice(q);
    }
  }
}
