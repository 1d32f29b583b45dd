/**
  What the two save passes leave, said of the characters of the text alone: no lines, no helper of the
  passes themselves.
 */
module TrimResult {
  import opened TextLines
  import opened TrimSpaces
  import opened StripSpaces
  import opened TrailingBlankLines

  /** No space and no tab stands directly before a line end or the end of the text. */
  predicate NoneTrailing(text: string) {
    forall k :: 0 <= k < |text| && (text[k] == ' ' || text[k] == '\t') ==>
      k + 1 < |text| && text[k + 1] != '\r' && text[k + 1] != '\n'
  }

  /** The text begins with a space or a tab, and only such come before the next line end or the end. */
  predicate TrailingFirst(text: string)
  {
    && text != ""
    && (text[0] == ' ' || text[0] == '\t')
    && (|text| == 1 || text[1] == '\r' || text[1] == '\n' || TrailingFirst(text[1..]))
  }

  /** `after` is `before` with nothing taken away but spaces and tabs that trail a line. */
  predicate Thinned(before: string, after: string) {
    if before == "" then after == ""
    else
      || (after != "" && after[0] == before[0] && Thinned(before[1..], after[1..]))
      || (TrailingFirst(before) && Thinned(before[1..], after))
  }

  // ---------------------------------------------------------------- nothing else goes

  lemma {:induction false} ThinnedHead(h: string, t: string, t': string)
    requires Thinned(t, t')
    ensures Thinned(h + t, h + t')
  {
    if h == "" {
      assert h + t == t && h + t' == t';
    } else {
      ThinnedHead(h[1..], t, t');
      assert (h + t)[1..] == h[1..] + t && (h + t')[1..] == h[1..] + t';
    }
  }

  /** Blanks at the end of a line go. */
  lemma {:induction false} ThinnedBlanks(b: string, t: string, t': string)
    requires (forall k :: 0 <= k < |b| ==> b[k] == ' ' || b[k] == '\t')
    requires t == "" || t[0] == '\r' || t[0] == '\n'
    requires Thinned(t, t')
    ensures Thinned(b + t, t')
    ensures b != "" ==> TrailingFirst(b + t)
  {
    if b == "" {
      assert b + t == t;
    } else {
      ThinnedBlanks(b[1..], t, t');
      assert (b + t)[1..] == b[1..] + t;
    }
  }

  lemma {:induction false} RTrimBlanks(s: string)
    ensures |RTrim(s)| <= |s|
    ensures forall k :: |RTrim(s)| <= k < |s| ==> s[k] == ' ' || s[k] == '\t'
  {
    if s != "" && IsBlank(s[|s| - 1]) {
      RTrimBlanks(s[..|s| - 1]);
    }
  }

  lemma ThinnedBody(b: string, b': string, t: string, t': string)
    requires b' == b || b' == RTrim(b)
    requires t == "" || t[0] == '\r' || t[0] == '\n'
    requires Thinned(t, t')
    ensures Thinned(b + t, b' + t')
  {
    if b' == b {
      ThinnedHead(b, t, t');
    } else {
      RTrimIsPrefix(b);
      RTrimBlanks(b);
      var blanks := b[|b'|..];
      ThinnedBlanks(blanks, t, t');
      ThinnedHead(b', blanks + t, t');
      assert b + t == b' + (blanks + t);
    }
  }

  /** The same line ends, and every line either as it was or without its trailing blanks. */
  predicate EachTrimmed(d: Doc, e: Doc) {
    && (e.body == d.body || e.body == RTrim(d.body))
    && d.Last? == e.Last?
    && (d.More? ==> d.eol == e.eol && EachTrimmed(d.rest, e.rest))
  }

  lemma {:induction false} EachThinned(d: Doc, e: Doc)
    requires EachTrimmed(d, e)
    ensures Thinned(Render(d), Render(e))
  {
    if d.Last? {
      ThinnedBody(d.body, e.body, "", "");
      assert d.body + "" == d.body && e.body + "" == e.body;
    } else {
      EachThinned(d.rest, e.rest);
      ThinnedHead(EolText(d.eol), Render(d.rest), Render(e.rest));
      EolIs(d.eol);
      ThinnedBody(d.body, e.body, EolText(d.eol) + Render(d.rest), EolText(d.eol) + Render(e.rest));
    }
  }

  lemma EolIs(e: Eol)
    ensures EolText(e) == match e { case CrLf => ['\r', '\n'] case Cr => ['\r'] case Lf => ['\n'] }
  {
  }

  lemma {:induction false} EachTrimmedSame(d: Doc)
    ensures EachTrimmed(d, d)
  {
    if d.More? {
      EachTrimmedSame(d.rest);
    }
  }

  lemma {:induction false} SweepTrims(afterCr: bool, d: Doc)
    ensures EachTrimmed(d, Sweep(afterCr, d))
    decreases d
  {
    if d.More? {
      if !Vanishes(afterCr, d) {
        SweepTrims(d.eol.Cr?, d.rest);
      } else if d.rest.More? {
        SweepTrims(d.rest.eol.Cr?, d.rest.rest);
      }
    }
  }

  lemma {:induction false} LastTrims(d: Doc, e: Doc)
    requires EachTrimmed(LastTrim(d), e)
    ensures EachTrimmed(d, e)
  {
    RTrimTwice(d.body);
    if d.More? {
      LastTrims(d.rest, e.rest);
    }
  }

  lemma TrimmedThins(text: string)
    ensures Thinned(text, Trimmed(text))
  {
    var d := Parse(text);
    ParseRenders(text);
    TrimmedIsSweep(text);
    var e := Sweep(false, Retrimmed(d));
    SweepTrims(false, Retrimmed(d));
    if Fusions(false, d) >= 2 {
      LastTrims(d, e);
    }
    EachThinned(d, e);
  }

  // ---------------------------------------------------------------- enough goes

  lemma {:induction false} StripClears(text: string)
    ensures NoneTrailing(Strip(text))
  {
    if text != "" {
      var rest := Strip(text[1..]);
      StripClears(text[1..]);
      if !(IsBlank(text[0]) && (rest == "" || IsEol(rest[0]))) {
        var all := [text[0]] + rest;
        forall k | 0 <= k < |all| && (all[k] == ' ' || all[k] == '\t')
          ensures k + 1 < |all| && all[k + 1] != '\r' && all[k + 1] != '\n'
        {
          assert k > 0 ==> all[k] == rest[k - 1];
        }
      }
    }
  }

  lemma {:induction false} ClearIsStripped(text: string)
    requires NoneTrailing(text)
    ensures Strip(text) == text
  {
    if text != "" {
      assert forall k :: 0 <= k < |text[1..]| ==> text[1..][k] == text[k + 1];
      ClearIsStripped(text[1..]);
      assert text == [text[0]] + text[1..];
    }
  }

  lemma {:induction false} TrailingStrips(text: string)
    requires TrailingFirst(text)
    ensures Strip(text) == Strip(text[1..])
  {
    if |text| > 1 && text[1] != '\r' && text[1] != '\n' {
      TrailingStrips(text[1..]);
    } else if |text| > 1 {
      StripsToEol(text[1..]);
    }
    TrailingRestStripped(text);
  }

  lemma {:induction false} TrailingRestStripped(text: string)
    requires TrailingFirst(text)
    ensures Strip(text[1..]) == "" || IsEol(Strip(text[1..])[0])
  {
    if |text| > 1 {
      if text[1] == '\r' || text[1] == '\n' {
        StripsToEol(text[1..]);
      } else {
        TrailingRestStripped(text[1..]);
      }
    }
  }

  /** Taking away trailing spaces and tabs until there are none is what Strip does: the result is unique. */
  lemma {:induction false} ThinnedStrips(text: string, r: string)
    requires Thinned(text, r)
    ensures Strip(r) == Strip(text)
  {
    if text != "" {
      if r != "" && r[0] == text[0] && Thinned(text[1..], r[1..]) {
        ThinnedStrips(text[1..], r[1..]);
      } else {
        ThinnedStrips(text[1..], r);
        TrailingStrips(text);
      }
    }
  }

  /**
    TrimTrailingSpaces takes nothing away but spaces and tabs that trail a line, leaves none of them
    exactly when it misses no line, and then there is no other such text.
   */
  lemma TrimmedExactly(text: string)
    ensures Thinned(text, Trimmed(text))
    ensures NoneTrailing(Trimmed(text)) <==> !Missed(text)
    ensures forall r | Thinned(text, r) && NoneTrailing(r) :: !Missed(text) ==> r == Trimmed(text)
  {
    TrimmedThins(text);
    StripsExactlyWhenNoneMissed(text);
    StripClears(text);
    if NoneTrailing(Trimmed(text)) {
      ClearIsStripped(Trimmed(text));
    }
    forall r | Thinned(text, r) && NoneTrailing(r) ensures !Missed(text) ==> r == Trimmed(text) {
      ThinnedStrips(text, r);
      ClearIsStripped(r);
    }
  }

  // ---------------------------------------------------------------- the other pass

  /** The text has a closing tag that ends at n, something before it, and nothing but white space after it. */
  predicate TagEndsAt(text: string, n: nat) {
    && 3 <= n <= |text|
    && text[n - 2] == '?' && text[n - 1] == '>'
    && forall k :: n <= k < |text| ==> text[k] in [' ', '\t', '\n', '\U{0B}', '\U{0C}', '\r']
  }

  /** RemoveTrailingBlankLines ends the text with its closing tag, or there is no such tag and it does nothing. */
  lemma CutExactly(text: string)
    ensures forall n: nat :: TagEndsAt(text, n) ==> Cut(text) == text[..n]
    ensures (forall n: nat :: !TagEndsAt(text, n)) ==> Cut(text) == text
  {
    forall n: nat | TagEndsAt(text, n) ensures Cut(text) == text[..n] {
      RTrimSpaceIs(text, n);
    }
    RTrimSpaceEnd(text);
    if EndsPhp(RTrimSpace(text)) {
      assert TagEndsAt(text, |RTrimSpace(text)|);
    }
  }

  /** A file saved with both options on ends with its closing tag if it has one, and trails no line that was not missed. */
  lemma SavedExactly(text: string)
    ensures forall n: nat :: TagEndsAt(OnSave(false, text), n) ==> n == |OnSave(false, text)|
    ensures NoneTrailing(OnSave(false, text)) <==> !Missed(Cut(text))
    ensures NoneTrailing(OnSave(true, text)) <==> !Missed(text)
  {
    var r := OnSave(false, text);
    CutTwice(Trimmed(text));
    CutExactly(r);
    forall n: nat | TagEndsAt(r, n) ensures n == |r| {
      assert r == r[..n];
    }
    CutAndTrimCommute(text);
    TrimmedExactly(Cut(text));
    TrimmedExactly(text);
  }
}
