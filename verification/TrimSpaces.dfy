/**
  TrimTrailingSpaces: the loop over the lines of the buffer, and exactly what it computes.
 */
module TrimSpaces {
  import opened TextLines

  /** The string without the blanks at its end. */
  function RTrim(s: string): (r: string)
    ensures |r| <= |s|
  {
    if s != "" && IsBlank(s[|s| - 1]) then RTrim(s[..|s| - 1]) else s
  }

  /**
    What the loop makes of the lines from the current one on; `afterCr` tells whether the line
    before ends with a lone CR. A blank line ended by LF directly after a CR vanishes into a
    CR LF, and the loop, whose line number goes on by one, skips the line after it.
   */
  function Sweep(afterCr: bool, d: Doc): Doc
    decreases d
  {
    if d.Last? then Last(RTrim(d.body))
    else if !Vanishes(afterCr, d) then More(RTrim(d.body), d.eol, Sweep(d.eol.Cr?, d.rest))
    else if d.rest.Last? then More("", Lf, d.rest)
    else More("", Lf, More(d.rest.body, d.rest.eol, Sweep(d.rest.eol.Cr?, d.rest.rest)))
  }

  predicate Vanishes(afterCr: bool, d: Doc) {
    afterCr && RTrim(d.body) == "" && d.More? && d.eol.Lf?
  }

  /** How many lines vanish. */
  function Fusions(afterCr: bool, d: Doc): nat
    decreases d
  {
    if d.Last? then 0
    else if !Vanishes(afterCr, d) then Fusions(d.eol.Cr?, d.rest)
    else if d.rest.Last? then 1
    else 1 + Fusions(d.rest.eol.Cr?, d.rest.rest)
  }

  /** The whole effect of TrimTrailingSpaces on any text. */
  function Trimmed(text: string): string {
    var r := Render(Sweep(false, Parse(text)));
    if Fusions(false, Parse(text)) >= 2 then RTrim(r) else r
  }

  // ---------------------------------------------------------------- one round of the loop

  /** Line n without its trailing blanks. */
  function TrimAt(d: Doc, n: nat): Doc
    requires n < Count(d)
    decreases n
  {
    if n == 0 then d.(body := RTrim(d.body)) else d.(rest := TrimAt(d.rest, n - 1))
  }

  predicate VanishesAt(afterCr: bool, d: Doc, n: nat)
    requires n < Count(d)
    decreases n
  {
    if n == 0 then Vanishes(afterCr, d) else VanishesAt(d.eol.Cr?, d.rest, n - 1)
  }

  /** Line n, empty and ended by LF, joined with the CR of the line before. */
  function Fuse(d: Doc, n: nat): Doc
    requires 1 <= n < Count(d) - 1
    decreases n
  {
    if n == 1 then assert Count(d.rest) >= 2; More(d.body, CrLf, d.rest.rest) else d.(rest := Fuse(d.rest, n - 1))
  }

  /** What is left to do when the loop is about to look at line n. */
  function SweepFrom(afterCr: bool, d: Doc, n: nat): Doc
    decreases n
  {
    if n == 0 then Sweep(afterCr, d)
    else if d.Last? then d
    else d.(rest := SweepFrom(d.eol.Cr?, d.rest, n - 1))
  }

  function FusionsFrom(afterCr: bool, d: Doc, n: nat): nat
    decreases n
  {
    if n == 0 then Fusions(afterCr, d)
    else if d.Last? then 0
    else FusionsFrom(d.eol.Cr?, d.rest, n - 1)
  }

  /** `after` is `before` without the characters from a up to z. */
  predicate Cuts(before: string, after: string, a: int, z: int) {
    0 <= a <= z <= |before| && after == before[..a] + before[z..]
  }

  lemma TrimFirstText(d: Doc)
    ensures Cuts(Render(d), Render(TrimAt(d, 0)), |RTrim(d.body)|, |d.body|)
  {
    var after := if d.Last? then "" else EolText(d.eol) + Render(d.rest);
    assert Render(d) == d.body + after && Render(TrimAt(d, 0)) == RTrim(d.body) + after;
    RTrimIsPrefix(d.body);
  }

  lemma HeadedText(d: Doc, rest: Doc, a: int, z: int)
    requires d.More? && Cuts(Render(d.rest), Render(rest), a, z)
    ensures var h := |d.body| + |EolText(d.eol)|; Cuts(Render(d), Render(d.(rest := rest)), h + a, h + z)
  {
    var h := d.body + EolText(d.eol);
    CutShift(h, Render(d.rest), a, z);
    assert Render(d) == h + Render(d.rest);
    assert Render(d.(rest := rest)) == h + Render(rest);
  }

  /** Trimming a line cuts its trailing blanks out of the text and nothing else. */
  lemma {:induction false} TrimAtText(d: Doc, n: nat, t: Doc, s: nat, b: string)
    requires n < Count(d) && t == TrimAt(d, n) && s == Start(d, n) && b == Body(d, n)
    ensures Cuts(Render(d), Render(t), s + |RTrim(b)|, s + |b|)
    decreases n
  {
    if n == 0 {
      TrimFirstText(d);
    } else {
      var rest := TrimAt(d.rest, n - 1);
      var start := Start(d.rest, n - 1);
      TrimAtText(d.rest, n - 1, rest, start, b);
      HeadedText(d, rest, start + |RTrim(b)|, start + |b|);
      assert t == d.(rest := rest);
    }
  }

  lemma {:induction false} RTrimIsPrefix(s: string)
    ensures RTrim(s) == s[..|RTrim(s)|]
  {
    if s != "" && IsBlank(s[|s| - 1]) {
      RTrimIsPrefix(s[..|s| - 1]);
    }
  }

  lemma CutShift(h: string, t: string, a: nat, b: nat)
    requires a <= b <= |t|
    ensures (h + t)[..|h| + a] + (h + t)[|h| + b..] == h + (t[..a] + t[b..])
  {
  }

  lemma RTrimNoEol(s: string)
    requires NoEol(s)
    ensures NoEol(RTrim(s))
  {
    RTrimIsPrefix(s);
  }

  lemma {:induction false} VanishesNotFirst(afterCr: bool, d: Doc, n: nat)
    requires n < Count(d) && VanishesAt(afterCr, d, n)
    ensures n < Count(d) - 1
    ensures !afterCr ==> n >= 1
    decreases n
  {
    if n > 0 {
      VanishesNotFirst(d.eol.Cr?, d.rest, n - 1);
    }
  }

  /** The first line starts a new CR LF only by vanishing. */
  lemma TrimAtKeepsHead(d: Doc, n: nat)
    requires n < Count(d) && !VanishesAt(true, d, n) && !Fuses(Cr, d)
    ensures !Fuses(Cr, TrimAt(d, n))
  {
  }

  lemma {:induction false} TrimAtWellFormed(afterCr: bool, d: Doc, n: nat)
    requires n < Count(d) && WellFormed(d) && !VanishesAt(afterCr, d, n)
    ensures WellFormed(TrimAt(d, n))
    decreases n
  {
    if n == 0 {
      RTrimNoEol(d.body);
    } else {
      TrimAtWellFormed(d.eol.Cr?, d.rest, n - 1);
      if d.eol.Cr? {
        TrimAtKeepsHead(d.rest, n - 1);
      }
    }
  }

  /** A round that lets no line vanish. */
  lemma {:induction false} PlainRound(afterCr: bool, d: Doc, n: nat)
    requires n < Count(d) && !VanishesAt(afterCr, d, n)
    ensures SweepFrom(afterCr, TrimAt(d, n), n + 1) == SweepFrom(afterCr, d, n)
    ensures FusionsFrom(afterCr, TrimAt(d, n), n + 1) == FusionsFrom(afterCr, d, n)
    decreases n
  {
    if n > 0 {
      PlainRound(d.eol.Cr?, d.rest, n - 1);
    }
  }

  lemma FuseFirst(body: string, tail: Doc)
    ensures Render(More(body, Cr, More("", Lf, tail))) == Render(More(body, CrLf, tail))
  {
    assert EolText(Cr) + ("" + (EolText(Lf) + Render(tail))) == EolText(CrLf) + Render(tail);
  }

  /** A round that lets line n vanish: the editor now sees one line less. */
  lemma {:induction false} FusingRound(afterCr: bool, d: Doc, n: nat)
    requires 1 <= n < Count(d) - 1 && VanishesAt(afterCr, d, n)
    ensures n < Count(TrimAt(d, n)) - 1
    ensures var f := Fuse(TrimAt(d, n), n);
      && Count(f) == Count(d) - 1
      && Render(f) == Render(TrimAt(d, n))
      && Render(SweepFrom(afterCr, f, n + 1)) == Render(SweepFrom(afterCr, d, n))
      && FusionsFrom(afterCr, f, n + 1) + 1 == FusionsFrom(afterCr, d, n)
    decreases n
  {
    if n == 1 {
      var tail := d.rest.rest;
      FuseFirst(d.body, tail);
      FuseFirst(d.body, SweepFrom(false, tail, 1));
    } else {
      FusingRound(d.eol.Cr?, d.rest, n - 1);
    }
  }

  lemma {:induction false} FuseWellFormed(afterCr: bool, d: Doc, n: nat)
    requires 1 <= n < Count(d) - 1 && VanishesAt(afterCr, d, n) && WellFormed(d) && n < Count(TrimAt(d, n)) - 1
    ensures WellFormed(Fuse(TrimAt(d, n), n))
    ensures Fuse(TrimAt(d, n), n).body == d.body && (Fuses(Cr, Fuse(TrimAt(d, n), n)) ==> Fuses(Cr, d))
    decreases n
  {
    if n > 1 {
      FuseWellFormed(d.eol.Cr?, d.rest, n - 1);
    }
  }

  lemma {:induction false} NothingLeft(afterCr: bool, d: Doc, n: nat)
    requires n >= Count(d)
    ensures SweepFrom(afterCr, d, n) == d && FusionsFrom(afterCr, d, n) == 0
    decreases n
  {
    if d.More? {
      NothingLeft(d.eol.Cr?, d.rest, n - 1);
    }
  }
}
