/**
  The passes over the editor's buffer that run before a file is saved, in the form of the source:
  positions recomputed for every line while the text shrinks, and a backward scan with flags.
 */
module CodeControl {
  import opened TextLines
  import opened TrimSpaces
  import opened StripSpaces
  import opened TrailingBlankLines

  datatype FileType = Php | Other

  // ---------------------------------------------------------------- the loop over lines

  /**
    When the loop of TrimTrailingSpaces reaches a line number: d holds the lines the editor sees
    now, `fused` of the original ones have vanished. Line numbers beyond the last line still come up
    once lines have vanished; the second of them addresses the whole text.
   */
  ghost predicate Reached(d0: Doc, d: Doc, fused: nat, line: nat, text: string) {
    && WellFormed(d)
    && Count(d) + fused == Count(d0)
    && (line <= Count(d) ==>
      && text == Render(d)
      && Render(SweepFrom(false, d, line)) == Render(Sweep(false, d0))
      && fused + FusionsFrom(false, d, line) == Fusions(false, d0))
    && (line > Count(d) ==>
      && fused == Fusions(false, d0)
      && Render(d) == Render(Sweep(false, d0))
      && text == if line >= Count(d) + 2 then RTrim(Render(d)) else Render(d))
  }

  /** The component reports that the line begins at s and holds b. */
  ghost predicate LineIs(text: string, line: nat, s: nat, b: string) {
    && PositionFromLine(text, line) == s
    && GetLineEndPosition(text, line) == s + |b| <= |text|
    && text[s..s + |b|] == b
  }

  lemma LineInside(d: Doc, line: nat)
    requires WellFormed(d) && line < Count(d)
    ensures LineIs(Render(d), line, Start(d, line), Body(d, line))
  {
    RenderParses(d);
    LinePosition(d, line);
  }

  lemma RoundInside(d0: Doc, d: Doc, fused: nat, line: nat, text: string) returns (d': Doc, fused': nat)
    requires Reached(d0, d, fused, line, text) && line < Count(d)
    ensures Reached(d0, d', fused', line + 1, Render(TrimAt(d, line)))
  {
    if VanishesAt(false, d, line) {
      VanishesNotFirst(false, d, line);
      FusingRound(false, d, line);
      FuseWellFormed(false, d, line);
      d', fused' := Fuse(TrimAt(d, line), line), fused + 1;
    } else {
      TrimAtWellFormed(false, d, line);
      TrimAtCount(d, line);
      PlainRound(false, d, line);
      d', fused' := TrimAt(d, line), fused;
    }
  }

  lemma RoundBeyond(d0: Doc, d: Doc, fused: nat, line: nat, text: string, text': string)
    requires Reached(d0, d, fused, line, text) && line >= Count(d)
    requires text' == if line == Count(d) then text else RTrim(text)
    ensures Reached(d0, d, fused, line + 1, text')
  {
    NothingLeft(false, d, Count(d));
    RTrimTwice(Render(d));
  }

  /** Beyond the last line: nothing at first, then the end of the text. */
  lemma LineBeyond(d0: Doc, d: Doc, fused: nat, line: nat, text: string)
    requires Reached(d0, d, fused, line, text) && line >= Count(d)
    ensures PositionFromLine(text, line) == if line == Count(d) then |text| else -1
    ensures GetLineEndPosition(text, line) == |text|
  {
    RenderParses(d);
    LastTrimRenders(d);
    LastTrimWellFormed(d);
    RenderParses(LastTrim(d));
  }

  lemma LineBounds(d0: Doc, d: Doc, fused: nat, line: nat, text: string)
    requires Reached(d0, d, fused, line, text)
    ensures -1 <= PositionFromLine(text, line) <= GetLineEndPosition(text, line) <= |text|
  {
    if line < Count(d) {
      LineInside(d, line);
    } else {
      LineBeyond(d0, d, fused, line, text);
    }
  }

  /** What TrimLine does between two positions. */
  ghost predicate LineTrimmed(text: string, text': string, lineStart: int, lineEnd: nat)
    requires -1 <= lineStart <= lineEnd <= |text|
  {
    var s := if lineStart < 0 then 0 else lineStart;
    Cuts(text, text', s + |RTrim(text[s..lineEnd])|, lineEnd)
  }

  lemma NothingCut(text: string, k: nat)
    requires k <= |text|
    ensures Cuts(text, text, k, k)
  {
  }

  lemma SameCut(text: string, text': string, t: string, line: nat, s: nat, b: string)
    requires LineIs(text, line, s, b)
    requires LineTrimmed(text, text', PositionFromLine(text, line), GetLineEndPosition(text, line))
    requires Cuts(text, t, s + |RTrim(b)|, s + |b|)
    ensures text' == t
  {
  }

  lemma TrimmedInside(d: Doc, line: nat, text': string)
    requires WellFormed(d) && line < Count(d) && LineIs(Render(d), line, Start(d, line), Body(d, line))
    requires LineTrimmed(Render(d), text', PositionFromLine(Render(d), line), GetLineEndPosition(Render(d), line))
    ensures text' == Render(TrimAt(d, line))
  {
    var s, b, t := Start(d, line), Body(d, line), TrimAt(d, line);
    TrimAtText(d, line, t, s, b);
    SameCut(Render(d), text', Render(t), line, s, b);
  }

  lemma TrimmedBeyond(text: string, text': string, nothing: bool)
    requires LineTrimmed(text, text', if nothing then |text| else -1, |text|)
    ensures text' == if nothing then text else RTrim(text)
  {
    assert text[0..|text|] == text;
    RTrimIsPrefix(text);
  }

  lemma Round(d0: Doc, d: Doc, fused: nat, line: nat, text: string, text': string) returns (d': Doc, fused': nat)
    requires Reached(d0, d, fused, line, text)
    requires -1 <= PositionFromLine(text, line) <= GetLineEndPosition(text, line) <= |text|
    requires LineTrimmed(text, text', PositionFromLine(text, line), GetLineEndPosition(text, line))
    ensures Reached(d0, d', fused', line + 1, text')
  {
    if line < Count(d) {
      LineInside(d, line);
      TrimmedInside(d, line, text');
      d', fused' := RoundInside(d0, d, fused, line, text);
    } else {
      LineBeyond(d0, d, fused, line, text);
      TrimmedBeyond(text, text', line == Count(d));
      RoundBeyond(d0, d, fused, line, text, text');
      d', fused' := d, fused;
    }
  }

  lemma Finished(d0: Doc, d: Doc, fused: nat, line: nat, text: string)
    requires Reached(d0, d, fused, line, text) && line == Count(d0)
    ensures var r := Render(Sweep(false, d0)); text == if Fusions(false, d0) >= 2 then RTrim(r) else r
  {
    NothingLeft(false, d, Count(d));
  }

  // ---------------------------------------------------------------- the backward scan

  /**
    The scan has looked at everything after position i, `c` and `prev` being the last two
    characters, and has only met white space, at most one '>' and at most one '?'; no closing tag
    starts after position i + 1.
   */
  ghost predicate Scanned(text: string, i: int, prev: char, c: char, seenAngleBracket: bool, seenQuestion: bool) {
    && -1 <= i < |text|
    && c == GetCharAt(text, i + 1) && prev == GetCharAt(text, i + 2)
    && (forall k :: i < k < |text| ==> IsSpace(text[k]) || text[k] == '?' || text[k] == '>')
    && (seenAngleBracket <==> Later(text, i, '>')) && AtMostOne(text, i, '>')
    && (seenQuestion <==> Later(text, i, '?')) && AtMostOne(text, i, '?')
    && NoTagAfter(text, i + 1)
  }

  ghost predicate Later(text: string, i: int, ch: char)
    requires i >= -1
  {
    exists k :: i < k < |text| && text[k] == ch
  }

  ghost predicate AtMostOne(text: string, i: int, ch: char)
    requires i >= -1
  {
    forall k, m :: i < k < m < |text| && text[k] == ch ==> text[m] != ch
  }

  ghost predicate NoTagAfter(text: string, i: int) {
    forall k :: 0 <= k && i < k < |text| - 1 ==> !(text[k] == '?' && text[k + 1] == '>')
  }

  lemma TagFound(text: string, i: int, prev: char, c: char, seenAngleBracket: bool, seenQuestion: bool)
    requires Scanned(text, i, prev, c, seenAngleBracket, seenQuestion) && i >= 0 && prev == '>' && c == '?'
    ensures i + 3 <= |text| && Cut(text) == text[..i + 3] == text[..i + 3] + text[|text|..]
  {
    RTrimSpaceIs(text, i + 3);
  }

  /** The scan stops at position i without having found a tag after it. */
  lemma TagExcluded(text: string, i: nat)
    requires i < |text| && NoTagAfter(text, i) && !IsSpace(text[i])
    requires text[i] == '?' || text[i] == '>' ==> Later(text, i, text[i])
    ensures Cut(text) == text
  {
    RTrimSpaceEnd(text);
    var n := |RTrimSpace(text)|;
    assert n > i;
    if text[i] == '?' || text[i] == '>' {
      var k :| i < k < |text| && text[k] == text[i];
      assert n > k;
    }
  }

  predicate StopsScan(ch: char, seenAngleBracket: bool, seenQuestion: bool) {
    (ch == '>' && seenAngleBracket) || (ch == '?' && seenQuestion) || (!IsSpace(ch) && ch != '?' && ch != '>')
  }

  lemma ScanOn(text: string, i: nat, prev: char, c: char, seenAngleBracket: bool, seenQuestion: bool)
    requires Scanned(text, i, prev, c, seenAngleBracket, seenQuestion) && !(prev == '>' && c == '?')
    ensures if StopsScan(text[i], seenAngleBracket, seenQuestion) then Cut(text) == text
      else Scanned(text, i - 1, c, text[i], seenAngleBracket || text[i] == '>', seenQuestion || text[i] == '?')
  {
    assert NoTagAfter(text, i);
    if StopsScan(text[i], seenAngleBracket, seenQuestion) {
      TagExcluded(text, i);
    } else {
      assert text[i] == '>' ==> Later(text, i - 1, '>');
      assert text[i] == '?' ==> Later(text, i - 1, '?');
    }
  }

  lemma NoRoomForTag(text: string)
    requires NoTagAfter(text, 0)
    ensures Cut(text) == text
  {
    RTrimSpaceEnd(text);
  }

  class CodeControlClass {
    var Text: string
    var Type: FileType
    var TrimTrailingSpaceBeforeSave: bool
    var RemoveTrailingBlankLinesBeforeSave: bool

    constructor (text: string, fileType: FileType, trim: bool, removeBlankLines: bool)
      ensures Text == text && Type == fileType
      ensures TrimTrailingSpaceBeforeSave == trim && RemoveTrailingBlankLinesBeforeSave == removeBlankLines
    {
      Text, Type, TrimTrailingSpaceBeforeSave, RemoveTrailingBlankLinesBeforeSave :=
        text, fileType, trim, removeBlankLines;
    }

    /** SetTargetStart, SetTargetEnd and ReplaceTarget with the empty string. */
    method DeleteTarget(start: nat, end: nat)
      requires start <= end <= |Text|
      modifies this`Text
      ensures Cuts(old(Text), Text, start, end)
    {
      Text := Text[..start] + Text[end..];
    }

    /** The body of the loop over lines: blanks right before `lineEnd` go, back to `lineStart`. */
    method TrimLine(lineStart: int, lineEnd: nat)
      requires -1 <= lineStart <= lineEnd <= |Text|
      modifies this`Text
      ensures LineTrimmed(old(Text), Text, lineStart, lineEnd)
    {
      ghost var s := if lineStart < 0 then 0 else lineStart;
      var i := lineEnd - 1;
      var ch := GetCharAt(Text, i);
      while i >= lineStart && (ch == ' ' || ch == '\t')
        invariant s - 1 <= i < lineEnd
        invariant ch == GetCharAt(Text, i)
        invariant RTrim(Text[s..lineEnd]) == RTrim(Text[s..i + 1])
        decreases i - lineStart
      {
        assert i >= s && Text[s..i + 1][..i - s] == Text[s..i];
        i := i - 1;
        ch := GetCharAt(Text, i);
      }
      assert i >= s ==> Text[s..i + 1][i - s] == ch;
      assert |RTrim(Text[s..lineEnd])| == i + 1 - s;
      if i < lineEnd - 1 {
        DeleteTarget(i + 1, lineEnd);
      } else {
        NothingCut(Text, lineEnd);
      }
    }

    method TrimTrailingSpaces()
      modifies this`Text
      ensures Text == Trimmed(old(Text))
    {
      ghost var text0 := Text;
      ghost var d0 := Parse(Text);
      ghost var d := d0;
      ghost var fused: nat := 0;
      ParseRenders(Text);
      var maxLines := GetLineCount(Text);
      for line := 0 to maxLines
        invariant Reached(d0, d, fused, line, Text)
      {
        var lineStart := PositionFromLine(Text, line);
        var lineEnd := GetLineEndPosition(Text, line);
        ghost var text := Text;
        LineBounds(d0, d, fused, line, text);
        TrimLine(lineStart, lineEnd);
        d, fused := Round(d0, d, fused, line, text, Text);
      }
      Finished(d0, d, fused, maxLines, Text);
    }

    method RemoveTrailingBlankLines()
      modifies this`Text
      ensures Text == if Type.Php? then old(Text) else Cut(old(Text))
    {
      if Type.Php? {
        return;
      }
      ghost var text := Text;
      var maxPos := |Text|;
      var c, prev := '\0', '\0';
      var done := false;
      var seenAngleBracket, seenQuestion := false, false;
      var i := maxPos - 1;
      while i >= 0 && !done
        invariant -1 <= i < maxPos
        invariant done ==> Text == Cut(text)
        invariant !done ==> Text == text && Scanned(text, i, prev, c, seenAngleBracket, seenQuestion)
        decreases i
      {
        if '>' == prev && '?' == c {
          TagFound(text, i, prev, c, seenAngleBracket, seenQuestion);
          DeleteTarget(i + 3, maxPos);
          done := true;
        } else {
          ScanOn(text, i, prev, c, seenAngleBracket, seenQuestion);
        }
        prev := c;
        c := GetCharAt(Text, i);
        if '>' == c && seenAngleBracket {
          done := true;
        } else if '>' == c && !seenAngleBracket {
          seenAngleBracket := true;
        }
        if '?' == c && seenQuestion {
          done := true;
        } else if '?' == c && !seenQuestion {
          seenQuestion := true;
        }
        if !IsSpace(c) && c != '?' && c != '>' {
          done := true;
        }
        i := i - 1;
      }
      if !done {
        NoRoomForTag(text);
      }
    }

    /** SaveAndTrackFile as far as the text goes: the passes that are switched on, in this order. */
    method SaveAndTrackFile() returns (written: string)
      modifies this`Text
      ensures written == Text
      ensures TrimTrailingSpaceBeforeSave && RemoveTrailingBlankLinesBeforeSave && !Type.Php?
        ==> Text == Cut(Trimmed(old(Text)))
      ensures TrimTrailingSpaceBeforeSave && (Type.Php? || !RemoveTrailingBlankLinesBeforeSave)
        ==> Text == Trimmed(old(Text))
      ensures !TrimTrailingSpaceBeforeSave && RemoveTrailingBlankLinesBeforeSave && !Type.Php?
        ==> Text == Cut(old(Text))
      ensures !TrimTrailingSpaceBeforeSave && (Type.Php? || !RemoveTrailingBlankLinesBeforeSave)
        ==> Text == old(Text)
    {
      if TrimTrailingSpaceBeforeSave {
        TrimTrailingSpaces();
      }
      if RemoveTrailingBlankLinesBeforeSave {
        RemoveTrailingBlankLines();
      }
      written := Text;
    }
  }
}
