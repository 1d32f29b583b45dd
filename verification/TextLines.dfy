/**
  A document of the code control: one string of characters that the editor component divides
  into lines. A line ends with CR LF, with a lone CR, or with a lone LF; the last line has no end.
 */
module TextLines {
  datatype Eol = CrLf | Cr | Lf

  datatype Doc = Last(body: string) | More(body: string, eol: Eol, rest: Doc)

  predicate IsEol(ch: char) {
    ch == '\r' || ch == '\n'
  }

  /** What TrimTrailingSpaces removes. */
  predicate IsBlank(ch: char) {
    ch == ' ' || ch == '\t'
  }

  function EolText(e: Eol): (s: string)
    ensures s != "" && IsEol(s[0])
  {
    match e
    case CrLf => "\r\n"
    case Cr => "\r"
    case Lf => "\n"
  }

  function Render(d: Doc): string {
    match d
    case Last(body) => body
    case More(body, eol, rest) => body + (EolText(eol) + Render(rest))
  }

  /** Characters before the first line end. */
  function BodyLength(text: string): (k: nat)
    ensures k <= |text|
    ensures k < |text| ==> IsEol(text[k])
  {
    if text == "" || IsEol(text[0]) then 0 else 1 + BodyLength(text[1..])
  }

  function FirstEol(text: string): (e: Eol)
    requires text != ""
    ensures |EolText(e)| <= |text|
  {
    if text[0] == '\n' then Lf else if |text| > 1 && text[1] == '\n' then CrLf else Cr
  }

  /** The lines of a text. */
  function Parse(text: string): Doc
    decreases |text|
  {
    var k := BodyLength(text);
    if k == |text| then Last(text)
    else
      var eol := FirstEol(text[k..]);
      More(text[..k], eol, Parse(text[k..][|EolText(eol)|..]))
  }

  predicate NoEol(body: string) {
    forall k :: 0 <= k < |body| ==> !IsEol(body[k])
  }

  /** A line end CR directly before a line that is nothing but a LF would be read as one CR LF. */
  predicate Fuses(eol: Eol, rest: Doc) {
    eol.Cr? && rest.More? && rest.body == "" && rest.eol.Lf?
  }

  /** The division the editor makes of the rendered text. */
  predicate WellFormed(d: Doc) {
    && NoEol(d.body)
    && (d.More? ==> !Fuses(d.eol, d.rest) && WellFormed(d.rest))
  }

  lemma {:induction false} BodyHasNoEol(text: string)
    ensures NoEol(text[..BodyLength(text)])
  {
    if text != "" && !IsEol(text[0]) {
      BodyHasNoEol(text[1..]);
      assert text[..BodyLength(text)] == [text[0]] + text[1..][..BodyLength(text[1..])];
    }
  }

  lemma {:induction false} BodyLengthOf(body: string, tail: string)
    requires NoEol(body) && (tail == "" || IsEol(tail[0]))
    ensures BodyLength(body + tail) == |body|
  {
    if body == "" {
      assert body + tail == tail;
    } else {
      assert (body + tail)[1..] == body[1..] + tail;
      BodyLengthOf(body[1..], tail);
    }
  }

  lemma FirstEolText(text: string)
    requires text != "" && IsEol(text[0])
    ensures var e := EolText(FirstEol(text)); |e| <= |text| && text == e + text[|e|..]
    ensures var e := FirstEol(text); e.Cr? && |text| > 1 ==> text[1] != '\n'
  {
  }

  /** Rendered lines start with a line feed exactly when the first is empty and ends with one. */
  lemma StartsWithLf(d: Doc)
    requires NoEol(d.body)
    ensures (Render(d) != "" && Render(d)[0] == '\n') <==> (d.More? && d.body == "" && d.eol.Lf?)
  {
  }

  lemma ParseStep(text: string, rest: Doc)
    requires BodyLength(text) < |text| && WellFormed(rest)
    requires var tail := text[BodyLength(text)..]; Render(rest) == tail[|EolText(FirstEol(tail))|..]
    ensures var k := BodyLength(text); var eol := FirstEol(text[k..]);
      text == text[..k] + (EolText(eol) + Render(rest)) && !Fuses(eol, rest)
  {
    var k := BodyLength(text);
    var tail := text[k..];
    FirstEolText(tail);
    assert text == text[..k] + tail;
    if FirstEol(tail).Cr? {
      StartsWithLf(rest);
    }
  }

  /** Parsing loses nothing and divides the text properly. */
  lemma {:induction false} ParseRenders(text: string)
    ensures Render(Parse(text)) == text && WellFormed(Parse(text))
    decreases |text|
  {
    var k := BodyLength(text);
    BodyHasNoEol(text);
    if k == |text| {
      assert text[..k] == text;
    } else {
      var tail := text[k..];
      var e := EolText(FirstEol(tail));
      ParseRenders(tail[|e|..]);
      ParseStep(text, Parse(tail[|e|..]));
    }
  }

  lemma FirstEolOf(e: Eol, tail: string)
    requires e.Cr? && tail != "" ==> tail[0] != '\n'
    ensures FirstEol(EolText(e) + tail) == e && (EolText(e) + tail)[|EolText(e)|..] == tail
  {
    var text := EolText(e) + tail;
    assert text[0] == EolText(e)[0];
    if |text| > 1 {
      assert text[1] == if e.CrLf? then '\n' else tail[0];
    }
  }

  /** And it is the only proper division. */
  lemma {:induction false} RenderParses(d: Doc)
    requires WellFormed(d)
    ensures Parse(Render(d)) == d
  {
    if d.Last? {
      BodyLengthOf(d.body, "");
      assert d.body + "" == d.body;
    } else {
      var tail := EolText(d.eol) + Render(d.rest);
      BodyLengthOf(d.body, tail);
      assert Render(d) == d.body + tail && Render(d)[|d.body|..] == tail && Render(d)[..|d.body|] == d.body;
      StartsWithLf(d.rest);
      FirstEolOf(d.eol, Render(d.rest));
      RenderParses(d.rest);
    }
  }

  // ---------------------------------------------------------------- positions

  function Count(d: Doc): nat {
    if d.Last? then 1 else 1 + Count(d.rest)
  }

  /** Where line n begins. */
  function Start(d: Doc, n: nat): nat
    requires n < Count(d)
  {
    if n == 0 then 0 else |d.body| + |EolText(d.eol)| + Start(d.rest, n - 1)
  }

  function Body(d: Doc, n: nat): string
    requires n < Count(d)
  {
    if n == 0 then d.body else Body(d.rest, n - 1)
  }

  function GetLineCount(text: string): nat {
    Count(Parse(text))
  }

  /** The end of the text for the line after the last, minus one beyond, as the component documents. */
  function PositionFromLine(text: string, line: nat): int {
    var d := Parse(text);
    if line > Count(d) then -1 else if line == Count(d) then |text| else Start(d, line)
  }

  /** The end of the text for the last line and beyond. */
  function GetLineEndPosition(text: string, line: nat): nat {
    var d := Parse(text);
    if line >= Count(d) - 1 then |text| else Start(d, line) + |Body(d, line)|
  }

  function GetCharAt(text: string, i: int): char {
    if 0 <= i < |text| then text[i] else '\0'
  }

  lemma SliceShift(h: string, t: string, a: nat, b: nat)
    requires a <= b <= |t|
    ensures (h + t)[|h| + a..|h| + b] == t[a..b]
  {
  }

  /** Line n lies in the text where its position and its end say. */
  lemma {:induction false} LinePosition(d: Doc, n: nat)
    requires n < Count(d)
    ensures var s := Start(d, n); var b := Body(d, n);
      s + |b| <= |Render(d)| && Render(d)[s..s + |b|] == b && (n == Count(d) - 1 ==> s + |b| == |Render(d)|)
  {
    if n > 0 {
      LinePosition(d.rest, n - 1);
      var head := d.body + EolText(d.eol);
      assert Render(d) == head + Render(d.rest);
      SliceShift(head, Render(d.rest), Start(d.rest, n - 1), Start(d.rest, n - 1) + |Body(d.rest, n - 1)|);
    } else {
      assert Render(d)[0..|d.body|] == d.body;
    }
  }
}
